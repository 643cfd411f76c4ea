/**
 * A burn & replace epoch: a numbered window in which burn and replace
 * operations may happen, and its construction from the transition that
 * opened it.
 */
module Epochs {
  import opened Wrappers
  import opened Operations
  import opened AssetError
  import opened BurnReplacement

  datatype Epoch = Epoch(
    nodeId: NodeId,
    /** Sequence number of the epoch; the first epoch closes the genesis epoch seal. */
    no: nat,
    contractId: ContractId,
    /** The output whose epoch right was spent to open this epoch. */
    closes: OutPoint,
    /** Seal controlling the opening of the next epoch. */
    epochSeal: Option<OutPoint>,
    /** Seal controlling the first burn or replace operation of this epoch. */
    seal: Option<OutPoint>,
    /** No further epoch can be opened. */
    isFinal: bool,
    /** Burn and replace operations are allowed in this epoch. */
    isUnlocked: bool,
    knownOperations: seq<BurnReplace>,
    witnessTx: Txid)

  /** The flags are justified by the seals: final without a next-epoch seal, unlocked with a burn seal. */
  predicate FlagsMatchSeals(e: Epoch) {
    && e.isFinal == e.epochSeal.None?
    && e.isUnlocked == e.seal.Some?
  }

  /**
   * The epoch opened by `transition`, which spent `closes`; `operations` are
   * the burn & replace operations the caller knows for it.
   */
  function EpochWith(
    contractId: ContractId, no: nat, closes: OutPoint, transition: Transition,
    operations: seq<BurnReplace>, witnessTx: Txid, revealSeal: (Seal, Txid) -> OutPoint)
    : (r: Result<Epoch, Error>)
    ensures r.Success?
        <==> !IsConfidential(transition.ownedRights, OpenEpoch)
             && !IsConfidential(transition.ownedRights, BurnReplaceRight)
    ensures IsConfidential(transition.ownedRights, OpenEpoch)
        ==> r == Failure(EpochSealConfidential(transition.nodeId))
    ensures !IsConfidential(transition.ownedRights, OpenEpoch)
             && IsConfidential(transition.ownedRights, BurnReplaceRight)
        ==> r == Failure(BurnSealConfidential(transition.nodeId))
    ensures r.Success? ==>
      && FlagsMatchSeals(r.value)
      && IsFirstRevealedSeal(transition.ownedRights, OpenEpoch, witnessTx, revealSeal, r.value.epochSeal)
      && IsFirstRevealedSeal(transition.ownedRights, BurnReplaceRight, witnessTx, revealSeal, r.value.seal)
      && (r.value.isFinal <==> !HasRevealedSeal(transition.ownedRights, OpenEpoch))
      && (r.value.isUnlocked <==> HasRevealedSeal(transition.ownedRights, BurnReplaceRight))
      && r.value.nodeId == transition.nodeId
      && r.value.no == no
      && r.value.contractId == contractId
      && r.value.closes == closes
      && r.value.knownOperations == operations
      && r.value.witnessTx == witnessTx
  {
    match FirstRevealedSeal(transition.ownedRights, OpenEpoch, witnessTx, revealSeal)
    case Failure(_) => Failure(EpochSealConfidential(transition.nodeId))
    case Success(epochSeal) =>
      match FirstRevealedSeal(transition.ownedRights, BurnReplaceRight, witnessTx, revealSeal)
      case Failure(_) => Failure(BurnSealConfidential(transition.nodeId))
      case Success(seal) =>
        Success(Epoch(
          transition.nodeId, no, contractId, closes, epochSeal, seal,
          epochSeal.None?, seal.Some?, operations, witnessTx))
  }
}
