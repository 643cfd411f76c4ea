/**
 * A burn & replace record: one burn, or burn-and-replace, operation inside
 * a burn & replace epoch, and its construction from a validated transition.
 */
module BurnReplacement {
  import opened Wrappers
  import opened Operations
  import opened AssetError

  /** 2^64, the modulus of `u64` arithmetic. */
  const U64_MODULUS: int := 0x1_0000_0000_0000_0000

  datatype BurnReplace = BurnReplace(
    nodeId: NodeId,
    /** Node id of the transition that opened the owning epoch. */
    epochId: NodeId,
    /** Sequence number of the operation within its epoch. */
    no: nat,
    contractId: ContractId,
    closes: OutPoint,
    doesReplacement: bool,
    burnedAmount: AtomicValue,
    replacedAmount: AtomicValue,
    supplyChange: AtomicValue,
    /** No further burn or replace can follow in the epoch. */
    isFinal: bool,
    /** Seal controlling the next burn or replace operation of the epoch. */
    seal: Option<OutPoint>,
    witnessTx: Txid)

  /**
   * The derived fields agree with the ones they are derived from: the
   * operation is final exactly when it has no successor seal, and the net
   * supply change is what was burned and not replaced.
   */
  predicate Consistent(b: BurnReplace) {
    && b.isFinal == b.seal.None?
    && b.supplyChange + b.replacedAmount == b.burnedAmount
  }

  /**
   * The burn or burn-and-replace operation performed by `transition` in the
   * epoch opened by `epochId`; the net supply change is checked not to
   * underflow.
   */
  function BurnReplaceWith(
    contractId: ContractId, epochId: NodeId, no: nat, closes: OutPoint,
    transition: Transition, witnessTx: Txid, revealSeal: (Seal, Txid) -> OutPoint)
    : (r: Result<BurnReplace, Error>)
    ensures r.Success?
        <==> !IsConfidential(transition.ownedRights, BurnReplaceRight)
             && FirstU64(transition.metadata, BurnedSupply).Some?
             && FirstU64(transition.metadata, IssuedSupply).Some?
             && transition.metadata[IssuedSupply][0] <= transition.metadata[BurnedSupply][0]
    ensures IsConfidential(transition.ownedRights, BurnReplaceRight)
        ==> r == Failure(BurnSealConfidential(transition.nodeId))
    ensures !IsConfidential(transition.ownedRights, BurnReplaceRight)
             && (FirstU64(transition.metadata, BurnedSupply).None?
                 || FirstU64(transition.metadata, IssuedSupply).None?)
        ==> r == Failure(UnsatisfiedSchemaRequirement)
    ensures !IsConfidential(transition.ownedRights, BurnReplaceRight)
             && FirstU64(transition.metadata, BurnedSupply).Some?
             && FirstU64(transition.metadata, IssuedSupply).Some?
             && transition.metadata[IssuedSupply][0] > transition.metadata[BurnedSupply][0]
        ==> r == Failure(SupplyUnderflow(transition.nodeId))
    ensures r.Success? ==>
      && Consistent(r.value)
      && r.value.nodeId == transition.nodeId
      && r.value.epochId == epochId
      && r.value.no == no
      && r.value.contractId == contractId
      && r.value.closes == closes
      && r.value.witnessTx == witnessTx
      && (r.value.doesReplacement <==> transition.transitionType == BurnAndReplace)
      && r.value.burnedAmount == transition.metadata[BurnedSupply][0]
      && r.value.replacedAmount == transition.metadata[IssuedSupply][0]
      && IsFirstRevealedSeal(transition.ownedRights, BurnReplaceRight, witnessTx, revealSeal, r.value.seal)
      && (r.value.isFinal <==> !HasRevealedSeal(transition.ownedRights, BurnReplaceRight))
  {
    match FirstRevealedSeal(transition.ownedRights, BurnReplaceRight, witnessTx, revealSeal)
    case Failure(_) => Failure(BurnSealConfidential(transition.nodeId))
    case Success(seal) =>
      var doesReplacement := transition.transitionType == BurnAndReplace;
      match FirstU64(transition.metadata, BurnedSupply)
      case None => Failure(UnsatisfiedSchemaRequirement)
      case Some(burned) =>
        match FirstU64(transition.metadata, IssuedSupply)
        case None => Failure(UnsatisfiedSchemaRequirement)
        case Some(replaced) =>
          if replaced > burned then Failure(SupplyUnderflow(transition.nodeId))
          else
            Success(BurnReplace(
              transition.nodeId, epochId, no, contractId, closes, doesReplacement,
              burned, replaced, burned - replaced, seal.None?, seal, witnessTx))
  }

  /**
   * The net supply change as the unchecked `u64` subtraction computes it in
   * a release build: the `u64` that, added to the replaced amount, gives the
   * burned amount modulo 2^64.
   */
  function SupplyChangeAsWritten(burned: AtomicValue, replaced: AtomicValue): (r: AtomicValue)
    ensures (r + replaced) % U64_MODULUS == burned
  {
    if replaced <= burned then burned - replaced else burned - replaced + U64_MODULUS
  }

  /** Without underflow the unchecked subtraction is the net change the checked constructor stores. */
  lemma SupplyChangeAgreesWithoutUnderflow(burned: AtomicValue, replaced: AtomicValue)
    requires replaced <= burned
    ensures SupplyChangeAsWritten(burned, replaced) + replaced == burned
  {
  }

  /**
   * Replacing 700 while burning 500 makes the unchecked subtraction report
   * a net burn of 2^64 - 200, far more than was burned at all.
   */
  lemma SupplyChangeAsWrittenOverstatesBurn()
    ensures SupplyChangeAsWritten(500, 700) == 0xFFFF_FFFF_FFFF_FF38
    ensures SupplyChangeAsWritten(500, 700) > 500
  {
  }

  /** The checked constructor refuses that same operation instead of reporting a net change. */
  lemma CorrectedRejectsOverReplacement(
    contractId: ContractId, epochId: NodeId, no: nat, closes: OutPoint,
    transition: Transition, witnessTx: Txid, revealSeal: (Seal, Txid) -> OutPoint)
    requires transition.metadata == map[BurnedSupply := [500], IssuedSupply := [700]]
    requires BurnReplaceRight !in transition.ownedRights
    ensures BurnReplaceWith(contractId, epochId, no, closes, transition, witnessTx, revealSeal)
         == Failure(SupplyUnderflow(transition.nodeId))
  {
  }

  /** A pure burn of 500 whose issued-supply field is 0 removes 500 from circulation. */
  lemma PureBurnExample(
    contractId: ContractId, epochId: NodeId, no: nat, closes: OutPoint,
    transition: Transition, witnessTx: Txid, revealSeal: (Seal, Txid) -> OutPoint)
    requires transition.transitionType == Burn
    requires transition.metadata == map[BurnedSupply := [500], IssuedSupply := [0]]
    requires BurnReplaceRight !in transition.ownedRights
    ensures var r := BurnReplaceWith(contractId, epochId, no, closes, transition, witnessTx, revealSeal);
      r.Success? && r.value.supplyChange == 500 && !r.value.doesReplacement && r.value.isFinal
  {
  }

  /** Burning 500 and replacing 200 removes 300 from circulation. */
  lemma BurnAndReplaceExample(
    contractId: ContractId, epochId: NodeId, no: nat, closes: OutPoint,
    transition: Transition, witnessTx: Txid, revealSeal: (Seal, Txid) -> OutPoint)
    requires transition.transitionType == BurnAndReplace
    requires transition.metadata == map[BurnedSupply := [500], IssuedSupply := [200]]
    requires !IsConfidential(transition.ownedRights, BurnReplaceRight)
    ensures var r := BurnReplaceWith(contractId, epochId, no, closes, transition, witnessTx, revealSeal);
      r.Success? && r.value.supplyChange == 300 && r.value.doesReplacement
  {
  }

  /** A pure burn must still carry the issued-supply field; without it construction fails. */
  lemma PureBurnNeedsIssuedSupply(
    contractId: ContractId, epochId: NodeId, no: nat, closes: OutPoint,
    transition: Transition, witnessTx: Txid, revealSeal: (Seal, Txid) -> OutPoint)
    requires transition.transitionType == Burn
    requires transition.metadata == map[BurnedSupply := [500]]
    requires !IsConfidential(transition.ownedRights, BurnReplaceRight)
    ensures BurnReplaceWith(contractId, epochId, no, closes, transition, witnessTx, revealSeal)
         == Failure(UnsatisfiedSchemaRequirement)
  {
  }
}
