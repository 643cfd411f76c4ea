/**
 * The slice of an already-validated RGB contract operation that supply
 * extraction reads: identifiers, metadata fields, owned rights with their
 * single-use seals and amounts, and the transition type. All of it is
 * produced by the validation engine; the model keeps only what the
 * extraction looks at, and keeps identifiers opaque.
 */
module Operations {
  import opened Wrappers

  /** Largest value of an unsigned 64-bit integer. */
  const U64_MAX: int := 0xFFFF_FFFF_FFFF_FFFF

  /** An amount of the asset in its smallest indivisible unit (`u64`). */
  type AtomicValue = x: int | 0 <= x <= U64_MAX

  /** An assignment index as stored in an issue record (`u16`). */
  type U16 = x: int | 0 <= x < 0x1_0000

  /** Opaque identifiers, compared by equality only. */
  datatype NodeId = NodeId(hash: nat)
  datatype ContractId = ContractId(hash: nat)
  datatype Txid = Txid(hash: nat)

  /** An absolute transaction output: the resolved form of a seal. */
  datatype OutPoint = OutPoint(txid: Txid, vout: nat)

  /**
   * A revealed single-use seal. A seal without a transaction id points into
   * the witness transaction of the operation that defines it; turning a seal
   * into an `OutPoint` is done by a resolution function the caller supplies.
   */
  datatype Seal = Seal(txid: Option<Txid>, vout: nat, blinding: nat)

  /** Metadata field tags of the fungible-asset schema that this core reads. */
  datatype FieldType = IssuedSupply | BurnedSupply | OtherField(tag: nat)

  /** Owned-right tags of the fungible-asset schema that this core reads. */
  datatype OwnedRightType = Inflation | OpenEpoch | BurnReplaceRight | OtherRight(tag: nat)

  /** Transition tags; only `BurnAndReplace` is told apart by this core. */
  datatype TransitionType =
    | Issuance
    | EpochOpening
    | Burn
    | BurnAndReplace
    | OtherTransition(tag: nat)

  /** Metadata: the list of `u64` values stored under each field tag. */
  type Metadata = map<FieldType, seq<AtomicValue>>

  /**
   * The assignments of one owned-right type: either all revealed, each a
   * seal with the amount it carries (zero for declarative rights), or
   * confidential when at least one of them is blinded.
   */
  datatype OwnedRight = Confidential | Revealed(assignments: seq<(Seal, AtomicValue)>)

  type OwnedRights = map<OwnedRightType, OwnedRight>

  datatype Genesis = Genesis(
    nodeId: NodeId,
    contractId: ContractId,
    metadata: Metadata,
    ownedRights: OwnedRights)

  datatype Transition = Transition(
    nodeId: NodeId,
    transitionType: TransitionType,
    metadata: Metadata,
    ownedRights: OwnedRights)

  /** The error of the revealing accessors when some assignment is blinded. */
  datatype ConfidentialData = ConfidentialData

  /** The first `u64` value of a metadata field, if the field holds any. */
  function FirstU64(metadata: Metadata, field: FieldType): (r: Option<AtomicValue>)
    ensures r.Some? <==> field in metadata && |metadata[field]| > 0
    ensures r.Some? ==> r.value == metadata[field][0]
  {
    var values := if field in metadata then metadata[field] else [];
    if |values| == 0 then None else Some(values[0])
  }

  /** Some assignment of right type `t` is blinded. */
  predicate IsConfidential(rights: OwnedRights, t: OwnedRightType) {
    t in rights && rights[t].Confidential?
  }

  /** Right type `t` has at least one assignment, and all are revealed. */
  predicate HasRevealedSeal(rights: OwnedRights, t: OwnedRightType) {
    t in rights && rights[t].Revealed? && |rights[t].assignments| > 0
  }

  /**
   * The revealed assignments of right type `t`: an absent right type reads
   * as no assignments, a confidential one as an error.
   */
  function RevealedAssignments(rights: OwnedRights, t: OwnedRightType)
    : (r: Result<seq<(Seal, AtomicValue)>, ConfidentialData>)
    ensures r.Failure? <==> IsConfidential(rights, t)
    ensures t !in rights ==> r == Success([])
    ensures r.Success? && t in rights ==> r.value == rights[t].assignments
  {
    if t !in rights then Success([])
    else
      match rights[t]
      case Confidential => Failure(ConfidentialData)
      case Revealed(xs) => Success(xs)
  }

  /**
   * `s` is the outpoint of the first revealed seal of right type `t`,
   * resolved against `witnessTx`, or absent when that right type has no seal.
   */
  ghost predicate IsFirstRevealedSeal(
    rights: OwnedRights, t: OwnedRightType, witnessTx: Txid,
    revealSeal: (Seal, Txid) -> OutPoint, s: Option<OutPoint>)
  {
    && (s.Some? <==> HasRevealedSeal(rights, t))
    && (s.Some? ==> s.value == revealSeal(rights[t].assignments[0].0, witnessTx))
  }

  /**
   * The first revealed seal of right type `t`, resolved against the witness
   * transaction; fails when the right type is confidential.
   */
  function FirstRevealedSeal(
    rights: OwnedRights, t: OwnedRightType, witnessTx: Txid, revealSeal: (Seal, Txid) -> OutPoint)
    : (r: Result<Option<OutPoint>, ConfidentialData>)
    ensures r.Failure? <==> IsConfidential(rights, t)
    ensures r.Success? ==> IsFirstRevealedSeal(rights, t, witnessTx, revealSeal, r.value)
  {
    match RevealedAssignments(rights, t)
    case Failure(e) => Failure(e)
    case Success(xs) =>
      if |xs| == 0 then Success(None) else Success(Some(revealSeal(xs[0].0, witnessTx)))
  }
}
