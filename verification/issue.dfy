/**
 * An issue record: one primary (genesis) or secondary (inflation
 * transition) issuance of the asset, with the inflation rights it assigns
 * onwards, and its construction from a validated operation.
 */
module Issues {
  import opened Wrappers
  import opened Operations
  import opened AssetError
  import opened InflationFold

  datatype Issue = Issue(
    nodeId: NodeId,
    contractId: ContractId,
    amount: AtomicValue,
    /** Outputs whose inflation right was spent to produce this issue; empty for genesis. */
    closes: set<OutPoint>,
    /** Seals controlling further inflation, with the allowed amount and granting assignment indices. */
    inflationAssignments: InflationMap,
    /** Witness transaction; absent for genesis. */
    witnessTx: Option<Txid>)

  /** The issue was produced by genesis. */
  predicate IsPrimary(issue: Issue) {
    issue.closes == {}
  }

  /** The issue was produced by an inflation transition: exactly when it is not primary. */
  function IsSecondary(issue: Issue): (r: bool)
    ensures r <==> !IsPrimary(issue)
  {
    issue.closes != {}
  }

  /**
   * The revealed inflation assignments fit the record: their positions fit
   * a `u16` and their amounts sum within a `u64`.
   */
  predicate InflationFits(rights: OwnedRights) {
    match RevealedAssignments(rights, Inflation)
    case Success(xs) => Fits(xs)
    case Failure(_) => true
  }

  /**
   * The issue performed by an inflation transition, which spent the outputs
   * `closes` and is anchored in `witnessTx`; `revealSeal` resolves a seal
   * against the witness transaction.
   */
  function IssueWith(
    contractId: ContractId, closes: set<OutPoint>, transition: Transition,
    witnessTx: Txid, revealSeal: (Seal, Txid) -> OutPoint)
    : (r: Result<Issue, Error>)
    requires InflationFits(transition.ownedRights)
    ensures r.Success?
        <==> FirstU64(transition.metadata, IssuedSupply).Some?
             && !IsConfidential(transition.ownedRights, Inflation)
    ensures FirstU64(transition.metadata, IssuedSupply).None?
        ==> r == Failure(UnsatisfiedSchemaRequirement)
    ensures FirstU64(transition.metadata, IssuedSupply).Some?
             && IsConfidential(transition.ownedRights, Inflation)
        ==> r == Failure(InflationAssignmentConfidential(transition.nodeId))
    ensures r.Success? ==>
      && r.value.nodeId == transition.nodeId
      && r.value.contractId == contractId
      && r.value.amount == transition.metadata[IssuedSupply][0]
      && r.value.closes == closes
      && r.value.witnessTx == Some(witnessTx)
      && Summarises(
           r.value.inflationAssignments,
           RevealAll(RevealedAssignments(transition.ownedRights, Inflation).value, revealSeal, witnessTx))
  {
    match FirstU64(transition.metadata, IssuedSupply)
    case None => Failure(UnsatisfiedSchemaRequirement)
    case Some(amount) =>
      match RevealedAssignments(transition.ownedRights, Inflation)
      case Failure(_) => Failure(InflationAssignmentConfidential(transition.nodeId))
      case Success(xs) =>
        var assignments := Aggregate(RevealAll(xs, revealSeal, witnessTx));
        Success(Issue(transition.nodeId, contractId, amount, closes, assignments, Some(witnessTx)))
  }

  /**
   * The primary issue performed by genesis; `resolve` turns a genesis seal
   * into an absolute outpoint and may fail.
   */
  function IssueFromGenesis(genesis: Genesis, resolve: Seal -> Option<OutPoint>): (r: Result<Issue, Error>)
    requires InflationFits(genesis.ownedRights)
    ensures r.Success?
        <==> FirstU64(genesis.metadata, IssuedSupply).Some?
             && !IsConfidential(genesis.ownedRights, Inflation)
             && AllResolve(RevealedAssignments(genesis.ownedRights, Inflation).value, resolve)
    ensures FirstU64(genesis.metadata, IssuedSupply).None?
        ==> r == Failure(UnsatisfiedSchemaRequirement)
    ensures FirstU64(genesis.metadata, IssuedSupply).Some?
             && IsConfidential(genesis.ownedRights, Inflation)
        ==> r == Failure(InflationAssignmentConfidential(genesis.nodeId))
    ensures FirstU64(genesis.metadata, IssuedSupply).Some?
             && !IsConfidential(genesis.ownedRights, Inflation)
             && !AllResolve(RevealedAssignments(genesis.ownedRights, Inflation).value, resolve)
        ==> r == Failure(SealUnresolved)
    ensures r.Success? ==>
      && r.value.nodeId == genesis.nodeId
      && r.value.contractId == genesis.contractId
      && r.value.amount == genesis.metadata[IssuedSupply][0]
      && r.value.closes == {}
      && r.value.witnessTx == None
      && IsPrimary(r.value)
      && Summarises(
           r.value.inflationAssignments,
           ResolveAll(RevealedAssignments(genesis.ownedRights, Inflation).value, resolve))
  {
    match FirstU64(genesis.metadata, IssuedSupply)
    case None => Failure(UnsatisfiedSchemaRequirement)
    case Some(amount) =>
      match RevealedAssignments(genesis.ownedRights, Inflation)
      case Failure(_) => Failure(InflationAssignmentConfidential(genesis.nodeId))
      case Success(xs) =>
        match TryAggregate(xs, resolve)
        case Failure(e) => Failure(e)
        case Success(assignments) =>
          Success(Issue(genesis.nodeId, genesis.contractId, amount, {}, assignments, None))
  }

  /** Exactly one of primary and secondary holds of every issue. */
  lemma PrimaryXorSecondary(issue: Issue)
    ensures IsPrimary(issue) != IsSecondary(issue)
  {
  }

  /** A genesis issuing 1000 without inflation rights yields a primary issue of 1000 with nothing else. */
  lemma GenesisWithoutInflation(genesis: Genesis, resolve: Seal -> Option<OutPoint>)
    requires genesis.metadata == map[IssuedSupply := [1000]]
    requires Inflation !in genesis.ownedRights
    ensures IssueFromGenesis(genesis, resolve)
         == Success(Issue(genesis.nodeId, genesis.contractId, 1000, {}, map[], None))
    ensures IsPrimary(IssueFromGenesis(genesis, resolve).value)
  {
  }
}
