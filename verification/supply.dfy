/** The selector of a supply figure, stored as a `u8` discriminant. */
module SupplyMeasures {
  import opened Wrappers

  datatype SupplyMeasure =
    /** Known issued supply, minus known burns, plus known replacements. */
    | KnownCirculating
    /** The exact circulating supply, when every supply-changing operation is known. */
    | TotalCirculating
    /** The genesis issue plus every inflation amount genesis allows. */
    | IssueLimit

  /** The `u8` discriminant of a measure. */
  function Discriminant(m: SupplyMeasure): (d: nat)
    ensures d <= 2
  {
    match m
    case KnownCirculating => 0
    case TotalCirculating => 1
    case IssueLimit => 2
  }

  /**
   * The measure with discriminant `d`, if there is one. The library has no
   * such conversion; this is only the inverse of the `as u8` cast, stated so
   * that the discriminants can be shown to identify the measures.
   */
  function FromDiscriminant(d: nat): (r: Option<SupplyMeasure>)
    ensures r.Some? <==> d <= 2
  {
    if d == 0 then Some(KnownCirculating)
    else if d == 1 then Some(TotalCirculating)
    else if d == 2 then Some(IssueLimit)
    else None
  }

  /** Discriminants identify measures: decoding a discriminant gives back its measure, and only it. */
  lemma DiscriminantRoundTrip(m: SupplyMeasure, d: nat)
    ensures FromDiscriminant(Discriminant(m)) == Some(m)
    ensures FromDiscriminant(d) == Some(m) ==> Discriminant(m) == d
  {
  }
}

/** The supply summary of an asset, as derived from the known contract data. */
module SupplyState {
  import opened Wrappers
  import opened Operations

  datatype Supply = Supply(
    /** Sum of the issued amounts known from the stash. */
    knownCirculating: AtomicValue,
    /**
     * Whether every supply-changing operation is known: `None` when this was
     * never assessed, `Some(false)` when some are missing, `Some(true)` when
     * the data is complete.
     */
    isKnown: Option<bool>,
    /** Maximum supply that may ever be issued. */
    issueLimit: AtomicValue)

  /** The supply summary holding exactly the given figures. */
  function SupplyWith(knownCirculating: AtomicValue, isKnown: Option<bool>, issueLimit: AtomicValue)
    : (s: Supply)
    ensures s.knownCirculating == knownCirculating
    ensures s.isKnown == isKnown
    ensures s.issueLimit == issueLimit
    ensures TotalCirculating(s) == if isKnown == Some(true) then Some(knownCirculating) else None
  {
    Supply(knownCirculating, isKnown, issueLimit)
  }

  /**
   * The exact circulating supply: the known figure when the data is known
   * to be complete, and nothing when completeness is unassessed or denied.
   */
  function TotalCirculating(s: Supply): (r: Option<AtomicValue>)
    ensures r.Some? <==> s.isKnown == Some(true)
    ensures r.Some? ==> r.value == s.knownCirculating
  {
    if s.isKnown.GetOr(false) then Some(s.knownCirculating) else None
  }
}
