/** The three-valued admission result and its conjunction. */
module Admission {
  import opened Deltas

  datatype RejectReason =
    | DidMismatch
    | Deactivated
    | GenesisOpNotAllowed
    | SignerNotAuthorised
    | StaleRotation
    | Revoked
    | BadSignature
    | TooLarge

  datatype AdmissionResult = Unknown(missing: seq<Hash>) | Valid | Invalid(reason: RejectReason)

  /** The derived order on reasons is their declaration order. */
  function Rank(r: RejectReason): nat {
    match r
    case DidMismatch => 0
    case Deactivated => 1
    case GenesisOpNotAllowed => 2
    case SignerNotAuthorised => 3
    case StaleRotation => 4
    case Revoked => 5
    case BadSignature => 6
    case TooLarge => 7
  }

  function LeastReason(a: RejectReason, b: RejectReason): RejectReason {
    if Rank(b) < Rank(a) then b else a
  }

  function Meet(a: AdmissionResult, b: AdmissionResult): AdmissionResult {
    match (a, b)
    case (Invalid(r), Invalid(q)) => Invalid(LeastReason(r, q))
    case (Invalid(r), _) => Invalid(r)
    case (_, Invalid(r)) => Invalid(r)
    case (Unknown(m), Unknown(n)) => Unknown(SortDedup(m + n))
    case (Unknown(m), Valid) => Unknown(m)
    case (Valid, Unknown(m)) => Unknown(m)
    case (Valid, Valid) => Valid
  }

  datatype Comparison = Less | Equal | Greater | Incomparable

  /** Position in the flat lattice: payloads do not count. */
  function Compare(a: AdmissionResult, b: AdmissionResult): Comparison {
    match (a, b)
    case (Unknown(_), Unknown(_)) => Equal
    case (Valid, Valid) => Equal
    case (Invalid(_), Invalid(_)) => Equal
    case (Unknown(_), _) => Less
    case (_, Unknown(_)) => Greater
    case _ => Incomparable
  }

  lemma SortDedupBySet(a: seq<Hash>, b: seq<Hash>)
    requires Elements(a) == Elements(b)
    ensures SortDedup(a) == SortDedup(b)
  {
    AscendingUnique(SortDedup(a), SortDedup(b));
  }

  lemma MeetCommutes(a: AdmissionResult, b: AdmissionResult)
    ensures Meet(a, b) == Meet(b, a)
  {
    if a.Unknown? && b.Unknown? {
      ElementsConcat(a.missing, b.missing);
      ElementsConcat(b.missing, a.missing);
      SortDedupBySet(a.missing + b.missing, b.missing + a.missing);
    }
  }

  lemma MeetAssociates(a: AdmissionResult, b: AdmissionResult, c: AdmissionResult)
    ensures Meet(Meet(a, b), c) == Meet(a, Meet(b, c))
  {
    hide SortDedup, Elements;
    if a.Unknown? && b.Unknown? && c.Unknown? {
      var left, right := SortDedup(a.missing + b.missing), SortDedup(b.missing + c.missing);
      ElementsConcat(a.missing, b.missing);
      ElementsConcat(b.missing, c.missing);
      ElementsConcat(left, c.missing);
      ElementsConcat(a.missing, right);
      SortDedupBySet(left + c.missing, a.missing + right);
    }
  }

  /** Idempotence holds exactly for results whose fetch list is sorted and duplicate free. */
  lemma MeetIdempotentIff(a: AdmissionResult)
    ensures Meet(a, a) == a <==> (a.Unknown? ==> Ascending(a.missing))
  {
    if a.Unknown? {
      ElementsConcat(a.missing, a.missing);
      if Ascending(a.missing) {
        AscendingUnique(SortDedup(a.missing + a.missing), a.missing);
      }
    }
  }

  lemma MeetNotIdempotent()
    ensures Meet(Unknown([2, 1]), Unknown([2, 1])) != Unknown([2, 1])
  {
    MeetIdempotentIff(Unknown([2, 1]));
    assert [2, 1][0] > [2, 1][1];
  }

  /** Conjunction: valid iff both are, invalid iff one is, and an undecided pair waits for both lists. */
  lemma MeetIsConjunction(a: AdmissionResult, b: AdmissionResult)
    ensures Meet(a, b).Valid? <==> a.Valid? && b.Valid?
    ensures Meet(a, b).Invalid? <==> a.Invalid? || b.Invalid?
    ensures Meet(a, b).Unknown? && a.Unknown? && b.Unknown? ==>
              Meet(a, b).missing == Sorted(Elements(a.missing) + Elements(b.missing))
    ensures a.Invalid? && b.Unknown? ==> Compare(Meet(a, b), b) == Greater  // not a greatest lower bound
  {
    if a.Unknown? && b.Unknown? {
      ElementsConcat(a.missing, b.missing);
      SortDedupIsSorted(a.missing + b.missing);
    }
  }

  /** The reasons in order of precedence. */
  const REASONS := [DidMismatch, Deactivated, GenesisOpNotAllowed, SignerNotAuthorised, StaleRotation, Revoked,
                    BadSignature, TooLarge]

  /** Of two refusals the one listed first wins, and next to a valid result a fetch list stays as it is. */
  lemma MeetKeepsPayload(i: nat, j: nat, m: seq<Hash>)
    requires i <= j < |REASONS|
    ensures Meet(Invalid(REASONS[i]), Invalid(REASONS[j])) == Invalid(REASONS[i])
    ensures Meet(Invalid(REASONS[j]), Invalid(REASONS[i])) == Invalid(REASONS[i])
    ensures forall r: RejectReason :: r in REASONS
    ensures Meet(Unknown(m), Valid) == Unknown(m) == Meet(Valid, Unknown(m))
    ensures Meet(Invalid(REASONS[i]), Unknown(m)) == Invalid(REASONS[i]) == Meet(Valid, Invalid(REASONS[i]))
  {
    assert Rank(REASONS[i]) == i && Rank(REASONS[j]) == j;
    forall r: RejectReason ensures r in REASONS {
      assert REASONS[Rank(r)] == r;
    }
  }

  /** The comparison is a partial order up to payloads: undecided is least, and decisions do not compare. */
  lemma ComparisonIsFlat(a: AdmissionResult, b: AdmissionResult, c: AdmissionResult)
    ensures Compare(a, b) == Equal <==> (a.Unknown? == b.Unknown? && a.Valid? == b.Valid?)
    ensures Compare(a, b) == Less <==> Compare(b, a) == Greater
    ensures Compare(a, b) in {Less, Equal} && Compare(b, c) in {Less, Equal} ==> Compare(a, c) in {Less, Equal}
    ensures a.Valid? && b.Invalid? ==> Compare(a, b) == Incomparable
    ensures a.Unknown? && !b.Unknown? ==> Compare(a, b) == Less
  {
  }
}
