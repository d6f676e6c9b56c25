/** Signed deltas: the unit of replication, and the orders used on it. */
module Deltas {

  /** A content hash. Hashes are opaque and totally ordered; `nat` keeps exactly that. */
  type Hash = nat

  /** Key material in multibase form: opaque and totally ordered. */
  type PublicKey = nat

  type Did = string

  /** An HLC timestamp, compared lexicographically. */
  datatype Stamp = Stamp(wall: nat, logical: nat, node: nat)

  const ZERO_STAMP := Stamp(0, 0, 0)

  predicate Before(a: Stamp, b: Stamp) {
    || a.wall < b.wall
    || (a.wall == b.wall && a.logical < b.logical)
    || (a.wall == b.wall && a.logical == b.logical && a.node < b.node)
  }

  /** The order is that of the number whose digits are wall, counter and node, in that order of weight. */
  lemma BeforeIsLexicographic(a: Stamp, b: Stamp, base: nat)
    requires a.logical < base && a.node < base && b.logical < base && b.node < base
    ensures Before(a, b) <==> Weight(a, base) < Weight(b, base)
    ensures Before(a, b) || Before(b, a) || a == b
    ensures !(Before(a, b) && Before(b, a))
  {
    DigitsCompare(a.wall, a.logical, b.wall, b.logical, base);
    DigitsCompare(a.wall * base + a.logical, a.node, b.wall * base + b.logical, b.node, base);
  }

  function Weight(t: Stamp, base: nat): nat {
    (t.wall * base + t.logical) * base + t.node
  }

  lemma DigitsCompare(x: nat, i: nat, y: nat, j: nat, base: nat)
    requires i < base && j < base
    ensures x * base + i < y * base + j <==> x < y || (x == y && i < j)
    ensures x * base + i == y * base + j <==> x == y && i == j
  {
    if x < y {
      NextDigit(x, y, base);
    } else if y < x {
      NextDigit(y, x, base);
    }
  }

  lemma NextDigit(x: nat, y: nat, base: nat)
    requires x < y
    ensures x * base + base <= y * base
  {
    var k := y - x - 1;
    assert 0 <= k * base;
    assert y * base == (x + 1 + k) * base == x * base + base + k * base;
  }

  datatype Suite = Ed25519Signature2020 | EcdsaSecp256k1Signature2019

  datatype Relationship =
    | Authentication
    | AssertionMethod
    | KeyAgreement
    | CapabilityInvocation
    | CapabilityDelegation

  datatype KeyEntry = KeyEntry(id: string, key: PublicKey, suite: Suite, relationships: seq<Relationship>)

  datatype ServiceEntry = ServiceEntry(id: string, serviceType: string, endpoint: string)

  /** A key reference together with its BLAKE3 digest. */
  datatype KeyRef = KeyRef(name: string, digest: nat)

  /** A JSON value: `Null` is the default a register starts from. */
  datatype Json = Null | Json(text: string)

  datatype Op =
    | AddVerificationMethod(entry: KeyEntry)
    | AddServiceEndpoint(service: ServiceEntry)
    | RemoveServiceEndpoint(serviceId: string)
    | SetAlsoKnownAs(uris: set<string>, recognised: bool)  // `recognised`: the alias grammar accepts them
    | SetDocumentData(field: string, value: Json)
    | RotateKey(rotation: nat, keyRef: KeyRef)
    | RevokeCredential(credential: string)
    | RevokeVerificationMethod(keyId: string)
    | Deactivate

  /** A proof is empty, or verifies under some set of public keys. */
  datatype Proof = Unsigned | Signed(verifiesUnder: set<PublicKey>)

  /** `hash` is the content hash of the signed payload, `size` the serialised length. */
  datatype Delta = Delta(
    hash: Hash,
    did: Did,
    stamp: Stamp,
    op: Op,
    parents: seq<Hash>,
    signer: string,
    proof: Proof,
    size: nat)

  const MAX_DELTA_SIZE := 65_536

  const RESERVED_PROPERTIES := {
    "@context", "id", "alsoKnownAs", "controller", "verificationMethod", "authentication",
    "assertionMethod", "keyAgreement", "capabilityInvocation", "capabilityDelegation", "service"
  }

  predicate AddsKey(d: Delta, keyId: string) {
    d.op.AddVerificationMethod? && d.op.entry.id == keyId
  }

  predicate RevokesKey(d: Delta, keyId: string) {
    d.op.RevokeVerificationMethod? && d.op.keyId == keyId
  }

  predicate IsService(d: Delta) {
    d.op.AddServiceEndpoint? || d.op.RemoveServiceEndpoint?
  }

  /** Every pair of neighbours ascends, as `windows(2)` checks it. */
  predicate CanonicalParents(parents: seq<Hash>) {
    forall i :: 0 < i < |parents| ==> parents[i - 1] < parents[i]
  }

  /** Hashes, as a set. */
  function Elements(s: seq<Hash>): set<Hash> {
    set h | h in s
  }

  lemma ElementsAppend(s: seq<Hash>, h: Hash)
    ensures Elements(s + [h]) == Elements(s) + {h}
  {
  }

  lemma ElementsConcat(a: seq<Hash>, b: seq<Hash>)
    ensures Elements(a + b) == Elements(a) + Elements(b)
  {
  }

  lemma ElementsEmpty(s: seq<Hash>)
    ensures s == [] <==> Elements(s) == {}
    ensures s != [] ==> s[0] in Elements(s)
  {
    if s != [] {
      assert s[0] in Elements(s);
    }
  }

  lemma SplitLast<T>(s: seq<T>)
    requires s != []
    ensures s == s[..|s| - 1] + [s[|s| - 1]]
  {
  }

  /** No entry is repeated. */
  predicate Distinct<T(==)>(s: seq<T>) {
    forall i, j :: 0 <= i < j < |s| ==> s[i] != s[j]
  }

  predicate Ascending(s: seq<Hash>) {
    forall i, j :: 0 <= i < j < |s| ==> s[i] < s[j]
  }

  /** The neighbour check is exactly "sorted with no repetition". */
  lemma {:induction false} CanonicalIsAscending(parents: seq<Hash>)
    ensures CanonicalParents(parents) <==> Ascending(parents)
  {
    if CanonicalParents(parents) && |parents| > 0 {
      var front := parents[..|parents| - 1];
      CanonicalIsAscending(front);
      forall i, j | 0 <= i < j < |parents| ensures parents[i] < parents[j] {
        if j == |parents| - 1 && i < j - 1 {
          assert front[i] < front[j - 1];
          assert parents[j - 1] < parents[j];
        } else if j < |parents| - 1 {
          assert front[i] < front[j];
        }
      }
    }
  }

  lemma ElementsPrepend(h: Hash, s: seq<Hash>)
    ensures Elements([h] + s) == Elements(s) + {h}
  {
  }

  lemma AscendingPrepend(h: Hash, s: seq<Hash>)
    requires Ascending(s) && forall x :: x in Elements(s) ==> h < x
    ensures Ascending([h] + s)
  {
    assert forall i :: 0 <= i < |s| ==> s[i] in Elements(s);
  }

  lemma AscendingTail(s: seq<Hash>)
    requires Ascending(s) && s != []
    ensures Ascending(s[1..])
    ensures Elements(s) == Elements(s[1..]) + {s[0]}
    ensures forall x :: x in Elements(s[1..]) ==> s[0] < x
  {
    assert s == [s[0]] + s[1..];
  }

  function InsertSorted(s: seq<Hash>, h: Hash): (r: seq<Hash>)
    requires Ascending(s)
    ensures Ascending(r)
    ensures Elements(r) == Elements(s) + {h}
  {
    hide Ascending;
    hide Elements;
    if s == [] then
      ElementsPrepend(h, s);
      SingletonAscends(h);
      [h] + s
    else
      AscendingTail(s);
      if h < s[0] then
        ElementsPrepend(h, s);
        AscendingPrepend(h, s);
        [h] + s
      else if h == s[0] then
        s
      else
        var rest := InsertSorted(s[1..], h);
        ElementsPrepend(s[0], rest);
        AscendingPrepend(s[0], rest);
        [s[0]] + rest
  }

  lemma SingletonAscends(h: Hash)
    ensures Ascending([h] + [])
  {
  }

  /** `sort` followed by `dedup`. */
  function SortDedup(s: seq<Hash>): (r: seq<Hash>)
    ensures Ascending(r)
    ensures Elements(r) == Elements(s)
  {
    if s == [] then []
    else
      assert s == [s[0]] + s[1..];
      InsertSorted(SortDedup(s[1..]), s[0])
  }

  /** Insertion that keeps repetitions. */
  function InsertInOrder(s: seq<Hash>, h: Hash): seq<Hash> {
    if s == [] then [h]
    else if h <= s[0] then [h] + s
    else [s[0]] + InsertInOrder(s[1..], h)
  }

  /** `sort` alone. */
  function Sort(s: seq<Hash>): seq<Hash> {
    if s == [] then [] else InsertInOrder(Sort(s[1..]), s[0])
  }

  lemma {:induction false} InsertNew(s: seq<Hash>, h: Hash)
    requires Ascending(s) && h !in s
    ensures InsertInOrder(s, h) == InsertSorted(s, h)
  {
    hide Ascending, Elements;
    if s != [] {
      AscendingTail(s);
      InsertNew(s[1..], h);
    }
  }

  /** Without repetitions there is nothing to deduplicate. */
  lemma {:induction false} SortOfDistinct(s: seq<Hash>)
    requires Distinct(s)
    ensures Sort(s) == SortDedup(s)
  {
    if s != [] {
      assert forall i :: 0 <= i < |s[1..]| ==> s[1..][i] == s[i + 1];
      SortOfDistinct(s[1..]);
      assert s[0] !in Elements(s[1..]) && Elements(SortDedup(s[1..])) == Elements(s[1..]);
      InsertNew(SortDedup(s[1..]), s[0]);
    }
  }

  /** The ascending listing of a set of hashes. */
  ghost function Sorted(s: set<Hash>): (r: seq<Hash>)
    ensures Ascending(r)
    ensures Elements(r) == s
  {
    if s == {} then []
    else
      var h :| h in s;
      InsertSorted(Sorted(s - {h}), h)
  }

  /** An ascending listing is determined by its elements. */
  lemma {:induction false} AscendingUnique(a: seq<Hash>, b: seq<Hash>)
    requires Ascending(a) && Ascending(b) && Elements(a) == Elements(b)
    ensures a == b
  {
    hide Ascending, Elements;
    ElementsEmpty(a);
    ElementsEmpty(b);
    if a != [] {
      AscendingTail(a);
      AscendingTail(b);
      assert a[0] == b[0];
      assert Elements(a[1..]) == Elements(a) - {a[0]};
      assert Elements(b[1..]) == Elements(b) - {b[0]};
      AscendingUnique(a[1..], b[1..]);
      assert a == [a[0]] + a[1..] && b == [b[0]] + b[1..];
    }
  }

  lemma SortDedupIsSorted(s: seq<Hash>)
    ensures SortDedup(s) == Sorted(Elements(s))
  {
    AscendingUnique(SortDedup(s), Sorted(Elements(s)));
  }
}
