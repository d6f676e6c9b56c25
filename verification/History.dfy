/** Histories of deltas and the causal past of a set of hashes. */
module Histories {
  import opened Deltas

  /** A hash-indexed set of deltas. */
  type History = map<Hash, Delta>

  ghost predicate WellIndexed(s: History) {
    forall h :: h in s ==> s[h].hash == h
  }

  ghost predicate Extends(s: History, t: History) {
    forall h :: h in s ==> h in t && t[h] == s[h]
  }

  /** Two histories never disagree about the delta behind a hash. */
  ghost predicate Agree(s: History, t: History) {
    forall h :: h in s && h in t ==> s[h] == t[h]
  }

  lemma PartAt(s: History, t: History, h: Hash)
    requires Extends(s, t) && h in s
    ensures h in t && t[h] == s[h]
  {
  }

  lemma ExtendsThrough(s: History, t: History, u: History)
    requires Extends(s, t) && Extends(t, u)
    ensures Extends(s, u)
  {
  }

  /** Every hash some held delta names as a parent. */
  function Referenced(s: History): set<Hash> {
    set h, p | h in s && p in s[h].parents :: p
  }

  function Frontier(s: History): set<Hash> {
    s.Keys - Referenced(s)
  }

  ghost predicate AncestorClosed(s: History) {
    forall h, p :: h in s && p in s[h].parents ==> p in s
  }

  /** `c` contains the parents of each of its held members. */
  ghost predicate Closed(s: History, c: set<Hash>) {
    forall h, p :: h in c && h in s && p in s[h].parents ==> p in c
  }

  /** The parents of the held members of `c`. */
  ghost function Named(s: History, c: set<Hash>): set<Hash> {
    set h, p | h in c && h in s && p in s[h].parents :: p
  }

  /** What is reachable from `from` along parent links: add parents until nothing is new. */
  ghost function Past(s: History, from: set<Hash>): set<Hash>
    decreases Referenced(s) - from
  {
    if Named(s, from) <= from then from else
      NamedIsReferenced(s, from);
      Past(s, from + Named(s, from))
  }

  lemma NamedIsReferenced(s: History, c: set<Hash>)
    ensures Named(s, c) <= Referenced(s)
  {
  }

  ghost predicate Complete(s: History, from: set<Hash>) {
    Past(s, from) <= s.Keys
  }

  lemma {:induction false} PastIsClosed(s: History, from: set<Hash>)
    ensures from <= Past(s, from)
    ensures Closed(s, Past(s, from))
    decreases Referenced(s) - from
  {
    NamedIsReferenced(s, from);
    if !(Named(s, from) <= from) {
      PastIsClosed(s, from + Named(s, from));
    }
  }

  /** No smaller closed set will do. */
  lemma {:induction false} PastIsLeast(s: History, from: set<Hash>, c: set<Hash>)
    requires Closed(s, c) && from <= c
    ensures Past(s, from) <= c
    decreases Referenced(s) - from
  {
    NamedIsReferenced(s, from);
    if !(Named(s, from) <= from) {
      PastIsLeast(s, from + Named(s, from), c);
    }
  }

  ghost predicate Link(s: History, w: seq<Hash>, i: nat)
    requires i < |w| - 1
  {
    w[i] in s && w[i + 1] in s[w[i]].parents
  }

  /** A walk along parent links, starting inside `from`. */
  ghost predicate Walk(s: History, from: set<Hash>, w: seq<Hash>) {
    && |w| > 0
    && w[0] in from
    && forall i :: 0 <= i < |w| - 1 ==> Link(s, w, i)
  }

  lemma {:induction false} WalkStaysInPast(s: History, from: set<Hash>, w: seq<Hash>)
    requires Walk(s, from, w)
    ensures w[|w| - 1] in Past(s, from)
  {
    PastIsClosed(s, from);
    if |w| > 1 {
      var front := w[..|w| - 1];
      forall i | 0 <= i < |front| - 1 ensures Link(s, front, i) {
        assert Link(s, w, i);
      }
      WalkStaysInPast(s, from, front);
      assert Link(s, w, |w| - 2);
    }
  }

  ghost predicate WalksTo(s: History, from: set<Hash>, h: Hash) {
    exists w :: Walk(s, from, w) && w[|w| - 1] == h
  }

  lemma WalkExtends(s: History, from: set<Hash>, h: Hash, p: Hash)
    requires WalksTo(s, from, h) && h in s && p in s[h].parents
    ensures WalksTo(s, from, p)
  {
    var w :| Walk(s, from, w) && w[|w| - 1] == h;
    var longer := w + [p];
    forall i | 0 <= i < |longer| - 1 ensures Link(s, longer, i) {
      assert i < |w| - 1 ==> Link(s, w, i);
    }
    assert Walk(s, from, longer) && longer[|longer| - 1] == p;
  }

  /** The past is exactly what walks reach. */
  lemma PastIsWalks(s: History, from: set<Hash>, h: Hash)
    ensures h in Past(s, from) <==> WalksTo(s, from, h)
  {
    if WalksTo(s, from, h) {
      var w :| Walk(s, from, w) && w[|w| - 1] == h;
      WalkStaysInPast(s, from, w);
    }
    if h in Past(s, from) {
      var reached := set x | x in from + Referenced(s) && WalksTo(s, from, x);
      forall x | x in from ensures x in reached {
        assert Walk(s, from, [x]) && [x][|[x]| - 1] == x;
      }
      forall x, p | x in reached && x in s && p in s[x].parents ensures p in reached {
        WalkExtends(s, from, x, p);
      }
      PastIsLeast(s, from, reached);
    }
  }

  /** Growth only adds to a past, and a complete past is fixed. */
  lemma PastGrows(s: History, t: History, from: set<Hash>)
    requires Extends(s, t)
    ensures Past(s, from) <= Past(t, from)
    ensures Complete(s, from) ==> Past(t, from) == Past(s, from)
  {
    PastIsClosed(t, from);
    PastIsLeast(s, from, Past(t, from));
    if Complete(s, from) {
      PastIsClosed(s, from);
      PastIsLeast(t, from, Past(s, from));
    }
  }

  lemma PastMonotone(s: History, from: set<Hash>, more: set<Hash>)
    requires from <= more
    ensures Past(s, from) <= Past(s, more)
  {
    PastIsClosed(s, more);
    PastIsLeast(s, from, Past(s, more));
  }

  lemma HeldPastIsComplete(s: History, from: set<Hash>)
    requires AncestorClosed(s) && from <= s.Keys
    ensures Complete(s, from)
  {
    PastIsLeast(s, from, s.Keys);
  }

  /** The past of a member of a past lies inside it. */
  lemma PastIsTransitive(s: History, from: set<Hash>, h: Hash)
    requires h in Past(s, from) && h in s
    ensures Past(s, Elements(s[h].parents)) <= Past(s, from)
  {
    PastIsClosed(s, from);
    PastIsLeast(s, Elements(s[h].parents), Past(s, from));
  }

  /** Ancestor-closed histories that agree give a shared delta one and the same past. */
  lemma PastIsShared(s: History, t: History, from: set<Hash>)
    requires AncestorClosed(s) && AncestorClosed(t) && Agree(s, t)
    requires from <= s.Keys && from <= t.Keys
    ensures Past(s, from) == Past(t, from)
    ensures Past(s, from) <= s.Keys * t.Keys
  {
    HeldPastIsComplete(s, from);
    HeldPastIsComplete(t, from);
    PastIsClosed(s, from);
    PastIsClosed(t, from);
    var both := Past(s, from) * Past(t, from);
    PastIsLeast(s, from, both);
    PastIsLeast(t, from, both);
  }

  /** Agreeing ancestor-closed histories have an ancestor-closed union. */
  lemma UnionIsClosed(s: History, t: History)
    requires AncestorClosed(s) && AncestorClosed(t) && Agree(s, t)
    ensures AncestorClosed(s + t)
    ensures Extends(s, s + t) && Extends(t, s + t)
  {
  }
}
