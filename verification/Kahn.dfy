/** Kahn's algorithm over a bundle: parents before children, whatever the map iteration order. */
module Kahn {
  import opened Deltas
  import opened Histories
  import opened Dag

  type Degrees = map<Hash, nat>
  type Children = map<Hash, seq<Hash>>

  function Occurs(s: seq<Hash>, h: Hash): nat {
    multiset(s)[h]
  }

  lemma OccursInEmpty(h: Hash)
    ensures Occurs([], h) == 0
  {
    var none: seq<Hash> := [];
    assert multiset(none) == multiset{};
  }

  /** How many entries of `s` lie in `c`, counting repetitions. */
  function Count(s: seq<Hash>, c: set<Hash>): nat {
    if s == [] then 0 else Count(s[..|s| - 1], c) + if s[|s| - 1] in c then 1 else 0
  }

  lemma OccursAppend(s: seq<Hash>, x: Hash, h: Hash)
    ensures Occurs(s + [x], h) == Occurs(s, h) + if x == h then 1 else 0
  {
  }

  lemma CountAppend(s: seq<Hash>, x: Hash, c: set<Hash>)
    ensures Count(s + [x], c) == Count(s, c) + if x in c then 1 else 0
  {
    assert (s + [x])[..|s + [x]| - 1] == s;
  }

  /** Taking one hash out of the set lowers the count by its occurrences. */
  lemma {:induction false} CountWithout(s: seq<Hash>, c: set<Hash>, h: Hash)
    ensures h in c ==> Count(s, c) == Count(s, c - {h}) + Occurs(s, h)
  {
    if s != [] {
      var front, last := s[..|s| - 1], s[|s| - 1];
      SplitLast(s);
      CountWithout(front, c, h);
      OccursAppend(front, last, h);
    }
  }

  lemma {:induction false} CountIsZero(s: seq<Hash>, c: set<Hash>)
    ensures Count(s, c) == 0 <==> forall h :: h in s ==> h !in c
  {
    if s != [] {
      var front, last := s[..|s| - 1], s[|s| - 1];
      SplitLast(s);
      CountIsZero(front, c);
      assert forall h :: h in s <==> h in front || h == last;
    }
  }

  function ChildrenOf(m: Children, p: Hash): seq<Hash> {
    if p in m then m[p] else []
  }

  /** Degrees count in-bundle parents outside `done`, repetitions included. */
  ghost predicate DegreesAt(b: History, done: set<Hash>, indeg: Degrees) {
    indeg.Keys == b.Keys && forall c :: c in b ==> indeg[c] == Count(b[c].parents, b.Keys - done)
  }

  /** How often `c` should be listed under `p` once the deltas in `seen` are processed. */
  ghost function Due(b: History, seen: set<Hash>, p: Hash, c: Hash): nat {
    if c in seen && c in b && p in b then Occurs(b[c].parents, p) else 0
  }

  /** Each child is listed under a parent once per naming, for the children in `seen`. */
  ghost predicate Lists(b: History, seen: set<Hash>, children: Children) {
    forall p: Hash, c: Hash :: Occurs(ChildrenOf(children, p), c) == Due(b, seen, p, c)
  }

  /** Where the inner loop stands on one delta `h`, with the parents in `front` processed. */
  ghost function PartlyDue(b: History, seen: set<Hash>, h: Hash, front: seq<Hash>, p: Hash, c: Hash): nat {
    if c == h then (if p in b then Occurs(front, p) else 0) else Due(b, seen, p, c)
  }

  ghost predicate ListsPartly(b: History, seen: set<Hash>, h: Hash, front: seq<Hash>, children: Children) {
    forall p: Hash, c: Hash :: Occurs(ChildrenOf(children, p), c) == PartlyDue(b, seen, h, front, p, c)
  }

  lemma ListsStep(b: History, seen: set<Hash>, h: Hash, front: seq<Hash>, children: Children, p: Hash)
    requires ListsPartly(b, seen, h, front, children)
    ensures ListsPartly(b, seen, h, front + [p],
                        if p in b then children[p := ChildrenOf(children, p) + [h]] else children)
  {
    hide Occurs, Due;
    var next := if p in b then children[p := ChildrenOf(children, p) + [h]] else children;
    forall q: Hash, c: Hash ensures Occurs(ChildrenOf(next, q), c) == PartlyDue(b, seen, h, front + [p], q, c) {
      assert Occurs(ChildrenOf(children, q), c) == PartlyDue(b, seen, h, front, q, c);
      OccursAppend(front, p, q);
      OccursAppend(ChildrenOf(children, p), h, c);
    }
  }

  lemma ListsOpen(b: History, seen: set<Hash>, h: Hash, children: Children)
    requires Lists(b, seen, children) && h !in seen
    ensures ListsPartly(b, seen, h, [], children)
  {
    hide Occurs;
    forall p: Hash, c: Hash ensures Occurs(ChildrenOf(children, p), c) == PartlyDue(b, seen, h, [], p, c) {
      assert Occurs(ChildrenOf(children, p), c) == Due(b, seen, p, c);
      OccursInEmpty(p);
    }
  }

  lemma ListsClose(b: History, seen: set<Hash>, h: Hash, children: Children)
    requires h in b && h !in seen && ListsPartly(b, seen, h, b[h].parents, children)
    ensures Lists(b, seen + {h}, children)
  {
    hide Occurs;
    forall p: Hash, c: Hash ensures Occurs(ChildrenOf(children, p), c) == Due(b, seen + {h}, p, c) {
      assert Occurs(ChildrenOf(children, p), c) == PartlyDue(b, seen, h, b[h].parents, p, c);
    }
  }

  method CountParents(b: History, seen: set<Hash>, h: Hash, start: Children) returns (n: nat, children: Children)
    requires h in b && h !in seen && Lists(b, seen, start)
    ensures n == Count(b[h].parents, b.Keys)
    ensures Lists(b, seen + {h}, children)
  {
    hide Lists, ListsPartly, Count;
    var parents := b[h].parents;
    n, children := 0, start;
    ListsOpen(b, seen, h, children);
    CountIsZero([], b.Keys);
    for i := 0 to |parents|
      invariant n == Count(parents[..i], b.Keys)
      invariant ListsPartly(b, seen, h, parents[..i], children)
    {
      assert parents[..i + 1] == parents[..i] + [parents[i]];
      CountAppend(parents[..i], parents[i], b.Keys);
      ListsStep(b, seen, h, parents[..i], children, parents[i]);
      if parents[i] in b {
        n := n + 1;
        children := children[parents[i] := ChildrenOf(children, parents[i]) + [h]];
      }
    }
    assert parents[..|parents|] == parents;
    ListsClose(b, seen, h, children);
  }

  /** In-degrees and child lists of the whole bundle. */
  method BuildDegrees(b: History) returns (indeg: Degrees, children: Children)
    ensures DegreesAt(b, {}, indeg)
    ensures Lists(b, b.Keys, children)
  {
    hide Lists, Count;
    indeg, children := map[], map[];
    var rest := b.Keys;
    ListsNothing(b);
    while rest != {}
      invariant rest <= b.Keys
      invariant indeg.Keys == b.Keys - rest
      invariant forall c :: c in indeg ==> indeg[c] == Count(b[c].parents, b.Keys)
      invariant Lists(b, b.Keys - rest, children)
      decreases rest
    {
      var h :| h in rest;
      var n, more := CountParents(b, b.Keys - rest, h, children);
      indeg, children := indeg[h := n], more;
      assert (b.Keys - rest) + {h} == b.Keys - (rest - {h});
      rest := rest - {h};
    }
    assert b.Keys - rest == b.Keys;
    assert b.Keys - {} == b.Keys;
  }

  lemma ListsNothing(b: History)
    ensures Lists(b, b.Keys - b.Keys, map[])
  {
    forall p: Hash { OccursInEmpty(p); }
  }

  // ── the order as a function ─────────────────────────────────────────────────

  /** The bundle members `h` is the last awaited parent of. */
  function Unlocked(b: History, done: set<Hash>, h: Hash): set<Hash> {
    set c | c in b && h in b[c].parents && forall p :: p in b[c].parents && p in b ==> p in done || p == h
  }

  function Roots(b: History): set<Hash> {
    set c | c in b && forall p :: p in b[c].parents ==> p !in b
  }

  /** Every in-bundle parent of each member comes earlier. */
  ghost predicate ParentsFirst(b: History, order: seq<Hash>) {
    forall i, p :: 0 <= i < |order| && order[i] in b && p in b[order[i]].parents && p in b ==> p in order[..i]
  }

  /** The state of the algorithm: what is ready waits for nothing, everything else still waits. */
  ghost predicate Running(b: History, ready: seq<Hash>, done: seq<Hash>) {
    && Distinct(ready) && Distinct(done)
    && (forall h :: h in ready ==> h in b && h !in done)
    && (forall h :: h in done ==> h in b)
    && ParentsFirst(b, done)
    && (forall h :: h in b && h !in done ==> (h in ready <==> forall p :: p in b[h].parents && p in b ==> p in done))
  }

  lemma {:induction false} DistinctSize(s: seq<Hash>, c: set<Hash>)
    requires Distinct(s) && forall h :: h in s ==> h in c
    ensures |s| <= |c|
    ensures |s| == |c| ==> Elements(s) == c
  {
    if s != [] {
      var front, last := s[..|s| - 1], s[|s| - 1];
      SplitLast(s);
      assert forall h :: h in front ==> h in c - {last} by {
        assert forall h :: h in front ==> h in s && h != last;
      }
      DistinctSize(front, c - {last});
      ElementsAppend(front, last);
    }
  }

  /** Running the loop to its end. */
  ghost function Drain(b: History, ready: seq<Hash>, done: seq<Hash>): seq<Hash>
    requires Running(b, ready, done)
    decreases |b| - |done|
  {
    hide Running, Sorted, Unlocked, Elements;
    if ready == [] then done
    else
      var rest, h := ready[..|ready| - 1], ready[|ready| - 1];
      var next := rest + Sorted(Unlocked(b, Elements(done), h));
      SplitLast(ready);
      RunningStep(b, rest, h, done);
      RunningBound(b, next, done + [h]);
      Drain(b, next, done + [h])
  }

  lemma RunningBound(b: History, ready: seq<Hash>, done: seq<Hash>)
    requires Running(b, ready, done)
    ensures |done| <= |b|
    ensures |done| == |b| ==> Elements(done) == b.Keys
  {
    DistinctSize(done, b.Keys);
  }

  lemma AscendingDistinct(s: seq<Hash>)
    requires Ascending(s)
    ensures Distinct(s)
  {
  }

  lemma DistinctConcat(a: seq<Hash>, b: seq<Hash>)
    requires Distinct(a) && Distinct(b) && Elements(a) !! Elements(b)
    ensures Distinct(a + b)
  {
    assert forall i :: 0 <= i < |a| ==> a[i] in Elements(a);
    assert forall i :: 0 <= i < |b| ==> b[i] in Elements(b);
  }

  lemma ParentsFirstStep(b: History, done: seq<Hash>, h: Hash)
    requires ParentsFirst(b, done) && h in b && forall p :: p in b[h].parents && p in b ==> p in done
    ensures ParentsFirst(b, done + [h])
  {
    var more := done + [h];
    forall i, p | 0 <= i < |more| && more[i] in b && p in b[more[i]].parents && p in b ensures p in more[..i] {
      if i < |done| {
        assert more[..i] == done[..i] && more[i] == done[i];
      } else {
        assert more[..i] == done;
      }
    }
  }

  /** One pop keeps the state. */
  lemma RunningStep(b: History, rest: seq<Hash>, h: Hash, done: seq<Hash>)
    requires Running(b, rest + [h], done)
    ensures Running(b, rest + Sorted(Unlocked(b, Elements(done), h)), done + [h])
  {
    hide ParentsFirst, Distinct, Ascending, Sorted;
    var ready := rest + [h];
    var freed := Sorted(Unlocked(b, Elements(done), h));
    assert forall x :: x in freed <==> x in Unlocked(b, Elements(done), h) by {
      assert forall x :: x in freed <==> x in Elements(freed);
    }
    assert h in ready && h in b && h !in done;
    ReadyParts(rest, h);
    AscendingDistinct(freed);
    DistinctSnoc(done, h);
    ParentsFirstStep(b, done, h);
    FreshAreNew(b, rest, h, done);
    assert Elements(rest) !! Elements(freed) by {
      assert forall x :: x in rest ==> x in ready;
    }
    DistinctConcat(rest, freed);
    WaitingAfter(b, rest, h, done, freed);
  }

  lemma ReadyParts(rest: seq<Hash>, h: Hash)
    requires Distinct(rest + [h])
    ensures Distinct(rest) && h !in rest
  {
    var s := rest + [h];
    assert forall i :: 0 <= i < |rest| ==> s[i] == rest[i] && s[|rest|] == h;
  }

  lemma DistinctSnoc(done: seq<Hash>, h: Hash)
    requires Distinct(done) && h !in done
    ensures Distinct(done + [h])
  {
  }

  /** A newly unlocked hash was neither done nor ready. */
  lemma FreshAreNew(b: History, rest: seq<Hash>, h: Hash, done: seq<Hash>)
    requires Running(b, rest + [h], done)
    ensures forall c :: c in Unlocked(b, Elements(done), h) ==> c !in done && c !in rest && c != h
  {
    hide Distinct;
    assert h in rest + [h];
    forall c | c in Unlocked(b, Elements(done), h) ensures c !in done && c !in rest && c != h {
      assert c in rest || c == h ==> c in rest + [h];
    }
  }

  /** After popping `h`, ready is again exactly the set that waits for nothing. */
  lemma WaitingAfter(b: History, rest: seq<Hash>, h: Hash, done: seq<Hash>, freed: seq<Hash>)
    requires Running(b, rest + [h], done)
    requires forall x :: x in freed <==> x in Unlocked(b, Elements(done), h)
    requires h !in rest
    ensures forall x :: x in b && x !in done + [h] ==>
              (x in rest + freed <==> forall p :: p in b[x].parents && p in b ==> p in done + [h])
  {
    hide ParentsFirst, Distinct;
    forall x | x in b && x !in done + [h]
      ensures x in rest + freed <==> forall p :: p in b[x].parents && p in b ==> p in done + [h]
    {
      assert x !in done && x != h;
      assert x in rest <==> x in rest + [h];
      if x in freed {
        assert forall p :: p in b[x].parents && p in b ==> p in done || p == h;
      }
      if (forall p :: p in b[x].parents && p in b ==> p in done + [h]) && x !in rest {
        assert h in b[x].parents;
        assert x in Unlocked(b, Elements(done), h);
      }
    }
  }

  /** The order the algorithm commits to: a function of the bundle alone. */
  ghost function KahnOrder(b: History): seq<Hash> {
    RunningStart(b);
    Drain(b, Sorted(Roots(b)), [])
  }

  lemma RunningStart(b: History)
    ensures Running(b, Sorted(Roots(b)), [])
  {
    hide Sorted;
    AscendingDistinct(Sorted(Roots(b)));
    assert forall x :: x in Sorted(Roots(b)) <==> x in Elements(Sorted(Roots(b)));
  }

  // ── the algorithm ───────────────────────────────────────────────────────────

  /** Each listed child loses one awaited parent; those left with none are unlocked. */
  method Release(indeg: Degrees, cs: seq<Hash>) returns (after: Degrees, unlocked: seq<Hash>)
    requires forall c :: c in cs ==> c in indeg && Occurs(cs, c) <= indeg[c]
    ensures after.Keys == indeg.Keys
    ensures forall c :: c in indeg ==> Occurs(cs, c) <= indeg[c] && after[c] == indeg[c] - Occurs(cs, c)
    ensures Elements(unlocked) == set c | c in cs && after[c] == 0
    ensures Distinct(unlocked)
  {
    hide Occurs, Elements, Distinct;
    after, unlocked := indeg, [];
    OccursNone(cs, indeg);
    ElementsEmpty(unlocked);
    OccursNowhere();
    DistinctNone();
    for i := 0 to |cs|
      invariant after.Keys == indeg.Keys
      invariant forall c :: c in indeg ==> Occurs(cs[..i], c) <= Occurs(cs, c) <= indeg[c]
      invariant forall c :: c in indeg ==> after[c] == indeg[c] - Occurs(cs[..i], c)
      invariant Elements(unlocked) == set c | c in cs[..i] && after[c] == 0
      invariant Distinct(unlocked)
    {
      var c := cs[i];
      PrefixOccurs(cs, i);
      assert c in cs;
      after := after[c := after[c] - 1];
      if after[c] == 0 {
        ElementsAppend(unlocked, c);
        DistinctMore(unlocked, c);
        unlocked := unlocked + [c];
      }
    }
    assert cs[..|cs|] == cs;
  }

  lemma DistinctNone()
    ensures Distinct<Hash>([])
  {
  }

  lemma DistinctMore(s: seq<Hash>, h: Hash)
    requires Distinct(s) && h !in Elements(s)
    ensures Distinct(s + [h])
  {
    DistinctSnoc(s, h);
  }

  lemma OccursNowhere()
    ensures forall c: Hash :: Occurs([], c) == 0
  {
    forall c: Hash ensures Occurs([], c) == 0 {
      OccursInEmpty(c);
    }
  }

  lemma OccursNone(cs: seq<Hash>, indeg: Degrees)
    requires forall c :: c in cs ==> c in indeg && Occurs(cs, c) <= indeg[c]
    ensures forall c :: c in indeg ==> Occurs(cs, c) <= indeg[c]
  {
    forall c | c in indeg ensures Occurs(cs, c) <= indeg[c] {
      assert c !in cs ==> c !in multiset(cs);
    }
  }

  lemma PrefixOccurs(cs: seq<Hash>, i: nat)
    requires i < |cs|
    ensures cs[..i + 1] == cs[..i] + [cs[i]]
    ensures forall c :: Occurs(cs[..i + 1], c) == Occurs(cs[..i], c) + (if c == cs[i] then 1 else 0)
    ensures forall c :: Occurs(cs[..i + 1], c) <= Occurs(cs, c)
    ensures forall c :: c in cs[..i + 1] <==> c in cs[..i] || c == cs[i]
    ensures forall c :: c in cs[..i] <==> Occurs(cs[..i], c) > 0
  {
    assert cs == cs[..i + 1] + cs[i + 1..];
    assert cs[..i + 1] == cs[..i] + [cs[i]];
  }

  /** The children of `h` are listed once per naming, so releasing them is taking `h` out of the count. */
  lemma ReleaseDegrees(b: History, done: set<Hash>, h: Hash, indeg: Degrees, children: Children)
    requires Lists(b, b.Keys, children) && DegreesAt(b, done, indeg) && h in b && h !in done
    ensures forall c :: c in b ==>
              && Occurs(ChildrenOf(children, h), c) <= indeg[c]
              && indeg[c] - Occurs(ChildrenOf(children, h), c) == Count(b[c].parents, b.Keys - (done + {h}))
    ensures forall c :: c in ChildrenOf(children, h) <==> c in b && h in b[c].parents
  {
    hide Count, Occurs;
    var cs := ChildrenOf(children, h);
    forall c | c in b
      ensures Occurs(cs, c) <= indeg[c] && indeg[c] - Occurs(cs, c) == Count(b[c].parents, b.Keys - (done + {h}))
    {
      assert Occurs(cs, c) == Due(b, b.Keys, h, c);
      CountWithout(b[c].parents, b.Keys - done, h);
      assert (b.Keys - done) - {h} == b.Keys - (done + {h});
    }
    forall c: Hash ensures c in cs <==> c in b && h in b[c].parents {
      assert Occurs(cs, c) == Due(b, b.Keys, h, c);
      OccursIsMember(cs, c);
      if c in b {
        OccursIsMember(b[c].parents, h);
      }
    }
  }

  lemma OccursIsMember(s: seq<Hash>, h: Hash)
    ensures Occurs(s, h) > 0 <==> h in s
  {
  }

  lemma UnlockedAreFree(b: History, done: set<Hash>, h: Hash)
    ensures Unlocked(b, done, h) == set c | c in b && h in b[c].parents
            && Count(b[c].parents, b.Keys - (done + {h})) == 0
  {
    hide Count;
    forall c | c in b ensures Count(b[c].parents, b.Keys - (done + {h})) == 0 <==>
                              forall p :: p in b[c].parents && p in b ==> p in done || p == h
    {
      CountIsZero(b[c].parents, b.Keys - (done + {h}));
    }
  }

  lemma RootsAreFree(b: History, indeg: Degrees)
    requires DegreesAt(b, {}, indeg)
    ensures Roots(b) == set c | c in indeg && indeg[c] == 0
  {
    hide Count;
    forall c | c in b ensures indeg[c] == 0 <==> forall p :: p in b[c].parents ==> p !in b {
      CountIsZero(b[c].parents, b.Keys - {});
    }
  }

  /** One turn of the loop: pop, release, push what was unlocked. */
  method Pop(b: History, ghost done: set<Hash>, h: Hash, indeg: Degrees, children: Children)
    returns (after: Degrees, unlocked: seq<Hash>)
    requires Lists(b, b.Keys, children) && DegreesAt(b, done, indeg) && h in b && h !in done
    ensures DegreesAt(b, done + {h}, after)
    ensures unlocked == Sorted(Unlocked(b, done, h))
  {
    hide Lists, Count, Occurs, Sorted, Unlocked;
    ReleaseDegrees(b, done, h, indeg, children);
    var cs := ChildrenOf(children, h);
    var free;
    after, free := Release(indeg, cs);
    UnlockedAreFree(b, done, h);
    assert Elements(free) == Unlocked(b, done, h) by {
      forall c ensures c in Elements(free) <==> c in Unlocked(b, done, h) {
        assert c in Elements(free) <==> c in cs && after[c] == 0;
      }
    }
    SortOfDistinct(free);
    SortDedupIsSorted(free);
    unlocked := Sort(free);
  }

  /** Topologically order a bundle, or report that it has a parent cycle. */
  method TopoOrder(b: History) returns (r: Option<seq<Hash>>)
    ensures r == if |KahnOrder(b)| == |b| then Some(KahnOrder(b)) else None
  {
    hide Lists, DegreesAt, Running, Sorted, Unlocked, Roots;
    var indeg, children := BuildDegrees(b);
    RunningStart(b);
    DegreesKeys(b, {}, indeg);
    RootsAreFree(b, indeg);
    var roots := set h | h in indeg && indeg[h] == 0;
    assert roots == Roots(b);
    var ready := SortSet(roots);
    var order: seq<Hash> := [];
    assert Elements(order) == {};
    while ready != []
      invariant Running(b, ready, order)
      invariant DegreesAt(b, Elements(order), indeg)
      invariant Drain(b, ready, order) == KahnOrder(b)
      decreases |b| - |order|
    {
      var rest, h := ready[..|ready| - 1], ready[|ready| - 1];
      SplitLast(ready);
      RunningStep(b, rest, h, order);
      ReadyIsNew(b, ready, order, h);
      var unlocked;
      indeg, unlocked := Pop(b, Elements(order), h, indeg, children);
      ElementsAppend(order, h);
      RunningBound(b, rest + unlocked, order + [h]);
      ready, order := rest + unlocked, order + [h];
    }
    r := if |order| == |b| then Some(order) else None;
  }

  lemma DegreesKeys(b: History, done: set<Hash>, indeg: Degrees)
    requires DegreesAt(b, done, indeg)
    ensures indeg.Keys == b.Keys
  {
  }

  lemma ReadyIsNew(b: History, ready: seq<Hash>, done: seq<Hash>, h: Hash)
    requires Running(b, ready, done) && h in ready
    ensures h in b && h !in Elements(done)
  {
  }

  // ── what the order means ────────────────────────────────────────────────────

  /** Each bundle hash once, every in-bundle parent earlier. */
  ghost predicate TopologicalOrder(b: History, order: seq<Hash>) {
    Distinct(order) && Elements(order) == b.Keys && ParentsFirst(b, order)
  }

  /** A non-empty set in which every member has a parent in the set: a cycle. */
  ghost predicate Stuck(b: History, c: set<Hash>) {
    c != {} && c <= b.Keys && forall h :: h in c ==> Waits(b, h, c)
  }

  ghost predicate Waits(b: History, h: Hash, c: set<Hash>)
    requires h in b
  {
    exists p :: p in b[h].parents && p in c
  }

  lemma {:induction false} DrainEnds(b: History, ready: seq<Hash>, done: seq<Hash>)
    requires Running(b, ready, done)
    ensures Running(b, [], Drain(b, ready, done))
    decreases |b| - |done|
  {
    hide Running, Sorted, Unlocked;
    if ready != [] {
      var rest, h := ready[..|ready| - 1], ready[|ready| - 1];
      SplitLast(ready);
      RunningStep(b, rest, h, done);
      var next := rest + Sorted(Unlocked(b, Elements(done), h));
      RunningBound(b, next, done + [h]);
      DrainEnds(b, next, done + [h]);
    }
  }

  /** What is left over when nothing is ready waits on what is left over. */
  lemma LeftoverIsStuck(b: History, done: seq<Hash>)
    requires Running(b, [], done) && Elements(done) != b.Keys
    ensures Stuck(b, b.Keys - Elements(done))
  {
    hide ParentsFirst, Distinct;
    var left := b.Keys - Elements(done);
    assert Elements(done) <= b.Keys;
    var h :| h in b.Keys && h !in Elements(done);
    assert h in left;
    forall k | k in left ensures Waits(b, k, left) {
      LeftoverWaits(b, done, k);
    }
  }

  lemma LeftoverWaits(b: History, done: seq<Hash>, h: Hash)
    requires Running(b, [], done) && h in b && h !in Elements(done)
    ensures Waits(b, h, b.Keys - Elements(done))
  {
    hide ParentsFirst, Distinct;
    assert h !in done;
    var p :| p in b[h].parents && p in b && p !in done;
    assert p in b.Keys - Elements(done);
  }

  lemma {:induction false} StuckNeverDone(b: History, done: seq<Hash>, c: set<Hash>, i: nat)
    requires ParentsFirst(b, done) && Stuck(b, c) && i < |done|
    ensures done[i] !in c
  {
    hide ParentsFirst;
    forall j | 0 <= j < i ensures done[j] !in c {
      StuckNeverDone(b, done, c, j);
    }
    if done[i] in c {
      EarlierInCycle(b, done, c, i);
    }
  }

  lemma EarlierInCycle(b: History, done: seq<Hash>, c: set<Hash>, i: nat)
    requires ParentsFirst(b, done) && Stuck(b, c) && i < |done| && done[i] in c
    ensures exists j :: 0 <= j < i && done[j] in c
  {
    assert Waits(b, done[i], c);
    var p :| p in b[done[i]].parents && p in c;
    assert p in done[..i];
    var j :| 0 <= j < i && done[j] == p;
  }

  /** Success is a topological order, failure is a cycle, and a cycle always fails. */
  lemma KahnIsCorrect(b: History)
    ensures |KahnOrder(b)| == |b| ==> TopologicalOrder(b, KahnOrder(b))
    ensures |KahnOrder(b)| != |b| ==> Stuck(b, b.Keys - Elements(KahnOrder(b)))
    ensures |KahnOrder(b)| == |b| <==> !exists c :: Stuck(b, c)
  {
    hide Stuck;
    RunningStart(b);
    DrainEnds(b, Sorted(Roots(b)), []);
    var order := KahnOrder(b);
    RunningBound(b, [], order);
    if Elements(order) != b.Keys {
      LeftoverIsStuck(b, order);
    } else {
      AllDone(b, order);
      forall c ensures !Stuck(b, c) {
        if Stuck(b, c) {
          CycleFails(b, order, c);
        }
      }
    }
  }

  lemma AllDone(b: History, order: seq<Hash>)
    requires Distinct(order) && Elements(order) == b.Keys
    ensures |order| == |b|
  {
    DistinctCount(order);
  }

  lemma {:induction false} DistinctCount(s: seq<Hash>)
    requires Distinct(s)
    ensures |Elements(s)| == |s|
  {
    if s != [] {
      var front, last := s[..|s| - 1], s[|s| - 1];
      SplitLast(s);
      DistinctCount(front);
      ElementsAppend(front, last);
      assert last !in Elements(front);
    }
  }

  lemma CycleFails(b: History, order: seq<Hash>, c: set<Hash>)
    requires ParentsFirst(b, order) && Stuck(b, c)
    ensures Elements(order) != b.Keys
  {
    hide ParentsFirst;
    var h :| h in c;
    forall i | 0 <= i < |order| ensures order[i] !in c {
      StuckNeverDone(b, order, c, i);
    }
    assert h !in Elements(order);
  }

  // ── which of the topological orders it is ───────────────────────────────────

  /** What is done stays in front, and what lies on top of the ready stack comes next. */
  lemma {:induction false} DrainStarts(b: History, ready: seq<Hash>, done: seq<Hash>)
    requires Running(b, ready, done)
    ensures var order := Drain(b, ready, done);
            && |done| <= |order| && order[..|done|] == done
            && (ready != [] ==> |done| < |order| && order[|done|] == ready[|ready| - 1])
    decreases |b| - |done|
  {
    hide Running, Sorted, Unlocked, Elements;
    if ready != [] {
      var rest, h := ready[..|ready| - 1], ready[|ready| - 1];
      SplitLast(ready);
      RunningStep(b, rest, h, done);
      var next := rest + Sorted(Unlocked(b, Elements(done), h));
      RunningBound(b, next, done + [h]);
      DrainStarts(b, next, done + [h]);
      var order := Drain(b, next, done + [h]);
      assert order[..|done| + 1] == done + [h];
      assert order[..|done|] == order[..|done| + 1][..|done|];
      assert order[|done|] == order[..|done| + 1][|done|];
    }
  }

  ghost predicate IsGreatestOf(s: set<Hash>, h: Hash) {
    h in s && forall k :: k in s ==> k <= h
  }

  lemma LastIsGreatest(s: set<Hash>)
    requires s != {}
    ensures Sorted(s) != [] && IsGreatestOf(s, Sorted(s)[|Sorted(s)| - 1])
  {
    hide Sorted;
    var r := Sorted(s);
    ElementsEmpty(r);
    assert r[|r| - 1] in Elements(r);
    forall k | k in Elements(r) ensures k <= r[|r| - 1] {
      var i :| 0 <= i < |r| && r[i] == k;
    }
  }

  lemma {:induction false} DrainGoesDeep(b: History, ready: seq<Hash>, done: seq<Hash>, i: nat)
    requires Running(b, ready, done) && |done| <= i < |Drain(b, ready, done)|
    requires Unlocked(b, Elements(Drain(b, ready, done)[..i]), Drain(b, ready, done)[i]) != {}
    ensures var order := Drain(b, ready, done);
            i + 1 < |order| && IsGreatestOf(Unlocked(b, Elements(order[..i]), order[i]), order[i + 1])
    decreases |b| - |done|
  {
    hide Running, Sorted, Unlocked, Elements, IsGreatestOf;
    DrainStarts(b, ready, done);
    if ready != [] {
      var rest, h := ready[..|ready| - 1], ready[|ready| - 1];
      SplitLast(ready);
      RunningStep(b, rest, h, done);
      var freed := Unlocked(b, Elements(done), h);
      var next := rest + Sorted(freed);
      RunningBound(b, next, done + [h]);
      DrainStarts(b, next, done + [h]);
      if i == |done| {
        LastIsGreatest(freed);
        assert next[|next| - 1] == Sorted(freed)[|Sorted(freed)| - 1];
      } else {
        DrainGoesDeep(b, next, done + [h], i);
      }
    }
  }

  /**
   * The order starts with the greatest root, and goes on with the greatest of what the last hash unlocked, if anything.
   */
  lemma OrderIsDepthFirst(b: History, i: nat)
    requires i < |KahnOrder(b)|
    ensures var order := KahnOrder(b);
            && (i == 0 ==> IsGreatestOf(Roots(b), order[0]))
            && (Unlocked(b, Elements(order[..i]), order[i]) != {} ==>
                  i + 1 < |order| && IsGreatestOf(Unlocked(b, Elements(order[..i]), order[i]), order[i + 1]))
  {
    hide Running, Sorted, Unlocked, Elements, IsGreatestOf, Drain, Roots;
    RunningStart(b);
    var ready := Sorted(Roots(b));
    DrainStarts(b, ready, []);
    if i == 0 {
      FirstRoot(b);
    }
    if Unlocked(b, Elements(KahnOrder(b)[..i]), KahnOrder(b)[i]) != {} {
      DrainGoesDeep(b, ready, [], i);
    }
  }

  lemma FirstRoot(b: History)
    requires KahnOrder(b) != []
    ensures IsGreatestOf(Roots(b), KahnOrder(b)[0])
  {
    hide Running, Unlocked, Elements, IsGreatestOf, Roots, Sorted;
    RunningStart(b);
    DrainStarts(b, Sorted(Roots(b)), []);
    assert Sorted(Roots(b)) != [];
    ElementsEmpty(Sorted(Roots(b)));
    LastIsGreatest(Roots(b));
  }
}
