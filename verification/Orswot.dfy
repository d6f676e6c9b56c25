/** The add-wins observed-remove set of service endpoints, with a compact version vector. */
module Orswots {
  import opened Deltas

  type Dot = Stamp

  datatype Orswot = Orswot(live: map<Dot, ServiceEntry>, context: map<nat, Dot>)

  const EMPTY := Orswot(map[], map[])

  /** The context has witnessed `dot`, hence every earlier dot of the same node. */
  predicate Seen(context: map<nat, Dot>, dot: Dot) {
    dot.node in context && !Before(context[dot.node], dot)
  }

  function Observe(context: map<nat, Dot>, dot: Dot): map<nat, Dot> {
    if Seen(context, dot) then context else context[dot.node := dot]
  }

  function ObserveAll(context: map<nat, Dot>, dots: seq<Dot>): map<nat, Dot> {
    if dots == [] then context else Observe(ObserveAll(context, dots[..|dots| - 1]), dots[|dots| - 1])
  }

  function Add(s: Orswot, entry: ServiceEntry, dot: Dot): Orswot {
    Orswot(s.live[dot := entry], Observe(s.context, dot))
  }

  function Remove(s: Orswot, dots: seq<Dot>, stamp: Dot): Orswot {
    Orswot(s.live - (set d | d in dots), ObserveAll(Observe(s.context, stamp), dots))
  }

  /** `dot` is live on the `a` side and not seen-and-removed on the `b` side. */
  predicate Kept(a: Orswot, b: Orswot, dot: Dot) {
    dot in a.live && (dot in b.live || !Seen(b.context, dot))
  }

  function Later(a: map<nat, Dot>, b: map<nat, Dot>, n: nat): Dot
    requires n in a || n in b
  {
    if n !in a then b[n] else if n !in b || !Before(a[n], b[n]) then a[n] else b[n]
  }

  function JoinContext(a: map<nat, Dot>, b: map<nat, Dot>): map<nat, Dot> {
    map n | n in a.Keys + b.Keys :: Later(a, b, n)
  }

  function JoinLive(a: Orswot, b: Orswot): map<Dot, ServiceEntry> {
    map dot | dot in a.live.Keys + b.live.Keys && (Kept(a, b, dot) || Kept(b, a, dot))
      :: if Kept(b, a, dot) then b.live[dot] else a.live[dot]
  }

  function Join(a: Orswot, b: Orswot): Orswot {
    Orswot(JoinLive(a, b), JoinContext(a.context, b.context))
  }

  predicate OwnDots(context: map<nat, Dot>) {
    forall n :: n in context ==> context[n].node == n
  }

  /** Every live dot has been witnessed. */
  predicate Witnessed(s: Orswot) {
    OwnDots(s.context) && forall dot :: dot in s.live ==> Seen(s.context, dot)
  }

  ghost predicate Removed(s: Orswot, dot: Dot) {
    Seen(s.context, dot) && dot !in s.live
  }

  /** A dot names one add event, so two states never disagree on its entry. */
  ghost predicate AgreeOnDots(a: Orswot, b: Orswot) {
    forall dot :: dot in a.live && dot in b.live ==> a.live[dot] == b.live[dot]
  }

  lemma SeenJoin(a: map<nat, Dot>, b: map<nat, Dot>, dot: Dot)
    ensures Seen(JoinContext(a, b), dot) <==> Seen(a, dot) || Seen(b, dot)
  {
  }

  /** The join is the union of what was seen and of what was removed. */
  lemma JoinIsUnion(a: Orswot, b: Orswot, dot: Dot)
    ensures Seen(Join(a, b).context, dot) <==> Seen(a.context, dot) || Seen(b.context, dot)
    ensures Removed(Join(a, b), dot) <==> Removed(a, dot) || Removed(b, dot)
    ensures dot in Join(a, b).live <==>
              (dot in a.live || dot in b.live) && !Removed(a, dot) && !Removed(b, dot)
  {
    hide JoinContext, Seen;
    SeenJoin(a.context, b.context, dot);
  }

  lemma JoinEntry(a: Orswot, b: Orswot, dot: Dot)
    requires AgreeOnDots(a, b) && dot in Join(a, b).live
    ensures dot in a.live ==> Join(a, b).live[dot] == a.live[dot]
    ensures dot in b.live ==> Join(a, b).live[dot] == b.live[dot]
  {
  }

  lemma JoinWitnessed(a: Orswot, b: Orswot)
    requires Witnessed(a) && Witnessed(b)
    ensures Witnessed(Join(a, b))
  {
    var j := Join(a, b);
    assert OwnDots(j.context);
    forall dot | dot in j.live ensures Seen(j.context, dot) {
      JoinIsUnion(a, b, dot);
    }
  }

  lemma SeenDetermines(a: map<nat, Dot>, b: map<nat, Dot>)
    requires OwnDots(a) && OwnDots(b)
    requires forall dot :: Seen(a, dot) <==> Seen(b, dot)
    ensures a == b
  {
    forall n | n in a || n in b ensures n in a && n in b && a[n] == b[n] {
      if n in a {
        assert Seen(a, a[n]);
      }
      if n in b {
        assert Seen(b, b[n]);
      }
    }
  }

  lemma ContextCommutes(a: map<nat, Dot>, b: map<nat, Dot>)
    ensures JoinContext(a, b) == JoinContext(b, a)
  {
  }

  lemma ContextAssociates(a: map<nat, Dot>, b: map<nat, Dot>, c: map<nat, Dot>)
    ensures JoinContext(JoinContext(a, b), c) == JoinContext(a, JoinContext(b, c))
  {
    var left, right := JoinContext(JoinContext(a, b), c), JoinContext(a, JoinContext(b, c));
    assert left.Keys == right.Keys;
    forall n | n in left ensures left[n] == right[n] {
    }
  }

  /** The join commutes exactly when the two sides agree on the entries of the dots both hold live. */
  lemma JoinCommutesIff(a: Orswot, b: Orswot)
    ensures Join(a, b) == Join(b, a) <==> AgreeOnDots(a, b)
  {
    hide JoinContext, Seen;
    ContextCommutes(a.context, b.context);
    if Join(a, b) == Join(b, a) {
      forall dot | dot in a.live && dot in b.live ensures a.live[dot] == b.live[dot] {
        assert Join(a, b).live[dot] == b.live[dot] && Join(b, a).live[dot] == a.live[dot];
      }
    }
    if AgreeOnDots(a, b) {
      assert JoinLive(a, b).Keys == JoinLive(b, a).Keys;
    }
  }

  lemma JoinIdempotent(a: Orswot)
    ensures Join(a, a) == a
  {
  }

  lemma JoinAgrees(a: Orswot, b: Orswot, c: Orswot)
    requires AgreeOnDots(a, b) && AgreeOnDots(a, c) && AgreeOnDots(b, c)
    ensures AgreeOnDots(Join(a, b), c) && AgreeOnDots(c, Join(a, b))
  {
    forall dot | dot in Join(a, b).live && dot in c.live ensures Join(a, b).live[dot] == c.live[dot] {
      JoinEntry(a, b, dot);
    }
  }

  /** The join associates whenever the three sides agree on dots, witnessed or not. */
  lemma JoinAssociates(a: Orswot, b: Orswot, c: Orswot)
    requires AgreeOnDots(a, b) && AgreeOnDots(a, c) && AgreeOnDots(b, c)
    ensures Join(Join(a, b), c) == Join(a, Join(b, c))
  {
    hide JoinLive, JoinContext, Seen, Removed, AgreeOnDots;
    ContextAssociates(a.context, b.context, c.context);
    JoinAgrees(a, b, c);
    JoinAgreesRight(a, b, c);
    var left, right := Join(Join(a, b), c), Join(a, Join(b, c));
    forall dot ensures dot in left.live <==> dot in right.live {
      JoinIsUnion(a, b, dot);
      JoinIsUnion(b, c, dot);
      JoinIsUnion(Join(a, b), c, dot);
      JoinIsUnion(a, Join(b, c), dot);
    }
    RegroupAgrees(a, b, c);
    SameLive(left, right);
  }

  lemma SameLive(s: Orswot, t: Orswot)
    requires AgreeOnDots(s, t) && forall dot :: dot in s.live <==> dot in t.live
    ensures s.live == t.live
  {
  }

  lemma JoinAgreesRight(a: Orswot, b: Orswot, c: Orswot)
    requires AgreeOnDots(a, b) && AgreeOnDots(a, c) && AgreeOnDots(b, c)
    ensures AgreeOnDots(a, Join(b, c)) && AgreeOnDots(Join(b, c), a)
  {
    forall dot | dot in Join(b, c).live && dot in a.live ensures Join(b, c).live[dot] == a.live[dot] {
      JoinEntry(b, c, dot);
    }
  }

  lemma RegroupAgrees(a: Orswot, b: Orswot, c: Orswot)
    requires AgreeOnDots(a, b) && AgreeOnDots(a, c) && AgreeOnDots(b, c)
    requires AgreeOnDots(Join(a, b), c) && AgreeOnDots(a, Join(b, c))
    ensures AgreeOnDots(Join(Join(a, b), c), Join(a, Join(b, c)))
  {
    var left, right := Join(Join(a, b), c), Join(a, Join(b, c));
    forall dot | dot in left.live && dot in right.live ensures left.live[dot] == right.live[dot] {
      JoinSource(Join(a, b), c, dot);
      JoinSource(a, Join(b, c), dot);
      if dot in Join(a, b).live {
        JoinSource(a, b, dot);
        JoinEntry(a, b, dot);
      }
      if dot in Join(b, c).live {
        JoinSource(b, c, dot);
        JoinEntry(b, c, dot);
      }
      JoinEntry(Join(a, b), c, dot);
      JoinEntry(a, Join(b, c), dot);
    }
  }

  lemma JoinSource(a: Orswot, b: Orswot, dot: Dot)
    requires dot in Join(a, b).live
    ensures (dot in a.live && Join(a, b).live[dot] == a.live[dot])
            || (dot in b.live && Join(a, b).live[dot] == b.live[dot])
  {
  }

  /** Information order: more seen, and everything removed stays removed. */
  ghost predicate Below(s: Orswot, t: Orswot) {
    forall dot :: (Seen(s.context, dot) ==> Seen(t.context, dot)) && (Removed(s, dot) ==> Removed(t, dot))
  }

  /** The join is the least upper bound. */
  lemma JoinIsLeast(a: Orswot, b: Orswot, c: Orswot)
    ensures Below(a, Join(a, b)) && Below(b, Join(a, b))
    ensures Below(a, c) && Below(b, c) ==> Below(Join(a, b), c)
  {
    hide Join, Seen, Removed;
    forall dot {
      JoinIsUnion(a, b, dot);
    }
  }

  lemma SeenObserve(context: map<nat, Dot>, dot: Dot, other: Dot)
    ensures Seen(Observe(context, dot), other) <==>
              Seen(context, other) || (other.node == dot.node && !Before(dot, other))
    ensures OwnDots(context) ==> OwnDots(Observe(context, dot))
  {
  }

  lemma {:induction false} SeenObserveAll(context: map<nat, Dot>, dots: seq<Dot>, other: Dot)
    requires Seen(context, other)
    ensures Seen(ObserveAll(context, dots), other)
  {
    if dots != [] {
      SeenObserveAll(context, dots[..|dots| - 1], other);
      SeenObserve(ObserveAll(context, dots[..|dots| - 1]), dots[|dots| - 1], other);
    }
  }

  lemma {:induction false} ObserveAllOwns(context: map<nat, Dot>, dots: seq<Dot>)
    requires OwnDots(context)
    ensures OwnDots(ObserveAll(context, dots))
  {
    if dots != [] {
      ObserveAllOwns(context, dots[..|dots| - 1]);
    }
  }

  lemma AddWitnessed(s: Orswot, entry: ServiceEntry, dot: Dot)
    requires Witnessed(s)
    ensures Witnessed(Add(s, entry, dot))
  {
    forall other { SeenObserve(s.context, dot, other); }
  }

  lemma RemoveWitnessed(s: Orswot, dots: seq<Dot>, stamp: Dot)
    requires Witnessed(s)
    ensures Witnessed(Remove(s, dots, stamp))
    ensures forall dot :: dot in dots ==> dot !in Remove(s, dots, stamp).live
  {
    hide Seen, Observe;
    var observed := Observe(s.context, stamp);
    SeenObserve(s.context, stamp, stamp);
    ObserveAllOwns(observed, dots);
    forall dot | dot in Remove(s, dots, stamp).live ensures Seen(ObserveAll(observed, dots), dot) {
      SeenObserve(s.context, stamp, dot);
      SeenObserveAll(observed, dots, dot);
    }
  }

  // ── adds on shared dots ─────────────────────────────────────────────────────

  type Placement = (Dot, ServiceEntry)

  /** What adding the placements one after another leaves. */
  function AddAll(s: Orswot, adds: seq<Placement>): Orswot {
    if adds == [] then s
    else
      var last := adds[|adds| - 1];
      Add(AddAll(s, adds[..|adds| - 1]), last.1, last.0)
  }

  ghost predicate SameAdds(xs: seq<Placement>, ys: seq<Placement>) {
    forall p :: p in xs <==> p in ys
  }

  /** Adds that share a dot carry one entry. */
  ghost predicate OneEntryPerDot(adds: seq<Placement>) {
    forall p, q :: p in adds && q in adds && p.0 == q.0 ==> p.1 == q.1
  }

  /** However the adds are ordered or repeated, the same endpoints are live. */
  ghost predicate AddOrderFree(s: Orswot, adds: seq<Placement>) {
    forall xs :: SameAdds(xs, adds) ==> AddAll(s, xs).live == AddAll(s, adds).live
  }

  ghost predicate Places(adds: seq<Placement>, dot: Dot) {
    exists p :: p in adds && p.0 == dot
  }

  lemma {:induction false} LiveAfterAdds(s: Orswot, adds: seq<Placement>, dot: Dot)
    ensures Places(adds, dot) ==> dot in AddAll(s, adds).live && (dot, AddAll(s, adds).live[dot]) in adds
    ensures !Places(adds, dot) ==> (dot in AddAll(s, adds).live <==> dot in s.live)
    ensures !Places(adds, dot) && dot in s.live ==> AddAll(s, adds).live[dot] == s.live[dot]
  {
    if adds != [] {
      var front, last := adds[..|adds| - 1], adds[|adds| - 1];
      assert adds == front + [last];
      LiveAfterAdds(s, front, dot);
      if Places(front, dot) {
        var p :| p in front && p.0 == dot;
        assert p in adds;
      }
      assert last in adds && last == (last.0, last.1);
    }
  }

  /**
   * The last delivered of two adds on a dot stays, so delivery order is irrelevant exactly when they carry one entry.
   */
  lemma AddOrderFreeIff(s: Orswot, adds: seq<Placement>)
    ensures AddOrderFree(s, adds) <==> OneEntryPerDot(adds)
  {
    hide AddAll;
    if OneEntryPerDot(adds) {
      forall xs | SameAdds(xs, adds) ensures AddAll(s, xs).live == AddAll(s, adds).live {
        AddsAgree(s, xs, adds);
      }
    }
    if AddOrderFree(s, adds) {
      forall p, q | p in adds && q in adds && p.0 == q.0 ensures p.1 == q.1 {
        LastAddStays(s, adds, p);
        LastAddStays(s, adds, q);
        assert SameAdds(adds + [p], adds) && SameAdds(adds + [q], adds);
      }
    }
  }

  lemma AddsAgree(s: Orswot, xs: seq<Placement>, ys: seq<Placement>)
    requires SameAdds(xs, ys) && OneEntryPerDot(ys)
    ensures AddAll(s, xs).live == AddAll(s, ys).live
  {
    hide AddAll;
    var a, b := AddAll(s, xs).live, AddAll(s, ys).live;
    forall dot ensures (dot in a <==> dot in b) && (dot in a ==> a[dot] == b[dot]) {
      LiveAfterAdds(s, xs, dot);
      LiveAfterAdds(s, ys, dot);
    }
  }

  lemma LastAddStays(s: Orswot, adds: seq<Placement>, p: Placement)
    ensures p.0 in AddAll(s, adds + [p]).live && AddAll(s, adds + [p]).live[p.0] == p.1
  {
    assert (adds + [p])[..|adds + [p]| - 1] == adds;
  }

  lemma ObserveNone(context: map<nat, Dot>)
    ensures ObserveAll(context, []) == context
  {
  }

  lemma ObserveNext(context: map<nat, Dot>, dots: seq<Dot>, i: nat)
    requires i < |dots|
    ensures ObserveAll(context, dots[..i + 1]) == Observe(ObserveAll(context, dots[..i]), dots[i])
    ensures dots[..i + 1] == dots[..i] + [dots[i]]
  {
    hide Observe;
    assert dots[..i + 1][..|dots[..i + 1]| - 1] == dots[..i];
  }

  class ServiceEndpoints {
    var live: map<Dot, ServiceEntry>
    var context: map<nat, Dot>

    function View(): Orswot
      reads this
    {
      Orswot(live, context)
    }

    constructor (s: Orswot)
      ensures View() == s
    {
      live, context := s.live, s.context;
    }

    method ObserveDot(dot: Dot)
      modifies this`context
      ensures View() == Orswot(old(live), Observe(old(context), dot))
    {
      if dot.node !in context {
        context := context[dot.node := dot];
      }
      if Before(context[dot.node], dot) {
        context := context[dot.node := dot];
      }
    }

    method ApplyAdd(entry: ServiceEntry, dot: Dot)
      modifies this
      ensures View() == Add(old(View()), entry, dot)
    {
      ObserveDot(dot);
      live := live[dot := entry];
    }

    method ApplyRemove(dots: seq<Dot>, stamp: Dot)
      modifies this
      ensures View() == Remove(old(View()), dots, stamp)
    {
      hide Observe, ObserveAll;
      ObserveDot(stamp);
      ObserveNone(context);
      for i := 0 to |dots|
        invariant context == ObserveAll(Observe(old(context), stamp), dots[..i])
        invariant live == old(live) - (set d | d in dots[..i])
      {
        ObserveNext(Observe(old(context), stamp), dots, i);
        ObserveDot(dots[i]);
        live := live - {dots[i]};
      }
      assert dots[..|dots|] == dots;
    }

    /** Advance every slot to the later of the two dots. */
    method AbsorbContext(b: map<nat, Dot>)
      modifies this`context
      ensures context == JoinContext(old(context), b)
    {
      var nodes := b.Keys;
      while nodes != {}
        invariant nodes <= b.Keys
        invariant context.Keys == old(context).Keys + (b.Keys - nodes)
        invariant forall n :: n in context ==>
                    context[n] == if n in nodes then old(context)[n] else Later(old(context), b, n)
        decreases nodes
      {
        var n :| n in nodes;
        var dot := b[n];
        if n !in context {
          context := context[n := dot];
        }
        if Before(context[n], dot) {
          context := context[n := dot];
        }
        nodes := nodes - {n};
      }
    }

    /** State-based join with another replica's set. */
    method Merge(other: ServiceEndpoints)
      requires other != this
      modifies this
      ensures View() == Join(old(View()), other.View())
    {
      ghost var a, b := View(), other.View();
      var merged := KeepFrom(View(), other.View(), map[]);
      merged := KeepFrom(other.View(), View(), merged);
      KeptIsJoin(a, b, merged);
      AbsorbContext(other.context);
      live := merged;
    }
  }

  lemma KeptIsJoin(a: Orswot, b: Orswot, merged: map<Dot, ServiceEntry>)
    requires forall dot :: dot in merged <==> Kept(a, b, dot) || Kept(b, a, dot)
    requires forall dot :: Kept(b, a, dot) ==> merged[dot] == b.live[dot]
    requires forall dot :: Kept(a, b, dot) && !Kept(b, a, dot) ==> merged[dot] == a.live[dot]
    ensures merged == JoinLive(a, b)
  {
  }

  /** One of the two loops of the join: insert every dot of `a` that survives `b`. */
  method KeepFrom(a: Orswot, b: Orswot, start: map<Dot, ServiceEntry>) returns (merged: map<Dot, ServiceEntry>)
    ensures forall dot :: dot in merged <==> dot in start || Kept(a, b, dot)
    ensures forall dot :: dot in merged ==> merged[dot] == if Kept(a, b, dot) then a.live[dot] else start[dot]
  {
    merged := start;
    var dots := a.live.Keys;
    while dots != {}
      invariant dots <= a.live.Keys
      invariant forall dot :: dot in merged <==> dot in start || (dot !in dots && Kept(a, b, dot))
      invariant forall dot :: dot in merged ==>
                  merged[dot] == if dot !in dots && Kept(a, b, dot) then a.live[dot] else start[dot]
      decreases dots
    {
      var dot :| dot in dots;
      if Kept(a, b, dot) {
        merged := merged[dot := a.live[dot]];
      }
      dots := dots - {dot};
    }
  }
}

/** Version vectors as the greatest dot per node of a set of dots. */
module VersionVectors {
  import opened Deltas
  import opened Orswots

  /** `context` holds, for each node, its greatest dot among `dots`. */
  ghost predicate Tops(context: map<nat, Dot>, dots: set<Dot>) {
    && (forall dot :: dot in dots ==> Seen(context, dot))
    && (forall n :: n in context ==> context[n].node == n && context[n] in dots)
  }

  lemma TopsObserve(context: map<nat, Dot>, dots: set<Dot>, dot: Dot)
    requires Tops(context, dots)
    ensures Tops(Observe(context, dot), dots + {dot})
  {
  }

  lemma {:induction false} TopsObserveAll(context: map<nat, Dot>, dots: set<Dot>, known: seq<Dot>)
    requires Tops(context, dots) && forall dot :: dot in known ==> dot in dots
    ensures ObserveAll(context, known) == context
  {
    if known != [] {
      TopsObserveAll(context, dots, known[..|known| - 1]);
    }
  }

  lemma TopsJoin(a: map<nat, Dot>, b: map<nat, Dot>, dotsA: set<Dot>, dotsB: set<Dot>)
    requires Tops(a, dotsA) && Tops(b, dotsB)
    ensures Tops(JoinContext(a, b), dotsA + dotsB)
  {
    hide Seen;
    forall dot | dot in dotsA + dotsB ensures Seen(JoinContext(a, b), dot) {
      SeenJoin(a, b, dot);
    }
  }

  lemma TopsUnique(a: map<nat, Dot>, b: map<nat, Dot>, dots: set<Dot>)
    requires Tops(a, dots) && Tops(b, dots)
    ensures a == b
  {
    forall n | n in a || n in b ensures n in a && n in b && a[n] == b[n] {
      if n in a {
        assert Seen(b, a[n]);
      }
      if n in b {
        assert Seen(a, b[n]);
      }
    }
  }

  lemma {:induction false} SeenAfterAll(context: map<nat, Dot>, dots: seq<Dot>, other: Dot)
    ensures Seen(ObserveAll(context, dots), other) <==>
              Seen(context, other) || exists dot :: dot in dots && other.node == dot.node && !Before(dot, other)
  {
    if dots != [] {
      var front, last := dots[..|dots| - 1], dots[|dots| - 1];
      SplitLast(dots);
      SeenAfterAll(context, front, other);
      SeenObserve(ObserveAll(context, front), last, other);
    }
  }

  /** Observing dots leaves each slot at the latest of what it held and the dots of its node. */
  lemma {:induction false} SlotAfterAll(context: map<nat, Dot>, dots: seq<Dot>, n: nat)
    ensures n in ObserveAll(context, dots) <==> n in context || exists dot :: dot in dots && dot.node == n
    ensures n in ObserveAll(context, dots) ==>
              var slot := ObserveAll(context, dots)[n];
              && ((n in context && slot == context[n]) || (slot in dots && slot.node == n))
              && (n in context ==> !Before(slot, context[n]))
              && (forall dot :: dot in dots && dot.node == n ==> !Before(slot, dot))
  {
    if dots != [] {
      var front, last := dots[..|dots| - 1], dots[|dots| - 1];
      SplitLast(dots);
      SlotAfterAll(context, front, n);
    }
  }

  lemma ObserveBySet(context: map<nat, Dot>, ds: seq<Dot>, es: seq<Dot>)
    requires forall dot :: dot in ds <==> dot in es
    ensures ObserveAll(context, ds) == ObserveAll(context, es)
  {
    hide ObserveAll;
    var a, b := ObserveAll(context, ds), ObserveAll(context, es);
    forall n: nat ensures n in a <==> n in b
                  ensures n in a ==> a[n] == b[n] {
      SlotAfterAll(context, ds, n);
      SlotAfterAll(context, es, n);
    }
  }

  /** The order in which a remove lists the dots it observed does not matter, whatever the context holds. */
  lemma RemoveBySet(s: Orswot, ds: seq<Dot>, es: seq<Dot>, stamp: Dot)
    requires forall dot :: dot in ds <==> dot in es
    ensures Remove(s, ds, stamp) == Remove(s, es, stamp)
  {
    hide Observe, ObserveAll;
    ObserveBySet(Observe(s.context, stamp), ds, es);
    assert (set d | d in ds) == (set d | d in es);
  }

  /** Some listing of a set of dots. */
  ghost function ListOf(dots: set<Dot>): (r: seq<Dot>)
    ensures forall dot :: dot in r <==> dot in dots
  {
    if dots == {} then [] else var dot :| dot in dots; [dot] + ListOf(dots - {dot})
  }
}
