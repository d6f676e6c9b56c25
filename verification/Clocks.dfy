/** Hybrid logical clocks, and every run of any number of them. */
module Clocks {
  import opened Deltas

  /** `logical` is a 32-bit counter. */
  const MAX_LOGICAL: nat := 0xFFFF_FFFF

  function Bump(n: nat): nat {
    if n == MAX_LOGICAL then 0 else n + 1
  }

  function Max(a: nat, b: nat): nat {
    if a < b then b else a
  }

  function NextSend(last: Stamp, now: nat): Stamp {
    var wall := Max(now, last.wall);
    Stamp(wall, if wall == last.wall then Bump(last.logical) else 0, last.node)
  }

  function NextRecv(last: Stamp, remote: Stamp, now: nat): Stamp {
    var wall := Max(Max(now, last.wall), remote.wall);
    var logical :=
      if wall == last.wall && wall == remote.wall then Bump(Max(last.logical, remote.logical))
      else if wall == last.wall then Bump(last.logical)
      else if wall == remote.wall then Bump(remote.logical)
      else 0;
    Stamp(wall, logical, last.node)
  }

  class Hlc {
    /** Counters start at zero and stay within 32 bits. */
    predicate Valid()
      reads this
    {
      last.logical <= MAX_LOGICAL
    }

    var last: Stamp

    constructor (now: nat, node: nat)
      ensures Valid() && last == Stamp(now, 0, node)
    {
      last := Stamp(now, 0, node);
    }

    method AdvanceSend(now: nat) returns (t: Stamp)
      requires Valid()
      modifies this
      ensures Valid()
      ensures t == last == NextSend(old(last), now)
      ensures t.node == old(last).node && now <= t.wall && old(last).wall <= t.wall && t.wall in {now, old(last).wall}
      ensures t.logical == if old(last).wall < now then 0 else (old(last).logical + 1) % 0x1_0000_0000
    {
      var wall := if now < last.wall then last.wall else now;
      var logical := if wall == last.wall then Bump(last.logical) else 0;
      last := Stamp(wall, logical, last.node);
      t := last;
    }

    method AdvanceRecv(remote: Stamp, now: nat) returns (t: Stamp)
      requires Valid() && remote.logical <= MAX_LOGICAL
      modifies this
      ensures Valid()
      ensures t == last == NextRecv(old(last), remote, now)
      ensures t.node == old(last).node && t.wall in {now, old(last).wall, remote.wall}
      ensures now <= t.wall && old(last).wall <= t.wall && remote.wall <= t.wall
      ensures t.logical == if t.wall != old(last).wall && t.wall != remote.wall then 0
                           else if t.wall != remote.wall
                                   || (t.wall == old(last).wall && remote.logical < old(last).logical)
                           then (old(last).logical + 1) % 0x1_0000_0000
                           else (remote.logical + 1) % 0x1_0000_0000
    {
      var wall := Max(Max(now, last.wall), remote.wall);
      var logical;
      if wall == last.wall && wall == remote.wall {
        logical := Bump(Max(last.logical, remote.logical));
      } else if wall == last.wall {
        logical := Bump(last.logical);
      } else if wall == remote.wall {
        logical := Bump(remote.logical);
      } else {
        logical := 0;
      }
      last := Stamp(wall, logical, last.node);
      t := last;
    }
  }

  /** A send advances the clock exactly when the counter has room or the wall clock moved on. */
  lemma SendAdvancesIff(last: Stamp, now: nat)
    requires last.logical <= MAX_LOGICAL
    ensures Before(last, NextSend(last, now)) <==> now > last.wall || last.logical < MAX_LOGICAL
  {
  }

  /** A receive passes both clocks exactly when neither is exhausted at the winning wall time. */
  lemma RecvAdvancesIff(last: Stamp, remote: Stamp, now: nat)
    requires last.logical <= MAX_LOGICAL && remote.logical <= MAX_LOGICAL
    ensures var wall := NextRecv(last, remote, now).wall;
            Before(last, NextRecv(last, remote, now)) && Before(remote, NextRecv(last, remote, now)) <==>
            && !(wall == last.wall && last.logical == MAX_LOGICAL)
            && !(wall == remote.wall && remote.logical == MAX_LOGICAL)
  {
  }

  // ── runs ────────────────────────────────────────────────────────────────────

  datatype Source = Local | Received(event: nat)

  /** One clock step: at a node, with a wall reading, possibly on receipt of an earlier event's stamp. */
  datatype Event = Event(node: nat, now: nat, source: Source)

  /** A run of clocks seeded per node. */
  datatype Run = Run(seeds: map<nat, nat>, events: seq<Event>) {
    ghost predicate Valid() {
      forall i :: 0 <= i < |events| ==>
        events[i].node in seeds && (events[i].source.Received? ==> events[i].source.event < i)
    }
  }

  /** The latest event of `node` before position `i`, or -1. */
  function Previous(r: Run, node: nat, i: nat): (j: int)
    requires i <= |r.events|
    ensures -1 <= j < i
    ensures j >= 0 ==> r.events[j].node == node
    ensures forall k :: j < k < i ==> r.events[k].node != node
  {
    if i == 0 then -1
    else if r.events[i - 1].node == node then i - 1
    else Previous(r, node, i - 1)
  }

  /** What the node's clock shows just before event `i`. */
  function Shown(r: Run, i: nat): Stamp
    requires r.Valid() && i < |r.events|
    decreases i, 0
  {
    var node := r.events[i].node;
    var j := Previous(r, node, i);
    if j < 0 then Stamp(r.seeds[node], 0, node) else StampOf(r, j)
  }

  function StampOf(r: Run, i: nat): Stamp
    requires r.Valid() && i < |r.events|
    decreases i, 1
  {
    match r.events[i].source
    case Local => NextSend(Shown(r, i), r.events[i].now)
    case Received(k) => NextRecv(Shown(r, i), StampOf(r, k), r.events[i].now)
  }

  /** Everything that happened before event `i`, and `i` itself. */
  function CausalPast(r: Run, i: nat): (past: set<nat>)
    requires r.Valid() && i < |r.events|
    ensures i in past && forall k :: k in past ==> k <= i
    decreases i
  {
    var j := Previous(r, r.events[i].node, i);
    {i}
    + (if j < 0 then {} else CausalPast(r, j))
    + (if r.events[i].source.Local? then {} else CausalPast(r, r.events[i].source.event))
  }

  lemma {:induction false} PastIsBounded(r: Run, i: nat)
    requires r.Valid() && i < |r.events|
    ensures |CausalPast(r, i)| <= i + 1
  {
    BoundedSet(CausalPast(r, i), i + 1);
  }

  lemma {:induction false} BoundedSet(s: set<nat>, n: nat)
    requires forall k :: k in s ==> k < n
    ensures |s| <= n
  {
    if n == 0 {
      assert s == {};
    } else {
      BoundedSet(s - {n - 1}, n - 1);
      assert n - 1 in s ==> |s - {n - 1}| == |s| - 1;
      assert n - 1 !in s ==> s - {n - 1} == s;
    }
  }

  /** A strictly earlier past is strictly smaller. */
  lemma PartOfPast(r: Run, j: nat, i: nat)
    requires r.Valid() && j < i < |r.events| && CausalPast(r, j) <= CausalPast(r, i)
    ensures |CausalPast(r, j)| < |CausalPast(r, i)|
  {
    var a, b := CausalPast(r, j), CausalPast(r, i);
    assert i in b && i !in a;
    SubsetSize(a, b - {i});
    assert |b - {i}| == |b| - 1;
  }

  lemma SubsetSize(a: set<nat>, b: set<nat>)
    requires a <= b
    ensures |a| <= |b|
  {
    assert b == a + (b - a) && |a + (b - a)| == |a| + |b - a|;
  }

  /** The counter never exceeds the number of steps in the event's past, so short runs never wrap. */
  lemma {:induction false} LogicalIsBounded(r: Run, i: nat)
    requires r.Valid() && i < |r.events| <= MAX_LOGICAL
    ensures StampOf(r, i).logical <= |CausalPast(r, i)| <= i + 1
    ensures Shown(r, i).logical < MAX_LOGICAL
    ensures r.events[i].source.Received? ==> StampOf(r, r.events[i].source.event).logical < MAX_LOGICAL
    ensures Shown(r, i).logical < |CausalPast(r, i)|
    decreases i
  {
    hide CausalPast;
    PastIsBounded(r, i);
    PastParts(r, i);
    var j := Previous(r, r.events[i].node, i);
    if j >= 0 {
      LogicalIsBounded(r, j);
      PartOfPast(r, j, i);
    }
    if r.events[i].source.Received? {
      LogicalIsBounded(r, r.events[i].source.event);
      PartOfPast(r, r.events[i].source.event, i);
    }
  }

  lemma PastParts(r: Run, i: nat)
    requires r.Valid() && i < |r.events|
    ensures var j := Previous(r, r.events[i].node, i);
            && (j >= 0 ==> CausalPast(r, j) <= CausalPast(r, i))
            && (r.events[i].source.Received? ==> CausalPast(r, r.events[i].source.event) <= CausalPast(r, i))
            && (forall k :: k in CausalPast(r, i) && k != i ==>
                  (j >= 0 && k in CausalPast(r, j))
                    || (r.events[i].source.Received? && k in CausalPast(r, r.events[i].source.event)))
            && i in CausalPast(r, i)
            && CausalPast(r, i) != {}
  {
  }

  /** Each step passes the clock it started from and the stamp it received. */
  lemma StepAdvances(r: Run, i: nat)
    requires r.Valid() && i < |r.events| <= MAX_LOGICAL
    ensures Before(Shown(r, i), StampOf(r, i))
    ensures r.events[i].source.Received? ==> Before(StampOf(r, r.events[i].source.event), StampOf(r, i))
  {
    hide CausalPast;
    LogicalIsBounded(r, i);
    match r.events[i].source
    case Local => SendAdvancesIff(Shown(r, i), r.events[i].now);
    case Received(k) => RecvAdvancesIff(Shown(r, i), StampOf(r, k), r.events[i].now);
  }

  /** Happens-before implies a strictly smaller stamp. */
  lemma {:induction false} HappensBeforeIsOrdered(r: Run, j: nat, i: nat)
    requires r.Valid() && i < |r.events| <= MAX_LOGICAL
    requires j in CausalPast(r, i) && j != i
    ensures Before(StampOf(r, j), StampOf(r, i))
    decreases i
  {
    hide CausalPast, StampOf;
    PastParts(r, i);
    StepAdvances(r, i);
    var p := Previous(r, r.events[i].node, i);
    if p >= 0 && j in CausalPast(r, p) {
      ShownIs(r, i);
      if j != p {
        HappensBeforeIsOrdered(r, j, p);
      }
    } else {
      var k := r.events[i].source.event;
      if j != k {
        HappensBeforeIsOrdered(r, j, k);
      }
    }
  }

  lemma ShownIs(r: Run, i: nat)
    requires r.Valid() && i < |r.events|
    ensures Previous(r, r.events[i].node, i) >= 0 ==> Shown(r, i) == StampOf(r, Previous(r, r.events[i].node, i))
  {
  }

  /** Events of one node are ordered by their positions. */
  lemma {:induction false} NodeOrderIsCausal(r: Run, j: nat, i: nat)
    requires r.Valid() && j < i < |r.events| && r.events[j].node == r.events[i].node
    ensures j in CausalPast(r, i)
    decreases i
  {
    hide CausalPast;
    PastParts(r, i);
    var p := Previous(r, r.events[i].node, i);
    PastParts(r, p);
    if p != j {
      NodeOrderIsCausal(r, j, p);
    }
  }

  lemma {:induction false} StampNode(r: Run, i: nat)
    requires r.Valid() && i < |r.events|
    ensures StampOf(r, i).node == r.events[i].node
  {
    var j := Previous(r, r.events[i].node, i);
    if j >= 0 {
      StampNode(r, j);
    }
  }

  /** No two events of a run carry the same stamp. */
  lemma StampsAreDistinct(r: Run, j: nat, i: nat)
    requires r.Valid() && j < i < |r.events| <= MAX_LOGICAL
    ensures StampOf(r, j) != StampOf(r, i)
  {
    hide CausalPast;
    if r.events[j].node == r.events[i].node {
      NodeOrderIsCausal(r, j, i);
      HappensBeforeIsOrdered(r, j, i);
    } else {
      StampNode(r, j);
      StampNode(r, i);
    }
  }

  /** `w` is the greatest clock reading or seed among the events of `past`. */
  ghost predicate IsGreatestReading(r: Run, past: set<nat>, w: nat)
    requires r.Valid() && forall k :: k in past ==> k < |r.events|
  {
    && (forall k :: k in past ==> r.events[k].now <= w && r.seeds[r.events[k].node] <= w)
    && (exists k :: k in past && (r.events[k].now == w || r.seeds[r.events[k].node] == w))
  }

  /** The wall component is the greatest reading or seed in the event's causal past. */
  lemma {:induction false} WallIsGreatestReading(r: Run, i: nat)
    requires r.Valid() && i < |r.events|
    ensures IsGreatestReading(r, CausalPast(r, i), StampOf(r, i).wall)
    decreases i
  {
    hide CausalPast;
    PastParts(r, i);
    PastWithin(r, i);
    var e := r.events[i];
    var p := Previous(r, e.node, i);
    var past, wall := CausalPast(r, i), StampOf(r, i).wall;
    if p >= 0 {
      WallIsGreatestReading(r, p);
      SeedIsSeen(r, p);
    }
    if e.source.Received? {
      WallIsGreatestReading(r, e.source.event);
    }
    assert Shown(r, i).wall <= wall && e.now <= wall;
    WallSource(r, i);
  }

  lemma PastWithin(r: Run, i: nat)
    requires r.Valid() && i < |r.events|
    ensures forall k :: k in CausalPast(r, i) ==> k < |r.events|
  {
  }

  lemma SeedIsSeen(r: Run, p: nat)
    requires r.Valid() && p < |r.events|
    ensures p in CausalPast(r, p)
  {
  }

  /** The winning wall time comes from the reading, the seed, the previous event or the received one. */
  lemma WallSource(r: Run, i: nat)
    requires r.Valid() && i < |r.events|
    ensures var e, p := r.events[i], Previous(r, r.events[i].node, i);
            var w := StampOf(r, i).wall;
            || w == e.now
            || (p < 0 && w == r.seeds[e.node])
            || (p >= 0 && w == StampOf(r, p).wall)
            || (e.source.Received? && w == StampOf(r, e.source.event).wall)
  {
  }

  // ── the exact counter ───────────────────────────────────────────────────────

  /**
   * Before event `i` is stamped, its node has shown or received `x`: its seed, an own stamp, or one that reached it.
   */
  ghost predicate Heard(r: Run, i: nat, x: Stamp)
    requires r.Valid() && i < |r.events|
  {
    var node := r.events[i].node;
    || x == Stamp(r.seeds[node], 0, node)
    || (exists j :: 0 <= j < i && r.events[j].node == node && x == StampOf(r, j))
    || (exists j :: 0 <= j <= i && ReceivedAt(r, j, node, x))
  }

  ghost predicate ReceivedAt(r: Run, j: nat, node: nat, x: Stamp)
    requires r.Valid() && j < |r.events|
  {
    r.events[j].node == node && r.events[j].source.Received? && x == StampOf(r, r.events[j].source.event)
  }

  /** `x` does not exceed `y` in wall time and counter. */
  predicate NoLater(x: Stamp, y: Stamp) {
    x.wall < y.wall || (x.wall == y.wall && x.logical <= y.logical)
  }

  /** All a node heard before, short of what it receives now, its clock already shows or has passed. */
  lemma {:induction false} ShownIsLatest(r: Run, i: nat, x: Stamp)
    requires r.Valid() && i < |r.events| <= MAX_LOGICAL && Heard(r, i, x)
    ensures NoLater(x, Shown(r, i)) || ReceivedAt(r, i, r.events[i].node, x)
    decreases i
  {
    hide CausalPast, StampOf, Before;
    var node := r.events[i].node;
    var p := Previous(r, node, i);
    if p < 0 {
      StampsStartAtZero(r, i);
    } else {
      ShownIs(r, i);
      StepClimbs(r, p);
      if x != StampOf(r, p) && !ReceivedAt(r, i, node, x) {
        assert Heard(r, p, x);
        ShownIsLatest(r, p, x);
      }
    }
  }

  lemma StampsStartAtZero(r: Run, i: nat)
    requires r.Valid() && i < |r.events| && Previous(r, r.events[i].node, i) < 0
    ensures Shown(r, i) == Stamp(r.seeds[r.events[i].node], 0, r.events[i].node)
  {
  }

  /** A step passes what its clock showed and what it received, in wall time and counter. */
  lemma StepClimbs(r: Run, i: nat)
    requires r.Valid() && i < |r.events| <= MAX_LOGICAL
    ensures NoLater(Shown(r, i), StampOf(r, i))
    ensures r.events[i].source.Received? ==> NoLater(StampOf(r, r.events[i].source.event), StampOf(r, i))
  {
    hide CausalPast;
    LogicalIsBounded(r, i);
  }

  /**
   * The counter, exactly: zero when the wall time exceeds all that the node has shown or received, and otherwise one
   * more than the greatest counter among those of them that carry that wall time.
   */
  lemma CounterIsExact(r: Run, i: nat)
    requires r.Valid() && i < |r.events| <= MAX_LOGICAL
    ensures var t := StampOf(r, i);
            && (forall x :: Heard(r, i, x) ==> x.wall < t.wall || (x.wall == t.wall && x.logical < t.logical))
            && (t.logical == 0 || exists x :: Heard(r, i, x) && x.wall == t.wall && t.logical == x.logical + 1)
            && ((forall x :: Heard(r, i, x) ==> x.wall < t.wall) <==> t.logical == 0)
  {
    hide CausalPast, Heard;
    LogicalIsBounded(r, i);
    ShownIsHeard(r, i);
    ReceivedIsHeard(r, i);
    forall x | Heard(r, i, x) {
      HeardIsPassed(r, i, x);
    }
  }

  /** Whatever the node has heard, its next stamp passes in wall time and counter. */
  lemma HeardIsPassed(r: Run, i: nat, x: Stamp)
    requires r.Valid() && i < |r.events| <= MAX_LOGICAL && Heard(r, i, x)
    ensures var t := StampOf(r, i); x.wall < t.wall || (x.wall == t.wall && x.logical < t.logical)
  {
    hide CausalPast, Heard;
    LogicalIsBounded(r, i);
    ShownIsLatest(r, i, x);
  }

  lemma ReceivedIsHeard(r: Run, i: nat)
    requires r.Valid() && i < |r.events|
    ensures r.events[i].source.Received? ==> Heard(r, i, StampOf(r, r.events[i].source.event))
  {
    hide StampOf;
    if r.events[i].source.Received? {
      assert ReceivedAt(r, i, r.events[i].node, StampOf(r, r.events[i].source.event));
    }
  }

  lemma ShownIsHeard(r: Run, i: nat)
    requires r.Valid() && i < |r.events|
    ensures Heard(r, i, Shown(r, i))
  {
    var j := Previous(r, r.events[i].node, i);
    if j >= 0 {
      assert r.events[j].node == r.events[i].node && Shown(r, i) == StampOf(r, j);
    }
  }
}
