/** Anti-entropy: which deltas a peer lacks, and moving them as a bundle. */
module Recon {
  import opened Deltas
  import opened Histories
  import opened Dag

  datatype Bundle = Bundle(target: Hash, deltas: seq<Delta>)

  datatype BundleResult = Accepted(added: nat) | Rejected

  /** What is reachable from `from` without entering `stop`. */
  ghost function Above(s: History, from: set<Hash>, stop: set<Hash>): set<Hash> {
    Past(s - stop, from) - stop
  }

  /** `ds` lists each delta of `c` once. */
  ghost predicate ListsExactly(s: History, c: set<Hash>, ds: seq<Delta>) {
    && (forall d :: d in ds ==> d.hash in c && d.hash in s && s[d.hash] == d)
    && (forall h :: h in c ==> h in s && s[h] in ds)
    && |ds| == |c|
  }

  lemma ListsOne(s: History, c: set<Hash>, ds: seq<Delta>, h: Hash)
    requires WellIndexed(s) && ListsExactly(s, c, ds) && h in s && h !in c
    ensures ListsExactly(s, c + {h}, ds + [s[h]])
  {
  }

  /** A walk above `stop` is a walk that never enters `stop`. */
  lemma AboveIsWalks(s: History, from: set<Hash>, stop: set<Hash>, h: Hash)
    requires h !in stop
    ensures h in Above(s, from, stop) <==> WalksTo(s - stop, from, h)
  {
    hide Past;
    PastIsWalks(s - stop, from, h);
  }

  /** Where the bounded traversal stands: `visited` was taken, `passed` was met and refused. */
  ghost predicate Extracting(s: History, from: set<Hash>, stop: set<Hash>, visited: set<Hash>, passed: set<Hash>,
                             stack: seq<Hash>) {
    && Exploring(s - stop, from, visited + passed, stack)
    && passed <= stop && visited !! stop && visited <= s.Keys
  }

  ghost function Left(s: History, from: set<Hash>, stop: set<Hash>, done: set<Hash>): nat {
    |Past(s - stop, from) - done|
  }

  /** A hash met before, taken or refused, is dropped. */
  lemma ExtractAgain(s: History, from: set<Hash>, stop: set<Hash>, visited: set<Hash>, passed: set<Hash>,
                     rest: seq<Hash>, h: Hash)
    requires Extracting(s, from, stop, visited, passed, rest + [h]) && h in visited + passed
    ensures Extracting(s, from, stop, visited, passed, rest)
  {
    hide Exploring, Past, Elements;
    ExploreSkip(s - stop, from, visited + passed, rest, h);
  }

  /** A stop hash met for the first time is refused and remembered as met. */
  lemma ExtractPass(s: History, from: set<Hash>, stop: set<Hash>, visited: set<Hash>, passed: set<Hash>,
                    rest: seq<Hash>, h: Hash)
    requires Extracting(s, from, stop, visited, passed, rest + [h]) && h in stop && h !in passed
    ensures Extracting(s, from, stop, visited, passed + {h}, rest)
    ensures Left(s, from, stop, visited + (passed + {h})) < Left(s, from, stop, visited + passed)
  {
    hide Exploring, Past, Elements;
    assert h !in s - stop;
    ExploreProgress(s - stop, from, visited + passed, rest, h);
    ExploreVisit(s - stop, from, visited + passed, rest, h, rest);
    assert (visited + passed) + {h} == visited + (passed + {h});
  }

  lemma ExtractVisit(s: History, from: set<Hash>, stop: set<Hash>, visited: set<Hash>, passed: set<Hash>,
                     rest: seq<Hash>, h: Hash)
    requires Extracting(s, from, stop, visited, passed, rest + [h]) && h !in stop && h !in visited
    ensures h in Above(s, from, stop)
    ensures Left(s, from, stop, visited + {h} + passed) < Left(s, from, stop, visited + passed)
  {
    hide Exploring, Past, Elements;
    ExploreProgress(s - stop, from, visited + passed, rest, h);
    TakenFirst(visited, passed, h);
  }

  lemma TakenFirst(visited: set<Hash>, passed: set<Hash>, h: Hash)
    ensures (visited + passed) + {h} == (visited + {h}) + passed
  {
  }

  lemma ExtractPush(s: History, from: set<Hash>, stop: set<Hash>, visited: set<Hash>, passed: set<Hash>,
                    rest: seq<Hash>, h: Hash, next: seq<Hash>)
    requires Extracting(s, from, stop, visited, passed, rest + [h]) && h !in stop && h !in visited && h in s
    requires Elements(next) == Elements(rest) + (Elements(s[h].parents) - (visited + {h}))
    ensures Extracting(s, from, stop, visited + {h}, passed, next)
  {
    hide Exploring, Past, Elements;
    assert (s - stop)[h] == s[h];
    ExploreVisit(s - stop, from, visited + passed, rest, h, next);
    assert (visited + passed) + {h} == visited + {h} + passed;
  }

  lemma ExtractDone(s: History, from: set<Hash>, stop: set<Hash>, visited: set<Hash>, passed: set<Hash>)
    requires Extracting(s, from, stop, visited, passed, [])
    ensures visited == Above(s, from, stop) && visited <= s.Keys
  {
    hide Exploring, Past;
    ExploreDone(s - stop, from, visited + passed);
  }

  lemma ExtractStart(s: History, target: Hash, stop: set<Hash>)
    ensures Extracting(s, {target}, stop, {}, {}, [target])
  {
    hide Exploring, Past;
    ExploreStart(s - stop, [target]);
    SingletonElements(target);
    var none: set<Hash> := {};
    assert none + none == none;
  }

  /** The deltas above `stop` that `target` rests on, or nothing if one of them is missing. */
  method ExtractClosure(dag: DeltaDag, target: Hash, stop: seq<Hash>) returns (r: Option<seq<Delta>>)
    requires dag.Valid()
    ensures r.Some? <==> Above(dag.byHash, {target}, Elements(stop)) <= dag.byHash.Keys
    ensures r.Some? ==> ListsExactly(dag.byHash, Above(dag.byHash, {target}, Elements(stop)), r.value)
  {
    hide Extracting, Above, ListsExactly, Elements, Left, WellIndexed, Referenced, Frontier;
    var s := dag.byHash;
    ghost var barred, from := Elements(stop), {target};
    var visited, deltas: seq<Delta>, stack := {}, [], [target];
    ghost var passed: set<Hash> := {};
    ExtractStart(s, target, barred);
    ListsEmpty(s);
    while stack != []
      invariant Extracting(s, from, barred, visited, passed, stack)
      invariant ListsExactly(s, visited, deltas)
      decreases Left(s, from, barred, visited + passed), |stack|
    {
      var rest, h := stack[..|stack| - 1], stack[|stack| - 1];
      SplitLast(stack);
      ElementsMember(stop, h);
      if h in stop || h in visited {
        if h in visited || h in passed {
          ExtractAgain(s, from, barred, visited, passed, rest, h);
        } else {
          ExtractPass(s, from, barred, visited, passed, rest, h);
          passed := passed + {h};
        }
        stack := rest;
      } else {
        ExtractVisit(s, from, barred, visited, passed, rest, h);
        if h !in s {
          return None;
        }
        ListsOne(s, visited, deltas, h);
        deltas := deltas + [s[h]];
        stack := PushParents(rest, s[h].parents, visited + {h});
        ExtractPush(s, from, barred, visited, passed, rest, h, stack);
        visited := visited + {h};
      }
    }
    ExtractDone(s, from, barred, visited, passed);
    r := Some(deltas);
  }

  lemma ListsEmpty(s: History)
    ensures ListsExactly(s, {}, [])
  {
  }

  lemma SingletonElements(h: Hash)
    ensures Elements([h]) == {h}
  {
  }

  lemma ElementsMember(s: seq<Hash>, h: Hash)
    ensures h in Elements(s) <==> h in s
  {
  }

  // ── what a peer lacks ───────────────────────────────────────────────────────

  /** Everything above the peer's frontier, from the heads the peer does not show. */
  ghost function ForPeer(s: History, peer: set<Hash>): set<Hash> {
    Above(s, Frontier(s) - peer, peer)
  }

  /** Every held delta lies below some head, as it does whenever no parent cycle is held. */
  ghost predicate Headed(s: History) {
    s.Keys <= Past(s, Frontier(s))
  }

  /** A new delta on top of held parents keeps everything below some head. */
  lemma HeadedStep(s: History, d: Delta)
    requires Headed(s) && AncestorClosed(s) && d.hash !in s && Elements(d.parents) <= s.Keys
    ensures Headed(With(s, d))
  {
    hide Past, Elements;
    var t := With(s, d);
    ElementsMember(d.parents, d.hash);
    ReferencedGrows(s, d);
    assert d.hash in Frontier(t) by {
      assert d.hash !in Referenced(s);
    }
    var c := Past(t, Frontier(t));
    PastIsClosed(t, Frontier(t));
    assert t[d.hash] == d;
    forall h | h in Frontier(s) ensures h in c {
      ElementsMember(d.parents, h);
    }
    forall h, p | h in c && h in s && p in s[h].parents ensures p in c {
      assert t[h] == s[h];
    }
    PastIsLeast(s, Frontier(s), c);
  }

  /** What is sent leaves out nothing the peer lacks, and holds nothing foreign. */
  lemma ForPeerCovers(s: History, t: History, stop: set<Hash>)
    requires AncestorClosed(s) && Headed(s) && AncestorClosed(t) && Agree(s, t) && stop <= t.Keys
    ensures s.Keys - t.Keys <= ForPeer(s, stop) <= s.Keys
  {
    hide Past, Above;
    FrontierIsHeld(s);
    AboveIsHeld(s, Frontier(s) - stop, stop);
    AboveIsClosed(s, Frontier(s) - stop, stop);
    var c := ForPeer(s, stop) + s.Keys * t.Keys;
    assert Closed(s, c);
    assert Frontier(s) <= c by {
      assert Frontier(s) <= (Frontier(s) - stop) + stop;
    }
    PastIsLeast(s, Frontier(s), c);
  }

  /** The peer's frontier `t` shows all that `s` builds on: heads it holds, and parents of what it lacks. */
  ghost predicate FrontierShows(s: History, t: History) {
    && (forall h :: h in Frontier(s) && h in t ==> h in Frontier(t))
    && (forall h, p :: h in s && h !in t && p in s[h].parents && p in t ==> p in Frontier(t))
  }

  /** Exactly the difference is sent, exactly when the peer's frontier shows all that the sender builds on. */
  lemma ForPeerIsDifferenceIff(s: History, t: History)
    requires AncestorClosed(s) && Headed(s) && AncestorClosed(t) && Agree(s, t)
    ensures ForPeer(s, Frontier(t)) == s.Keys - t.Keys <==> FrontierShows(s, t)
  {
    hide Past, Frontier;
    var stop := Frontier(t);
    FrontierIsHeld(s);
    FrontierIsHeld(t);
    ForPeerCovers(s, t, stop);
    AboveIsClosed(s, Frontier(s) - stop, stop);
    if FrontierShows(s, t) {
      PastIsLeast(s - stop, Frontier(s) - stop, (s.Keys - t.Keys) + stop);
    }
  }

  /** With no line drawn, the whole history is sent iff every delta lies below some head. */
  lemma EverythingIsSentIff(s: History)
    requires AncestorClosed(s)
    ensures ForPeer(s, {}) == s.Keys <==> Headed(s)
  {
    hide Past;
    FrontierIsHeld(s);
    AboveIsHeld(s, Frontier(s), {});
    assert s - {} == s && Frontier(s) - {} == Frontier(s);
  }

  lemma PastUnion(s: History, a: set<Hash>, b: set<Hash>)
    ensures Past(s, a + b) == Past(s, a) + Past(s, b)
  {
    PastMonotone(s, a, a + b);
    PastMonotone(s, b, a + b);
    PastIsClosed(s, a);
    PastIsClosed(s, b);
    PastIsLeast(s, a + b, Past(s, a) + Past(s, b));
  }

  lemma AboveUnion(s: History, a: set<Hash>, b: set<Hash>, stop: set<Hash>)
    ensures Above(s, a + b, stop) == Above(s, a, stop) + Above(s, b, stop)
  {
    hide Past;
    PastUnion(s - stop, a, b);
  }

  lemma AboveNothing(s: History, stop: set<Hash>)
    ensures Above(s, {}, stop) == {}
  {
    PastIsLeast(s - stop, {}, {});
  }

  /** Held deltas have only held deltas above any line. */
  lemma AboveIsHeld(s: History, from: set<Hash>, stop: set<Hash>)
    requires AncestorClosed(s) && from <= s.Keys
    ensures Above(s, from, stop) <= s.Keys
  {
    PastIsLeast(s - stop, from, s.Keys);
  }

  /** Append the deltas of `more` whose hash has not been taken. */
  method TakeNew(s: History, seen: set<Hash>, out: seq<Delta>, more: seq<Delta>, ghost c: set<Hash>)
    returns (seen': set<Hash>, out': seq<Delta>)
    requires WellIndexed(s) && ListsExactly(s, seen, out) && ListsExactly(s, c, more)
    ensures seen' == seen + c && ListsExactly(s, seen', out')
  {
    hide ListsExactly;
    seen', out' := seen, out;
    for i := 0 to |more|
      invariant seen' == seen + Hashes(more[..i])
      invariant ListsExactly(s, seen', out')
    {
      HashesAppend(more, i);
      ListedDelta(s, c, more, i);
      if more[i].hash !in seen' {
        ListsOne(s, seen', out', more[i].hash);
        seen', out' := seen' + {more[i].hash}, out' + [more[i]];
      }
    }
    assert more[..|more|] == more;
    ListedHashes(s, c, more);
  }

  function Hashes(ds: seq<Delta>): set<Hash> {
    set d | d in ds :: d.hash
  }

  lemma HashesAppend(ds: seq<Delta>, i: nat)
    requires i < |ds|
    ensures Hashes(ds[..i + 1]) == Hashes(ds[..i]) + {ds[i].hash}
  {
    assert ds[..i + 1] == ds[..i] + [ds[i]];
  }

  lemma ListedDelta(s: History, c: set<Hash>, ds: seq<Delta>, i: nat)
    requires ListsExactly(s, c, ds) && i < |ds|
    ensures ds[i].hash in s && s[ds[i].hash] == ds[i]
  {
    assert ds[i] in ds;
  }

  lemma ListedHashes(s: History, c: set<Hash>, ds: seq<Delta>)
    requires WellIndexed(s) && ListsExactly(s, c, ds)
    ensures Hashes(ds) == c
  {
    forall h | h in c ensures h in Hashes(ds) {
      assert s[h] in ds && s[h].hash == h;
    }
  }

  /** The responder side of a frontier exchange. */
  method DeltasForPeer(dag: DeltaDag, peer: seq<Hash>) returns (r: Option<seq<Delta>>)
    requires dag.Valid()
    ensures r.Some? <==> ForPeer(dag.byHash, Elements(peer)) <= dag.byHash.Keys
    ensures r.Some? ==> ListsExactly(dag.byHash, ForPeer(dag.byHash, Elements(peer)), r.value)
  {
    hide ListsExactly, Above, Frontier, Elements, WellIndexed;
    var s := dag.byHash;
    ghost var stop := Elements(peer);
    var heads := dag.FrontierList();
    var seen, out: seq<Delta> := {}, [];
    ListsEmpty(s);
    AboveNothing(s, stop);
    ElementsEmpty([]);
    assert Elements(heads[..0]) - stop == {};
    for i := 0 to |heads|
      invariant seen == Above(s, Elements(heads[..i]) - stop, stop)
      invariant seen <= s.Keys && ListsExactly(s, seen, out)
    {
      assert heads[..i + 1] == heads[..i] + [heads[i]];
      ElementsAppend(heads[..i], heads[i]);
      ElementsMember(peer, heads[i]);
      if heads[i] in peer {
        assert Elements(heads[..i + 1]) - stop == Elements(heads[..i]) - stop;
      } else {
        assert Elements(heads[..i + 1]) - stop == (Elements(heads[..i]) - stop) + {heads[i]};
        AboveUnion(s, Elements(heads[..i]) - stop, {heads[i]}, stop);
        var part := ExtractClosure(dag, heads[i], peer);
        if part.None? {
          HeadIsPart(s, heads, i, stop);
          return None;
        }
        seen, out := TakeNew(s, seen, out, part.value, Above(s, {heads[i]}, stop));
      }
    }
    assert heads[..|heads|] == heads;
    r := Some(out);
  }

  lemma HeadIsPart(s: History, heads: seq<Hash>, i: nat, stop: set<Hash>)
    requires i < |heads| && heads[i] !in stop
    ensures Above(s, {heads[i]}, stop) <= Above(s, Elements(heads) - stop, stop)
  {
    hide Past;
    ElementsMember(heads, heads[i]);
    PastMonotone(s - stop, {heads[i]}, Elements(heads) - stop);
  }

  /** The whole local history as one bundle, named after its greatest head. */
  method ExportBundle(dag: DeltaDag) returns (r: Option<Bundle>)
    requires dag.Valid()
    ensures r.Some? <==> Frontier(dag.byHash) != {} && ForPeer(dag.byHash, {}) <= dag.byHash.Keys
    ensures r.Some? ==> r.value.target in Frontier(dag.byHash) && forall h :: h in Frontier(dag.byHash) ==>
              h <= r.value.target
    ensures r.Some? ==> ListsExactly(dag.byHash, ForPeer(dag.byHash, {}), r.value.deltas)
  {
    hide ForPeer, ListsExactly, Referenced;
    var heads := dag.FrontierList();
    ElementsEmpty(heads);
    ElementsEmpty([]);
    if heads == [] {
      return None;
    }
    var deltas := DeltasForPeer(dag, []);
    if deltas.None? {
      return None;
    }
    var target := heads[|heads| - 1];
    assert target in Elements(heads);
    forall h | h in Elements(heads) ensures h <= target {
      var i :| 0 <= i < |heads| && heads[i] == h;
    }
    r := Some(Bundle(target, deltas.value));
  }

  /** The hashes to ask for: advertised heads not held, and own gaps. */
  method MissingFromFrontier(dag: DeltaDag, remote: seq<Hash>) returns (missing: seq<Hash>)
    requires dag.Valid()
    ensures missing == Sorted((Elements(remote) + Referenced(dag.byHash)) - dag.byHash.Keys)
    ensures missing == [] <==> Elements(remote) <= dag.byHash.Keys && AncestorClosed(dag.byHash)
  {
    hide Sorted, Elements;
    var own := dag.IncompleteAncestors();
    var wanted: seq<Hash> := [];
    ElementsEmpty(wanted);
    for i := 0 to |remote|
      invariant Elements(wanted) == Elements(remote[..i]) - dag.byHash.Keys
    {
      assert remote[..i + 1] == remote[..i] + [remote[i]];
      ElementsAppend(remote[..i], remote[i]);
      ElementsAppend(wanted, remote[i]);
      if remote[i] !in dag.byHash {
        wanted := wanted + [remote[i]];
      }
    }
    assert remote[..|remote|] == remote;
    ElementsConcat(wanted, own);
    SortDedupIsSorted(wanted + own);
    missing := SortDedup(wanted + own);
    GapsAre(dag.byHash, Elements(remote), missing);
    assert (Elements(remote) + Referenced(dag.byHash)) - dag.byHash.Keys == Elements(wanted) + Elements(own);
  }

  lemma GapsAre(s: History, remote: set<Hash>, missing: seq<Hash>)
    requires Elements(missing) == (remote - s.Keys) + (Referenced(s) - s.Keys)
    ensures missing == [] <==> remote <= s.Keys && AncestorClosed(s)
  {
    ElementsEmpty(missing);
    if AncestorClosed(s) {
      assert Referenced(s) <= s.Keys;
    }
    if missing == [] {
      forall h | h in remote ensures h in s {
        assert h !in s ==> h in Elements(missing);
      }
      forall h, p | h in s && p in s[h].parents ensures p in s {
        assert p in Referenced(s);
        assert p !in s ==> p in Elements(missing);
      }
    }
  }

  // ── bundles ─────────────────────────────────────────────────────────────────

  /** A bundle carries its target, and no delta in it dangles for the receiver. */
  ghost predicate WellFormed(s: History, b: Bundle) {
    && b.target in Hashes(b.deltas)
    && forall d, p :: d in b.deltas && p in d.parents ==> p in s || p in Hashes(b.deltas)
  }

  /** Check a bundle, then insert it; a refused bundle leaves the DAG alone. */
  method MergeBundle(dag: DeltaDag, b: Bundle) returns (r: BundleResult)
    requires dag.Valid()
    modifies dag
    ensures dag.Valid()
    ensures r.Accepted? <==> WellFormed(old(dag.byHash), b)
    ensures dag.byHash == if r.Accepted? then InsertAll(old(dag.byHash), b.deltas) else old(dag.byHash)
    ensures r.Accepted? ==> r.added == |dag.byHash| - |old(dag.byHash)|
  {
    hide Referenced, Frontier;
    var hashes := Hashes(b.deltas);
    if b.target !in hashes {
      return Rejected;
    }
    for i := 0 to |b.deltas|
      invariant dag.Valid() && dag.byHash == old(dag.byHash)
      invariant forall d, p :: d in b.deltas[..i] && p in d.parents ==> p in dag.byHash || p in hashes
    {
      assert b.deltas[..i + 1] == b.deltas[..i] + [b.deltas[i]];
      for j := 0 to |b.deltas[i].parents|
        invariant dag.Valid() && dag.byHash == old(dag.byHash)
        invariant forall p :: p in b.deltas[i].parents[..j] ==> p in dag.byHash || p in hashes
      {
        var p := b.deltas[i].parents[j];
        if p !in dag.byHash && p !in hashes {
          assert b.deltas[i] in b.deltas && p in b.deltas[i].parents;
          return Rejected;
        }
        assert b.deltas[i].parents[..j + 1] == b.deltas[i].parents[..j] + [p];
      }
      assert b.deltas[i].parents[..|b.deltas[i].parents|] == b.deltas[i].parents;
    }
    assert b.deltas[..|b.deltas|] == b.deltas;
    var before := |dag.byHash|;
    InsertEach(dag, b.deltas);
    InsertAllGrows(old(dag.byHash), b.deltas);
    r := Accepted(|dag.byHash| - before);
  }

  method InsertEach(dag: DeltaDag, ds: seq<Delta>)
    requires dag.Valid()
    modifies dag
    ensures dag.Valid() && dag.byHash == InsertAll(old(dag.byHash), ds)
  {
    hide Referenced, Frontier, WellIndexed;
    for i := 0 to |ds|
      invariant dag.Valid() && dag.byHash == InsertAll(old(dag.byHash), ds[..i])
    {
      assert ds[..i + 1][..|ds[..i + 1]| - 1] == ds[..i];
      dag.Insert(ds[i]);
    }
    assert ds[..|ds|] == ds;
  }

  lemma {:induction false} InsertAllGrows(s: History, ds: seq<Delta>)
    ensures s.Keys <= InsertAll(s, ds).Keys && |s| <= |InsertAll(s, ds)|
  {
    if ds != [] {
      InsertAllGrows(s, ds[..|ds| - 1]);
      var t, d := InsertAll(s, ds[..|ds| - 1]), ds[|ds| - 1];
      if d.hash !in t {
        assert With(t, d).Keys == t.Keys + {d.hash};
      }
    }
  }

  /** A bundle extracted against the receiver's frontier is accepted and closes the target's past. */
  lemma BundleRoundTrip(a: History, p: History, target: Hash, ds: seq<Delta>)
    requires AncestorClosed(a) && AncestorClosed(p) && Agree(a, p) && WellIndexed(a) && WellIndexed(p)
    requires target in a && target !in p
    requires ListsExactly(a, Above(a, {target}, Frontier(p)), ds)
    ensures Above(a, {target}, Frontier(p)) <= a.Keys
    ensures WellFormed(p, Bundle(target, ds))
    ensures var q := InsertAll(p, ds);
            && AncestorClosed(q) && Past(a, {target}) <= q.Keys
            && q.Keys == p.Keys + Above(a, {target}, Frontier(p))
            && Agree(a, q)
  {
    hide ListsExactly, InsertAll, Frontier;
    var stop := Frontier(p);
    FrontierIsHeld(p);
    var c := Above(a, {target}, stop);
    AboveIsHeld(a, {target}, stop);
    ListedHashes(a, c, ds);
    AboveIsClosed(a, {target}, stop);
    ListedIsCollisionFree(a, c, ds);
    InsertAllHolds(p, ds);
    var q := InsertAll(p, ds);
    InsertedAgrees(a, p, c, ds);
    forall h, x | h in q && x in q[h].parents ensures x in q {
      if h in p {
        assert q[h] == p[h];
      } else {
        assert h in c && q[h] == a[h];
      }
    }
    BundleDangles(a, p, c, stop, ds);
    PastIsLeast(a, {target}, q.Keys);
  }

  lemma FrontierIsHeld(p: History)
    ensures Frontier(p) <= p.Keys
  {
  }

  lemma AboveIsClosed(a: History, from: set<Hash>, stop: set<Hash>)
    ensures from <= Above(a, from, stop) + stop
    ensures forall h, x :: h in Above(a, from, stop) && h in a && x in a[h].parents ==>
              x in Above(a, from, stop) || x in stop
  {
    hide Past;
    PastIsClosed(a - stop, from);
    forall h, x | h in Above(a, from, stop) && h in a && x in a[h].parents
      ensures x in Above(a, from, stop) || x in stop
    {
      assert h in a - stop && (a - stop)[h] == a[h];
    }
  }

  lemma ListedIsCollisionFree(s: History, c: set<Hash>, ds: seq<Delta>)
    requires ListsExactly(s, c, ds)
    ensures CollisionFree(ds)
  {
  }

  lemma InsertedAgrees(a: History, p: History, c: set<Hash>, ds: seq<Delta>)
    requires Agree(a, p) && WellIndexed(a) && ListsExactly(a, c, ds)
    ensures Agree(a, InsertAll(p, ds))
    ensures forall h :: h in InsertAll(p, ds) && h !in p ==> h in c
  {
    hide InsertAll;
    ListedIsCollisionFree(a, c, ds);
    InsertAllHolds(p, ds);
    var q := InsertAll(p, ds);
    forall h | h in q && h !in p ensures h in c && h in a && q[h] == a[h] {
      var d :| d in ds && d.hash == h;
    }
    assert forall h :: h in p ==> h in q && q[h] == p[h];
  }

  lemma BundleDangles(a: History, p: History, c: set<Hash>, stop: set<Hash>, ds: seq<Delta>)
    requires ListsExactly(a, c, ds) && stop <= p.Keys && Hashes(ds) == c
    requires forall h, x :: h in c && h in a && x in a[h].parents ==> x in c || x in stop
    ensures forall d, x :: d in ds && x in d.parents ==> x in p || x in Hashes(ds)
  {
  }
}
