/** Verified bundle merge: replay in topological order on a working copy. */
module Bundles {
  import opened Deltas
  import opened Histories
  import opened Dag
  import opened Causal
  import opened State
  import opened Documents
  import opened Keys
  import opened Convergence
  import opened Recon
  import opened Kahn
  import Refusals

  /** Index a bundle by hash; a later delta with the same hash replaces the earlier one. */
  function IndexOf(ds: seq<Delta>): History {
    if ds == [] then map[] else IndexOf(ds[..|ds| - 1])[ds[|ds| - 1].hash := ds[|ds| - 1]]
  }

  lemma {:induction false} IndexHolds(ds: seq<Delta>)
    ensures IndexOf(ds).Keys == Hashes(ds) && WellIndexed(IndexOf(ds))
    ensures forall h :: h in IndexOf(ds) ==> IndexOf(ds)[h] in ds
  {
    if ds != [] {
      SplitLast(ds);
      IndexHolds(ds[..|ds| - 1]);
    }
  }

  /** `d` is the last delta of `ds` with its hash. */
  ghost predicate LastCopy(ds: seq<Delta>, d: Delta) {
    exists i :: 0 <= i < |ds| && ds[i] == d && forall j :: i < j < |ds| ==> ds[j].hash != d.hash
  }

  lemma {:induction false} IndexIsLastCopy(ds: seq<Delta>, h: Hash)
    ensures h in IndexOf(ds) ==> IndexOf(ds)[h].hash == h && LastCopy(ds, IndexOf(ds)[h])
    ensures forall d :: LastCopy(ds, d) && d.hash == h ==> h in IndexOf(ds) && IndexOf(ds)[h] == d
  {
    if ds != [] {
      var front, last := ds[..|ds| - 1], ds[|ds| - 1];
      SplitLast(ds);
      IndexIsLastCopy(front, h);
      if last.hash == h {
        assert ds[|ds| - 1] == last;
      } else {
        if h in IndexOf(front) {
          var d := IndexOf(front)[h];
          var i :| 0 <= i < |front| && front[i] == d && forall j :: i < j < |front| ==> front[j].hash != d.hash;
          assert ds[i] == d;
        }
        forall d | LastCopy(ds, d) && d.hash == h ensures LastCopy(front, d) {
          var i :| 0 <= i < |ds| && ds[i] == d && forall j :: i < j < |ds| ==> ds[j].hash != d.hash;
          assert i < |front| && front[i] == d;
        }
      }
    }
  }

  /** Some delta names a parent found neither in the bundle nor in what is held. */
  ghost predicate Dangles(s: History, ds: seq<Delta>) {
    exists d, p :: d in ds && p in d.parents && p !in IndexOf(ds) && p !in s
  }

  /** Merge one bundle delta on the working copy: held ones are skipped, signatures come first. */
  ghost function ReplayOne(doc: Doc, d: Delta): (Doc, Result) {
    if d.hash in Held(doc.log) then (doc, Ok)
    else if !SignatureOk(d, doc.crdt.keys) then (doc, Err(BadProof))
    else Merge(doc, d)
  }

  /** Replay until the first refusal. */
  ghost function Replay(doc: Doc, idx: History, order: seq<Hash>): (Doc, Result)
    requires forall h :: h in order ==> h in idx
  {
    if order == [] then (doc, Ok)
    else
      assert forall h :: h in order[..|order| - 1] ==> h in order;
      var (sofar, r) := Replay(doc, idx, order[..|order| - 1]);
      if r.Err? then (sofar, r) else ReplayOne(sofar, idx[order[|order| - 1]])
  }

  /** A replay only ever appends to the log. */
  lemma {:induction false} ReplayKeepsLog(doc: Doc, idx: History, order: seq<Hash>)
    requires forall h :: h in order ==> h in idx
    ensures |doc.log| <= |Replay(doc, idx, order).0.log|
  {
    hide ReplayOne;
    if order != [] {
      var front := order[..|order| - 1];
      assert forall h :: h in front ==> h in order;
      ReplayKeepsLog(doc, idx, front);
      ReplayOneLog(Replay(doc, idx, front).0, idx[order[|order| - 1]]);
    }
  }

  lemma ReplayOneLog(doc: Doc, d: Delta)
    ensures |doc.log| <= |ReplayOne(doc, d).0.log|
  {
    hide Held, SignatureOk, Decide, Apply;
  }

  lemma OrderIsListed(idx: History)
    ensures forall h :: h in KahnOrder(idx) ==> h in idx
  {
    RunningStart(idx);
    DrainEnds(idx, Sorted(Roots(idx)), []);
  }

  /** The structural checks that precede any replay. */
  ghost predicate Checked(s: History, b: Bundle) {
    b.target in IndexOf(b.deltas) && !Dangles(s, b.deltas) && |KahnOrder(IndexOf(b.deltas))| == |IndexOf(b.deltas)|
  }

  /** The whole operation: new document, result, and number of deltas applied. */
  ghost function MergeVerifiedBundle(doc: Doc, b: Bundle): (Doc, Result, nat) {
    if !Checked(Held(doc.log), b) then
      (doc, Err(DeltaRejected), 0)
    else
      var idx := IndexOf(b.deltas);
      OrderIsListed(idx);
      ReplayKeepsLog(doc, idx, KahnOrder(idx));
      var (working, r) := Replay(doc, idx, KahnOrder(idx));
      if r.Err? then (doc, r, 0) else (working, Ok, |working.log| - |doc.log|)
  }

  /** The order of a bundle's deltas plays no part, as long as their hashes tell them apart. */
  lemma BundleOrderIrrelevant(doc: Doc, target: Hash, ds: seq<Delta>, es: seq<Delta>)
    requires CollisionFree(ds) && forall d :: d in ds <==> d in es
    ensures MergeVerifiedBundle(doc, Bundle(target, ds)) == MergeVerifiedBundle(doc, Bundle(target, es))
  {
    hide Replay, KahnOrder, IndexOf;
    IndexHolds(ds);
    IndexHolds(es);
    assert Hashes(ds) == Hashes(es);
    forall h | h in IndexOf(ds) ensures IndexOf(ds)[h] == IndexOf(es)[h] {
    }
    assert IndexOf(ds) == IndexOf(es);
  }

  /** Outside the pending case, the replay of one delta is one verified step. */
  lemma ReplayOneIsStep(doc: Doc, d: Delta)
    requires d.hash in Held(doc.log) || !VerifyCausal(d, Held(doc.log)).Unknown?
    ensures ReplayOne(doc, d) == Step(doc, d, true)
  {
    hide VerifyCausal, Held, SignatureOk, Merge;
  }

  /** The replay of one delta skips what is held, refuses a proof that fails, and otherwise merges. */
  lemma ReplayAnswers(doc: Doc, d: Delta)
    ensures d.hash in Held(doc.log) ==> ReplayOne(doc, d) == (doc, Ok)
    ensures d.hash !in Held(doc.log) && !Refusals.ProofHolds(d, doc.crdt.keys) ==>
              ReplayOne(doc, d) == (doc, Err(BadProof))
    ensures d.hash !in Held(doc.log) && Refusals.ProofHolds(d, doc.crdt.keys) ==> ReplayOne(doc, d) == Merge(doc, d)
  {
    hide Held, SignatureOk, Merge, Refusals.ProofHolds;
    Refusals.SignatureMeans(d, doc.crdt.keys);
  }

  /** With its parents held, a delta's verdict is resolved. */
  lemma ResolvedWhenGrounded(d: Delta, s: History)
    requires AncestorClosed(s) && Elements(d.parents) <= s.Keys
    ensures !VerifyCausal(d, s).Unknown?
  {
    hide Past, KeyAdded, KeyRevoked, DeactivatedIn, Elements;
    if d.parents != [] {
      HeldPastIsComplete(s, Elements(d.parents));
    }
  }

  /** Every parent of the members of `order` is held already or comes earlier in `order`. */
  ghost predicate Grounded(s: History, idx: History, order: seq<Hash>) {
    forall i :: 0 <= i < |order| ==> order[i] in idx && Elements(idx[order[i]].parents) <= s.Keys + Elements(order[..i])
  }

  lemma GroundedFront(s: History, idx: History, order: seq<Hash>)
    requires Grounded(s, idx, order) && order != []
    ensures Grounded(s, idx, order[..|order| - 1])
    ensures forall h :: h in order ==> h in idx
    ensures Elements(idx[order[|order| - 1]].parents) <= s.Keys + Elements(order[..|order| - 1])
  {
    hide Elements;
    var front := order[..|order| - 1];
    forall i | 0 <= i < |front|
      ensures front[i] in idx && Elements(idx[front[i]].parents) <= s.Keys + Elements(front[..i])
    {
      assert front[..i] == order[..i] && front[i] == order[i];
    }
  }

  /** What replaying one delta whose parents are held does to a document, whatever its state. */
  lemma ReplayOneGrows(doc: Doc, d: Delta)
    requires AncestorClosed(Held(doc.log)) && Elements(d.parents) <= Held(doc.log).Keys
    ensures var (after, r) := ReplayOne(doc, d);
            && after.did == doc.did
            && (r.Err? ==> after == doc && !r.error.DeltaPending?)
            && (r == Ok ==> after.log == if d.hash in Held(doc.log) then doc.log else doc.log + [d])
            && (Mirrored(doc) ==> Mirrored(after))
  {
    hide Held, Elements, SignatureOk, Apply, VerifyCausal, AncestorClosed, Mirrored, FloorRefuses, HasDeactivateDelta;
    ResolvedWhenGrounded(d, Held(doc.log));
    if Mirrored(doc) {
      ReplayOneIsStep(doc, d);
      StepKeepsMirrored(doc, d, true);
    }
  }

  /** `t` is `s` and exactly the deltas behind `hashes` besides. */
  ghost predicate Grown(s: History, t: History, idx: History, hashes: set<Hash>) {
    && t.Keys == s.Keys + hashes && Extends(s, t)
    && (forall h :: h in hashes && h !in s ==> h in idx && t[h] == idx[h])
  }

  lemma GrownStep(s: History, t: History, idx: History, hashes: set<Hash>, h: Hash)
    requires Grown(s, t, idx, hashes) && h in idx && idx[h].hash == h
    ensures Grown(s, With(t, idx[h]), idx, hashes + {h})
    ensures |With(t, idx[h])| == if h in t then |t| else |t| + 1
  {
    if h in t {
      assert With(t, idx[h]) == t;
      assert s.Keys + (hashes + {h}) == t.Keys;
    } else {
      GrownByOne(s, t, idx, hashes, h);
      OneMore(t, h, idx[h]);
    }
  }

  lemma GrownByOne(s: History, t: History, idx: History, hashes: set<Hash>, h: Hash)
    requires Grown(s, t, idx, hashes) && h in idx && h !in t
    ensures Grown(s, t[h := idx[h]], idx, hashes + {h})
  {
    var more := t[h := idx[h]];
    assert more.Keys == t.Keys + {h} == s.Keys + (hashes + {h});
    assert Extends(s, more);
    forall k | k in hashes + {h} && k !in s ensures k in idx && more[k] == idx[k] {
      assert k == h || k in hashes;
    }
  }

  lemma OneMore(t: History, h: Hash, d: Delta)
    requires h !in t
    ensures |t[h := d]| == |t| + 1
  {
    assert t[h := d].Keys == t.Keys + {h};
    assert |t[h := d]| == |t[h := d].Keys| && |t| == |t.Keys|;
  }

  /**
   * Replaying a grounded order on an ancestor-closed document never stops on a pending delta, and on success holds
   * exactly the order besides.
   */
  lemma {:induction false} ReplayGrows(doc: Doc, idx: History, order: seq<Hash>)
    requires AncestorClosed(Held(doc.log)) && WellIndexed(idx) && Grounded(Held(doc.log), idx, order)
    requires forall h :: h in order ==> h in idx
    ensures var (after, r) := Replay(doc, idx, order);
            && after.did == doc.did
            && AncestorClosed(Held(after.log))
            && (r.Err? ==> !r.error.DeltaPending?)
            && (r == Ok ==> Grown(Held(doc.log), Held(after.log), idx, Elements(order)))
            && (r == Ok ==> |after.log| - |doc.log| == |Held(after.log)| - |Held(doc.log)|)
            && (Mirrored(doc) ==> Mirrored(after))
  {
    hide Mirrored, Held, Elements, Grounded, ReplayOne, AncestorClosed, Grown, With;
    if order == [] {
      ElementsEmpty(order);
      assert Grown(Held(doc.log), Held(doc.log), idx, {}) by { GrownNot(Held(doc.log), idx); }
    } else {
      var front, h := order[..|order| - 1], order[|order| - 1];
      SplitLast(order);
      ElementsAppend(front, h);
      GroundedFront(Held(doc.log), idx, order);
      ReplayGrows(doc, idx, front);
      var (mid, r) := Replay(doc, idx, front);
      if r == Ok {
        GrownKeys(Held(doc.log), Held(mid.log), idx, Elements(front));
        ReplayOneGrows(mid, idx[h]);
        GrownStep(Held(doc.log), Held(mid.log), idx, Elements(front), h);
        HeldAppend(mid.log, idx[h]);
        ClosedWith(Held(mid.log), idx[h]);
        WithHeld(Held(mid.log), idx[h]);
      }
    }
  }

  lemma GrownNot(s: History, idx: History)
    ensures Grown(s, s, idx, {})
  {
  }

  lemma GrownKeys(s: History, t: History, idx: History, hashes: set<Hash>)
    requires Grown(s, t, idx, hashes)
    ensures t.Keys == s.Keys + hashes
  {
  }

  lemma WithHeld(s: History, d: Delta)
    ensures d.hash in s ==> With(s, d) == s
  {
  }

  /** The deltas behind a list of hashes. */
  function Listed(idx: History, order: seq<Hash>): seq<Delta>
    requires forall h :: h in order ==> h in idx
  {
    seq(|order|, i requires 0 <= i < |order| => assert order[i] in order; idx[order[i]])
  }

  /** A replay that succeeds is a verified delivery of the listed deltas. */
  lemma {:induction false} ReplayIsDelivery(doc: Doc, idx: History, order: seq<Hash>)
    requires AncestorClosed(Held(doc.log)) && WellIndexed(idx) && Grounded(Held(doc.log), idx, order)
    requires (forall h :: h in order ==> h in idx) && Replay(doc, idx, order).1 == Ok
    ensures Replay(doc, idx, order).0 == Deliver(doc, Listed(idx, order), true)
  {
    hide Held, Elements, Grounded, ReplayOne, AncestorClosed, Step, WellIndexed, Mirrored, Grown;
    if order != [] {
      var front, h := order[..|order| - 1], order[|order| - 1];
      SplitLast(order);
      GroundedFront(Held(doc.log), idx, order);
      ReplayIsDelivery(doc, idx, front);
      ReplayGrows(doc, idx, front);
      var mid := Replay(doc, idx, front).0;
      GrownKeys(Held(doc.log), Held(mid.log), idx, Elements(front));
      ResolvedWhenGrounded(idx[h], Held(mid.log));
      ReplayOneIsStep(mid, idx[h]);
      assert Listed(idx, order) == Listed(idx, front) + [idx[h]];
      DeliverAppend(doc, Listed(idx, front), idx[h], true);
    }
  }

  /** A bundle that passes the structural checks is grounded in topological order. */
  lemma CheckedIsGrounded(s: History, ds: seq<Delta>)
    requires !Dangles(s, ds) && |KahnOrder(IndexOf(ds))| == |IndexOf(ds)|
    ensures Grounded(s, IndexOf(ds), KahnOrder(IndexOf(ds)))
    ensures Elements(KahnOrder(IndexOf(ds))) == Hashes(ds)
  {
    hide KahnOrder, IndexOf;
    var idx := IndexOf(ds);
    IndexHolds(ds);
    KahnIsCorrect(idx);
    var order := KahnOrder(idx);
    forall i | 0 <= i < |order|
      ensures order[i] in idx && Elements(idx[order[i]].parents) <= s.Keys + Elements(order[..i])
    {
      assert order[i] in Elements(order);
      forall p | p in idx[order[i]].parents ensures p in s.Keys + Elements(order[..i]) {
        assert p in idx || p in s;
        if p in idx {
          assert p in order[..i];
        }
      }
    }
  }

  /** `t` is `s` and exactly the bundle's deltas besides. */
  ghost predicate GrownBy(s: History, t: History, ds: seq<Delta>) {
    Grown(s, t, IndexOf(ds), Hashes(ds))
  }

  /** Verified bundle merge, split into its cases. */
  lemma MergeBundleCases(doc: Doc, b: Bundle)
    requires forall h :: h in KahnOrder(IndexOf(b.deltas)) ==> h in IndexOf(b.deltas)
    ensures !Checked(Held(doc.log), b) ==> MergeVerifiedBundle(doc, b) == (doc, Err(DeltaRejected), 0)
    ensures Checked(Held(doc.log), b) ==>
              var (working, r) := Replay(doc, IndexOf(b.deltas), KahnOrder(IndexOf(b.deltas)));
              && |doc.log| <= |working.log|
              && MergeVerifiedBundle(doc, b) == if r.Err? then (doc, r, 0) else (working, Ok, |working.log| - |doc.log|)
  {
    hide KahnOrder, IndexOf, Replay, Checked, Held;
    ReplayKeepsLog(doc, IndexOf(b.deltas), KahnOrder(IndexOf(b.deltas)));
  }

  /** What the replay of a checked bundle leaves on the working copy. */
  lemma CheckedReplay(doc: Doc, b: Bundle)
    requires AncestorClosed(Held(doc.log)) && Checked(Held(doc.log), b)
    requires forall h :: h in KahnOrder(IndexOf(b.deltas)) ==> h in IndexOf(b.deltas)
    ensures var (working, r) := Replay(doc, IndexOf(b.deltas), KahnOrder(IndexOf(b.deltas)));
            && working.did == doc.did && AncestorClosed(Held(working.log))
            && (r.Err? ==> !r.error.DeltaPending?)
            && (r == Ok ==>
                && GrownBy(Held(doc.log), Held(working.log), b.deltas)
                && |working.log| - |doc.log| == |Hashes(b.deltas) - Held(doc.log).Keys|)
  {
    hide Held, KahnOrder, Elements, IndexOf, Replay, Grounded, Dangles, AncestorClosed, Mirrored;
    var idx := IndexOf(b.deltas);
    IndexHolds(b.deltas);
    CheckedIsGrounded(Held(doc.log), b.deltas);
    ReplayGrows(doc, idx, KahnOrder(idx));
    var working := Replay(doc, idx, KahnOrder(idx)).0;
    KeysGrowBy(Held(doc.log).Keys, Held(working.log).Keys, Hashes(b.deltas));
    assert |Held(doc.log)| == |Held(doc.log).Keys| && |Held(working.log)| == |Held(working.log).Keys|;
  }

  /**
   * On every ancestor-closed document verified bundle merge is atomic, never pending, and on success leaves exactly old
   * plus bundle.
   */
  lemma BundleIsAtomic(doc: Doc, b: Bundle)
    requires AncestorClosed(Held(doc.log))
    ensures var (after, r, n) := MergeVerifiedBundle(doc, b);
            && after.did == doc.did && AncestorClosed(Held(after.log))
            && (r.Err? ==> after == doc && n == 0 && !r.error.DeltaPending?)
            && (r == Ok ==>
                && GrownBy(Held(doc.log), Held(after.log), b.deltas)
                && n == |Hashes(b.deltas) - Held(doc.log).Keys|)
  {
    hide Held, KahnOrder, IndexOf, Replay, Checked, MergeVerifiedBundle, GrownBy, AncestorClosed;
    OrderIsListed(IndexOf(b.deltas));
    MergeBundleCases(doc, b);
    if Checked(Held(doc.log), b) {
      CheckedReplay(doc, b);
    }
  }

  /** The bundle carries its target, names no parent found nowhere, and has no parent cycle among its (last) copies. */
  ghost predicate WellStructured(s: History, b: Bundle) {
    && (exists d :: d in b.deltas && d.hash == b.target)
    && (forall d, p :: d in b.deltas && p in d.parents ==> p in s || exists e :: e in b.deltas && e.hash == p)
    && !exists c :: Cyclic(b.deltas, c)
  }

  /** A non-empty set of bundle hashes in which every (last) copy names a parent from the set. */
  ghost predicate Cyclic(ds: seq<Delta>, c: set<Hash>) {
    c != {} && forall h :: h in c ==> Returns(ds, h, c)
  }

  ghost predicate Returns(ds: seq<Delta>, h: Hash, c: set<Hash>) {
    exists d :: LastCopy(ds, d) && d.hash == h && exists p :: p in d.parents && p in c
  }

  lemma ReturnsIsWaits(ds: seq<Delta>, h: Hash, c: set<Hash>)
    ensures Returns(ds, h, c) <==> h in IndexOf(ds) && Waits(IndexOf(ds), h, c)
  {
    hide IndexOf, LastCopy;
    IndexIsLastCopy(ds, h);
    if Returns(ds, h, c) {
      var d :| LastCopy(ds, d) && d.hash == h && exists p :: p in d.parents && p in c;
      assert IndexOf(ds)[h] == d;
    }
    if h in IndexOf(ds) && Waits(IndexOf(ds), h, c) {
      assert LastCopy(ds, IndexOf(ds)[h]);
    }
  }

  lemma CyclicIsStuck(ds: seq<Delta>, c: set<Hash>)
    ensures Cyclic(ds, c) <==> Stuck(IndexOf(ds), c)
  {
    hide IndexOf, Returns, Waits;
    forall h | h in c ensures Returns(ds, h, c) <==> h in IndexOf(ds) && Waits(IndexOf(ds), h, c) {
      ReturnsIsWaits(ds, h, c);
    }
  }

  /** The structural checks pass exactly on well-structured bundles. */
  lemma CheckedIff(s: History, b: Bundle)
    ensures Checked(s, b) <==> WellStructured(s, b)
  {
    hide KahnOrder, IndexOf, Stuck, Cyclic;
    var idx := IndexOf(b.deltas);
    IndexHolds(b.deltas);
    KahnIsCorrect(idx);
    assert (exists c :: Cyclic(b.deltas, c)) <==> (exists c :: Stuck(idx, c)) by {
      if c :| Cyclic(b.deltas, c) {
        CyclicIsStuck(b.deltas, c);
      }
      if c :| Stuck(idx, c) {
        CyclicIsStuck(b.deltas, c);
      }
    }
    assert b.target in idx <==> exists d :: d in b.deltas && d.hash == b.target;
    forall p ensures p in idx <==> exists e :: e in b.deltas && e.hash == p {
    }
  }

  /** A bundle that is not well structured is refused outright; any other is answered by its replay. */
  lemma BundleAnswers(doc: Doc, b: Bundle)
    ensures !WellStructured(Held(doc.log), b) ==> MergeVerifiedBundle(doc, b) == (doc, Err(DeltaRejected), 0)
    ensures MergeVerifiedBundle(doc, b).1 == Ok ==> WellStructured(Held(doc.log), b)
  {
    hide Held, KahnOrder, IndexOf, Replay, Checked, MergeVerifiedBundle, WellStructured;
    CheckedIff(Held(doc.log), b);
    OrderIsListed(IndexOf(b.deltas));
    MergeBundleCases(doc, b);
  }

  /** A verified bundle merge is a verified delivery of deltas of the bundle. */
  lemma BundleIsDelivery(doc: Doc, b: Bundle) returns (es: seq<Delta>)
    requires AncestorClosed(Held(doc.log))
    ensures MergeVerifiedBundle(doc, b).0 == Deliver(doc, es, true)
    ensures forall d :: d in es ==> d in b.deltas
  {
    hide Held, KahnOrder, IndexOf, Replay, Step, MergeVerifiedBundle, AncestorClosed, Dangles, Elements, Grounded;
    var idx := IndexOf(b.deltas);
    IndexHolds(b.deltas);
    OrderIsListed(idx);
    MergeBundleCases(doc, b);
    es := [];
    if Checked(Held(doc.log), b) && Replay(doc, idx, KahnOrder(idx)).1 == Ok {
      CheckedIsGrounded(Held(doc.log), b.deltas);
      ReplayIsDelivery(doc, idx, KahnOrder(idx));
      es := Listed(idx, KahnOrder(idx));
    }
  }

  /** So it keeps a log admitted, and the state in closed form. */
  lemma BundleKeepsSound(doc: Doc, g: Delta, b: Bundle, checked: bool)
    requires Sound(doc, g, checked)
    ensures Sound(MergeVerifiedBundle(doc, b).0, g, checked)
    ensures Reflects(doc.crdt, Held(doc.log)) && DistinctStamps(Held(MergeVerifiedBundle(doc, b).0.log)) ==>
              Reflects(MergeVerifiedBundle(doc, b).0.crdt, Held(MergeVerifiedBundle(doc, b).0.log))
  {
    hide Sound, Mirrored, Held, Deliver, Reflects, MergeVerifiedBundle, DistinctStamps, AncestorClosed, AdmittedLog;
    SoundIsMirrored(doc, g, checked);
    var es := BundleIsDelivery(doc, b);
    DeliverKeepsSound(doc, g, es, true, checked);
    if Reflects(doc.crdt, Held(doc.log)) && DistinctStamps(Held(MergeVerifiedBundle(doc, b).0.log)) {
      DeliverReflects(doc, es, true);
    }
  }

  lemma KeysGrowBy(s: set<Hash>, t: set<Hash>, c: set<Hash>)
    ensures s <= t ==> |s| <= |t|
    ensures t == s + c ==> |t| == |s| + |c - s|
  {
    if s <= t {
      assert t == s + (t - s) && |s + (t - s)| == |s| + |t - s|;
    }
    if t == s + c {
      assert t == s + (c - s) && |s + (c - s)| == |s| + |c - s|;
    }
  }

  // ── honest bundles ──────────────────────────────────────────────────────────

  /** A delta admitted by one replica is admissible to any other that holds its parents. */
  lemma AdmissibleShared(did: Did, d: Delta, s: History, t: History, u: History, verified: bool)
    requires Admissible(did, d, s, verified) && s != map[] && t != map[] && d.parents != []
    requires AncestorClosed(s) && AncestorClosed(t) && Extends(s, u) && Extends(t, u) && Elements(d.parents) <= t.Keys
    requires verified ==> LowerKeysFirst(u)
    ensures Admissible(did, d, t, verified)
  {
    hide Admissible, Elements, LowerKeysFirst, KeysSettled, AncestorClosed, Extends;
    if verified {
      ClosedIsSettled(s, u);
      ClosedIsSettled(t, u);
    }
    AdmissibleStable(did, d, s, u, verified);
    AdmissibleBack(did, d, t, u, verified);
  }

  /** Every delta of an admitted log but genesis is admissible to the whole of it. */
  lemma {:induction false} HeldIsAdmissible(did: Did, g: Delta, log: seq<Delta>, h: Hash, verified: bool)
    requires AdmittedLog(did, g, log, verified) && h in Held(log) && h != g.hash
    requires verified ==> LowerKeysFirst(Held(log))
    ensures Held(log)[h].parents != [] && Admissible(did, Held(log)[h], Held(log), verified)
  {
    hide Admissible, Held, AdmittedLog, AncestorClosed, WellIndexed, LowerKeysFirst, KeysSettled, With, Extends,
         Complete, Elements;
    AdmittedIsGrounded(did, g, log, verified);
    OnlyGenesisIsAlone(did, g, log, h, verified);
    var front, last := log[..|log| - 1], log[|log| - 1];
    AdmittedLast(did, g, log, verified);
    AdmittedIsGrounded(did, g, front, verified);
    LastIsGrounded(did, last, Held(front), verified);
    WithExtends(Held(front), last);
    if verified {
      LowerKeysOfPart(Held(front), Held(log));
      ClosedIsSettled(Held(front), Held(log));
    }
    if h in Held(front) {
      HeldIsAdmissible(did, g, front, h, verified);
      AdmissibleStable(did, Held(front)[h], Held(front), Held(log), verified);
    } else {
      AdmissibleStable(did, last, Held(front), Held(log), verified);
    }
  }

  /** Deltas taken from an admitted log replay without a refusal. */
  lemma {:induction false} HonestReplay(a: Doc, b: Doc, g: Delta, idx: History, order: seq<Hash>)
    requires Feeds(a, b, g, true) && Extends(idx, Held(a.log)) && WellIndexed(idx)
    requires Grounded(Held(b.log), idx, order) && forall h :: h in order ==> h in idx
    ensures Replay(b, idx, order).1 == Ok
  {
    hide Mirrored, Held, Elements, Grounded, Step, ReplayOne, WellIndexed, LowerKeysFirst, AdmittedLog, AncestorClosed;
    if order != [] {
      var front, h := order[..|order| - 1], order[|order| - 1];
      SplitLast(order);
      GroundedFront(Held(b.log), idx, order);
      HonestReplay(a, b, g, idx, front);
      ReplayGrows(b, idx, front);
      var mid := Replay(b, idx, front).0;
      MidWithin(Held(a.log), Held(b.log), Held(mid.log), idx, Elements(front));
      IndexedAt(idx, h);
      HonestLast(a, mid, g, idx[h], Held(a.log) + Held(b.log));
    }
  }

  lemma IndexedAt(idx: History, h: Hash)
    requires WellIndexed(idx) && h in idx
    ensures idx[h].hash == h
  {
  }

  lemma MidWithin(s: History, t: History, m: History, idx: History, c: set<Hash>)
    requires Agree(s, t) && Extends(idx, s) && Grown(t, m, idx, c)
    ensures Extends(s, s + t) && Extends(m, s + t) && m.Keys == t.Keys + c
  {
  }

  lemma HonestLast(a: Doc, mid: Doc, g: Delta, d: Delta, u: History)
    requires AdmittedLog(a.did, g, a.log, true) && a.did == mid.did
    requires Mirrored(mid) && AncestorClosed(Held(mid.log)) && g.hash in Held(mid.log)
    requires Extends(Held(a.log), u) && Extends(Held(mid.log), u) && LowerKeysFirst(u)
    requires d.hash in Held(a.log) && Held(a.log)[d.hash] == d && Elements(d.parents) <= Held(mid.log).Keys
    ensures ReplayOne(mid, d).1 == Ok
  {
    hide Mirrored, Held, Elements, Step, ReplayOne, Admissible, LowerKeysFirst, AdmittedLog, AncestorClosed,
         VerifyCausal, Apply, Extends, WellIndexed;
    var s, m := Held(a.log), Held(mid.log);
    if d.hash in m {
      DuplicateIsOk(mid, d);
    } else {
      AdmittedIsGrounded(a.did, g, a.log, true);
      ResolvedWhenGrounded(d, m);
      ReplayOneIsStep(mid, d);
      StepAdmits(mid, d, true);
      LowerKeysOfPart(s, u);
      HeldIsAdmissible(a.did, g, a.log, d.hash, true);
      AdmissibleShared(a.did, d, s, m, u, true);
    }
  }

  lemma DuplicateIsOk(doc: Doc, d: Delta)
    requires d.hash in Held(doc.log)
    ensures ReplayOne(doc, d).1 == Ok
  {
    hide Held;
  }

  /** No delta of an admitted log lies on a parent cycle. */
  lemma {:induction false} LogAvoidsCycles(did: Did, g: Delta, log: seq<Delta>, s: History, idx: History, c: set<Hash>,
                                           verified: bool)
    requires AdmittedLog(did, g, log, verified) && Extends(Held(log), s) && Extends(idx, s) && Stuck(idx, c)
    ensures c !! Held(log).Keys
  {
    hide Admissible, Held, AdmittedLog, AncestorClosed, WellIndexed, Stuck, With, Complete, Elements, Extends;
    AdmittedIsGrounded(did, g, log, verified);
    if |log| == 1 {
      HeldOne(g);
      assert log == [g];
      PartAt(Held(log), s, g.hash);
      ElementsEmpty(g.parents);
      NotOnCycle(s, idx, c, g.hash, {});
    } else {
      var front, last := log[..|log| - 1], log[|log| - 1];
      AdmittedLast(did, g, log, verified);
      AdmittedIsGrounded(did, g, front, verified);
      LastIsGrounded(did, last, Held(front), verified);
      WithExtends(Held(front), last);
      PartAt(Held(log), s, last.hash);
      ExtendsThrough(Held(front), Held(log), s);
      LogAvoidsCycles(did, g, front, s, idx, c, verified);
      NotOnCycle(s, idx, c, last.hash, Held(front).Keys);
    }
  }

  lemma NotOnCycle(s: History, idx: History, c: set<Hash>, h: Hash, safe: set<Hash>)
    requires Extends(idx, s) && Stuck(idx, c) && h in s && Elements(s[h].parents) <= safe && safe !! c
    ensures h !in c
  {
    assert forall k :: k in c ==> k in idx && idx[k] == s[k];
    assert forall p :: p in s[h].parents ==> p in Elements(s[h].parents);
  }

  lemma AdmittedHasNoCycle(did: Did, g: Delta, log: seq<Delta>, idx: History, verified: bool)
    requires AdmittedLog(did, g, log, verified) && Extends(idx, Held(log))
    ensures |KahnOrder(idx)| == |idx|
  {
    hide Held, KahnOrder, AdmittedLog;
    KahnIsCorrect(idx);
    forall c ensures !Stuck(idx, c) {
      if Stuck(idx, c) {
        LogAvoidsCycles(did, g, log, Held(log), idx, c, verified);
      }
    }
  }

  /** A bundle of admitted deltas that reaches the receiver's holdings is always accepted. */
  lemma HonestBundleMerges(a: Doc, b: Doc, g: Delta, bundle: Bundle)
    requires Feeds(a, b, g, true)
    requires forall d :: d in bundle.deltas ==> d.hash in Held(a.log) && Held(a.log)[d.hash] == d
    requires WellFormed(Held(b.log), bundle)
    ensures MergeVerifiedBundle(b, bundle).1 == Ok
    ensures Held(MergeVerifiedBundle(b, bundle).0.log).Keys == Held(b.log).Keys + Hashes(bundle.deltas)
    ensures Extends(Held(MergeVerifiedBundle(b, bundle).0.log), Held(a.log) + Held(b.log))
  {
    hide Held, KahnOrder, Elements, IndexOf, Replay, Grounded, LowerKeysFirst, Dangles, WellFormed, MergeVerifiedBundle,
         GrownBy, Checked, AdmittedLog, AncestorClosed, Mirrored;
    var idx := IndexOf(bundle.deltas);
    IndexHolds(bundle.deltas);
    OrderIsListed(idx);
    assert Extends(idx, Held(a.log));
    AdmittedHasNoCycle(a.did, g, a.log, idx, true);
    WellFormedIsChecked(Held(b.log), bundle);
    CheckedIsGrounded(Held(b.log), bundle.deltas);
    HonestReplay(a, b, g, idx, KahnOrder(idx));
    MergeBundleCases(b, bundle);
    CheckedReplay(b, bundle);
    GrownWithin(Held(a.log), Held(b.log), Held(MergeVerifiedBundle(b, bundle).0.log), bundle.deltas);
  }

  lemma GrownWithin(s: History, t: History, m: History, ds: seq<Delta>)
    requires Agree(s, t) && Extends(IndexOf(ds), s) && GrownBy(t, m, ds)
    ensures m.Keys == t.Keys + Hashes(ds) && Extends(m, s + t)
  {
    hide IndexOf;
    IndexHolds(ds);
  }

  lemma WellFormedIsChecked(s: History, b: Bundle)
    requires WellFormed(s, b) && |KahnOrder(IndexOf(b.deltas))| == |IndexOf(b.deltas)|
    ensures Checked(s, b) && !Dangles(s, b.deltas)
  {
    hide KahnOrder, IndexOf;
    IndexHolds(b.deltas);
  }
}
