/** Two ways to converge: joining states, and replaying logs. */
module Replicas {
  import opened Deltas
  import opened Histories
  import opened Dag
  import opened Causal
  import opened State
  import opened StateLaws
  import opened Documents
  import opened Keys
  import opened Convergence

  /** Push the deltas whose hash is new. */
  function AppendNew(log: seq<Delta>, ds: seq<Delta>): seq<Delta> {
    if ds == [] then log
    else
      var sofar, d := AppendNew(log, ds[..|ds| - 1]), ds[|ds| - 1];
      if d.hash in Held(sofar) then sofar else sofar + [d]
  }

  function MergeState(a: Doc, b: Doc): (Doc, Result) {
    if b.did != a.did then (a, Err(DeltaRejected))
    else (Doc(a.did, JoinState(a.crdt, b.crdt), AppendNew(a.log, b.log)), Ok)
  }

  /** State of another DID is refused and leaves the document alone; state of the same DID is always taken in. */
  lemma StateMergeAnswers(a: Doc, b: Doc)
    ensures a.did != b.did ==> MergeState(a, b) == (a, Err(DeltaRejected))
    ensures MergeState(a, b).1 == Ok <==> a.did == b.did
    ensures MergeState(a, b).0.did == a.did
    ensures a.did == b.did ==> forall d :: d in a.log ==> d in MergeState(a, b).0.log
    ensures a.did == b.did ==> forall d :: d in b.log ==> d.hash in Held(MergeState(a, b).0.log)
  {
    hide JoinState, Held;
    if a.did == b.did {
      AppendNewKeeps(a.log, b.log);
    }
  }

  lemma {:induction false} AppendNewKeeps(log: seq<Delta>, ds: seq<Delta>)
    ensures forall d :: d in log ==> d in AppendNew(log, ds)
    ensures forall d :: d in ds ==> d.hash in Held(AppendNew(log, ds))
  {
    hide Held;
    if ds != [] {
      var front, last := ds[..|ds| - 1], ds[|ds| - 1];
      SplitLast(ds);
      AppendNewKeeps(log, front);
      HeldAppend(AppendNew(log, front), last);
      WithExtends(Held(AppendNew(log, front)), last);
    }
  }

  lemma {:induction false} AppendNewHolds(log: seq<Delta>, ds: seq<Delta>)
    ensures Held(AppendNew(log, ds)) == InsertAll(Held(log), ds)
  {
    hide Held;
    if ds != [] {
      AppendNewHolds(log, ds[..|ds| - 1]);
      HeldAppend(AppendNew(log, ds[..|ds| - 1]), ds[|ds| - 1]);
    }
  }

  lemma {:induction false} InsertAllUnion(s: History, log: seq<Delta>)
    requires Agree(s, Held(log))
    ensures InsertAll(s, log) == s + Held(log)
  {
    if log == [] {
      assert s + map[] == s;
    } else {
      var front, last := log[..|log| - 1], log[|log| - 1];
      InsertAllUnion(s, front);
      UnionWith(s, Held(front), last);
    }
  }

  lemma UnionWith(s: History, t: History, d: Delta)
    requires Agree(s, With(t, d))
    ensures With(s + t, d) == s + With(t, d)
  {
    assert (With(s + t, d)).Keys == (s + With(t, d)).Keys;
  }

  lemma MergedHolds(a: Doc, b: Doc)
    requires a.did == b.did && Agree(Held(a.log), Held(b.log))
    ensures Held(MergeState(a, b).0.log) == Held(a.log) + Held(b.log)
  {
    hide Held, InsertAll;
    AppendNewHolds(a.log, b.log);
    InsertAllUnion(Held(a.log), b.log);
  }

  /** Importing state never leaves a fact without its delta, if neither side had one. */
  lemma StateMergeKeepsBacking(a: Doc, b: Doc)
    requires a.did == b.did && Agree(Held(a.log), Held(b.log))
    requires FactsBacked(a.crdt, Held(a.log)) && FactsBacked(b.crdt, Held(b.log))
    ensures FactsBacked(MergeState(a, b).0.crdt, Held(MergeState(a, b).0.log))
    ensures a.crdt.keys + b.crdt.keys == MergeState(a, b).0.crdt.keys
  {
    hide Held, AppendNew, Orswots.Join, JoinData, Registers.Join;
    MergedHolds(a, b);
    var s, t := Held(a.log), Held(b.log);
    BackingGrows(s, s + t);
    BackingGrows(t, s + t);
  }

  /** Delivering an admitted log to a document that holds its genesis admits all of it. */
  lemma LogReplays(a: Doc, b: Doc, g: Delta, verified: bool)
    requires Feeds(b, a, g, verified)
    ensures Deliver(a, b.log, verified).log == AppendNew(a.log, b.log)
    ensures Held(Deliver(a, b.log, verified).log) == Held(a.log) + Held(b.log)
  {
    hide Mirrored, Held, AdmittedLog, AncestorClosed, LowerKeysFirst, Deliver;
    assert Held(a.log) + Held(b.log) == Held(b.log) + Held(a.log);
    PrefixReplays(a, g, b.log, verified);
  }

  lemma {:induction false} PrefixReplays(a: Doc, g: Delta, log: seq<Delta>, verified: bool)
    requires Mirrored(a) && AncestorClosed(Held(a.log)) && g.hash in Held(a.log)
    requires AdmittedLog(a.did, g, log, verified) && Agree(Held(a.log), Held(log))
    requires verified ==> LowerKeysFirst(Held(a.log) + Held(log))
    ensures Deliver(a, log, verified).log == AppendNew(a.log, log)
    ensures Held(Deliver(a, log, verified).log) == Held(a.log) + Held(log)
  {
    hide Mirrored, Admissible, Held, Step, AdmittedLog, AncestorClosed, WellIndexed, LowerKeysFirst, KeysSettled;
    AdmittedIsGrounded(a.did, g, log, verified);
    AppendNewHolds(a.log, log);
    InsertAllUnion(Held(a.log), log);
    var front, last := log[..|log| - 1], log[|log| - 1];
    SplitLast(log);
    DeliverAppend(a, front, last, verified);
    DeliverGrows(a, front, verified);
    var mid := Deliver(a, front, verified);
    StepAdmits(mid, last, verified);
    if |log| == 1 {
      assert front == [] && last == g;
    } else {
      AdmittedLast(a.did, g, log, verified);
      AdmittedIsGrounded(a.did, g, front, verified);
      PrefixAgrees(Held(a.log), Held(front), last);
      UnionIsClosed(Held(a.log), Held(front));
      if verified {
        LowerKeysOfPart(Held(a.log) + Held(front), Held(a.log) + Held(log));
      }
      PrefixReplays(a, g, front, verified);
      if last.hash !in Held(mid.log) {
        if verified {
          ClosedIsSettled(Held(front), Held(mid.log));
        }
        AdmissibleStable(a.did, last, Held(front), Held(mid.log), verified);
      }
    }
  }

  lemma PrefixAgrees(s: History, t: History, d: Delta)
    requires Agree(s, With(t, d))
    ensures Agree(s, t) && Extends(t, s + t) && Extends(s + t, s + With(t, d))
  {
  }

  /** Joining states keeps the log admitted and every field but the endpoints in closed form, gaps or not. */
  lemma StateMergeKeepsSound(a: Doc, b: Doc, g: Delta, verified: bool)
    requires Feeds(b, a, g, verified) && PlainReflects(b.crdt, Held(b.log))
    ensures MergeState(a, b).0.log == Deliver(a, b.log, verified).log
    ensures Held(MergeState(a, b).0.log) == Held(a.log) + Held(b.log)
    ensures PlainReflects(MergeState(a, b).0.crdt, Held(a.log) + Held(b.log))
    ensures Sound(a, g, verified) ==> Sound(MergeState(a, b).0, g, verified)
  {
    hide PlainReflects, Held, Deliver, AppendNew, JoinState, AncestorClosed, AdmittedLog, LowerKeysFirst;
    LogReplays(a, b, g, verified);
    MergedHolds(a, b);
    PlainJoin(a.crdt, b.crdt, Held(a.log), Held(b.log));
    if Sound(a, g, verified) {
      DeliverKeepsSound(a, g, b.log, verified, verified);
    }
  }

  /** Joining two replicas is replaying one log into the other, exactly when neither side skips a dot. */
  lemma StateMergeIsReplayIff(a: Doc, b: Doc, g: Delta, verified: bool)
    requires Feeds(b, a, g, verified)
    requires Reflects(a.crdt, Held(a.log)) && Reflects(b.crdt, Held(b.log)) && Unambiguous(Held(a.log) + Held(b.log))
    ensures MergeState(a, b).0.log == Deliver(a, b.log, verified).log
    ensures Held(MergeState(a, b).0.log) == Held(a.log) + Held(b.log)
    ensures MergeState(a, b).0 == Deliver(a, b.log, verified) <==>
              GapFree(Held(a.log), Held(b.log)) && GapFree(Held(b.log), Held(a.log))
    ensures Reflects(Deliver(a, b.log, verified).crdt, Held(a.log) + Held(b.log))
  {
    hide Mirrored, Reflects, Held, GapFree, Deliver, AppendNew, Unambiguous, JoinState, AncestorClosed, AdmittedLog,
         DistinctStamps, LowerKeysFirst, WellIndexed;
    LogReplays(a, b, g, verified);
    MergedHolds(a, b);
    AdmittedIsGrounded(b.did, g, b.log, verified);
    var s, t, replayed := Held(a.log), Held(b.log), Deliver(a, b.log, verified);
    UnambiguousStamps(s + t);
    DeliverGrows(a, b.log, verified);
    DeliverReflects(a, b.log, verified);
    JoinIsReplayIff(a.crdt, b.crdt, s, t);
    if Reflects(JoinState(a.crdt, b.crdt), s + t) {
      ClosedFormUnique(JoinState(a.crdt, b.crdt), replayed.crdt, s + t);
    }
  }

  /** Nodes that chain their service deltas make the two routes agree. */
  lemma ChainedStateMergeIsReplay(a: Doc, b: Doc, g: Delta, verified: bool)
    requires Feeds(b, a, g, verified)
    requires Reflects(a.crdt, Held(a.log)) && Reflects(b.crdt, Held(b.log)) && Unambiguous(Held(a.log) + Held(b.log))
    requires ServiceChain(Held(a.log) + Held(b.log))
    ensures MergeState(a, b).0 == Deliver(a, b.log, verified)
    ensures Reflects(MergeState(a, b).0.crdt, Held(a.log) + Held(b.log))
  {
    hide Mirrored, Reflects, Held, GapFree, Deliver, AppendNew, Unambiguous, JoinState, AncestorClosed, AdmittedLog,
         ServiceChain, LowerKeysFirst, WellIndexed;
    AdmittedIsGrounded(b.did, g, b.log, verified);
    var s, t := Held(a.log), Held(b.log);
    ChainIsGapFree(s, t);
    assert s + t == t + s;
    ChainIsGapFree(t, s);
    StateMergeIsReplayIff(a, b, g, verified);
  }

  // ── the state join is a semilattice ─────────────────────────────────────────

  /** The state is drawn from the log: what every route of deltas and joins keeps, skipped dots included. */
  ghost predicate Drawn(doc: Doc) {
    DrawnFrom(doc.crdt, Held(doc.log))
  }

  lemma StepKeepsDrawn(doc: Doc, d: Delta, verified: bool)
    requires Drawn(doc)
    ensures Drawn(Step(doc, d, verified).0)
  {
    hide DrawnFrom, Held, Apply, VerifyCausal, SignatureOk, Decide;
    HeldAppend(doc.log, d);
    if d.hash !in Held(doc.log) {
      ApplyKeepsDrawn(doc.crdt, d, Held(doc.log));
    }
  }

  lemma {:induction false} DeliverKeepsDrawn(doc: Doc, ds: seq<Delta>, verified: bool)
    requires Drawn(doc)
    ensures Drawn(Deliver(doc, ds, verified))
  {
    hide Drawn, Step;
    if ds != [] {
      DeliverKeepsDrawn(doc, ds[..|ds| - 1], verified);
      StepKeepsDrawn(Deliver(doc, ds[..|ds| - 1], verified), ds[|ds| - 1], verified);
    }
  }

  lemma StateMergeKeepsDrawn(a: Doc, b: Doc)
    requires Drawn(a) && Drawn(b) && Agree(Held(a.log), Held(b.log))
    ensures Drawn(MergeState(a, b).0)
  {
    hide DrawnFrom, Held, AppendNew, JoinState;
    if a.did == b.did {
      MergedHolds(a, b);
      JoinKeepsDrawn(a.crdt, b.crdt, Held(a.log), Held(b.log));
    }
  }

  /** The state join of replicas commutes, up to the order of the log. */
  lemma StateMergeCommutes(a: Doc, b: Doc)
    requires Drawn(a) && Drawn(b) && a.did == b.did
    requires Agree(Held(a.log), Held(b.log)) && Unambiguous(Held(a.log) + Held(b.log))
    ensures MergeState(a, b).0.crdt == MergeState(b, a).0.crdt
    ensures Held(MergeState(a, b).0.log) == Held(MergeState(b, a).0.log)
  {
    hide DrawnFrom, Held, AppendNew, Unambiguous, JoinState;
    assert Held(a.log) + Held(b.log) == Held(b.log) + Held(a.log);
    MergedHolds(a, b);
    MergedHolds(b, a);
    JoinStateCommutes(a.crdt, b.crdt, Held(a.log), Held(b.log));
  }

  lemma StateMergeAssociates(a: Doc, b: Doc, c: Doc, u: History)
    requires Drawn(a) && Drawn(b) && Drawn(c)
    requires a.did == b.did == c.did && u == Held(a.log) + Held(b.log) + Held(c.log)
    requires Extends(Held(a.log), u) && Extends(Held(b.log), u) && Unambiguous(u)
    ensures var left := MergeState(MergeState(a, b).0, c).0;
            var right := MergeState(a, MergeState(b, c).0).0;
            left.crdt == right.crdt && Held(left.log) == Held(right.log) == u
  {
    hide DrawnFrom, Held, AppendNew, Unambiguous, JoinState, Extends, Agree;
    var s, t, r := Held(a.log), Held(b.log), Held(c.log);
    Regroup(s, t, r, u);
    MergedHolds(a, b);
    MergedHolds(b, c);
    MergedHolds(MergeState(a, b).0, c);
    MergedHolds(a, MergeState(b, c).0);
    JoinStateAssociates(a.crdt, b.crdt, c.crdt, s, t, r, u);
  }

  /** Merging a replica into itself changes nothing. */
  lemma StateMergeIdempotent(a: Doc)
    ensures MergeState(a, a).0 == a
  {
    hide JoinState, AppendNew;
    JoinStateIdempotent(a.crdt);
    AppendOwn(a.log, a.log);
  }

  lemma {:induction false} AppendOwn(log: seq<Delta>, part: seq<Delta>)
    requires forall d :: d in part ==> d in log
    ensures AppendNew(log, part) == log
  {
    hide Held;
    if part != [] {
      assert forall d :: d in part[..|part| - 1] ==> d in part;
      AppendOwn(log, part[..|part| - 1]);
      HeldHas(log, part[|part| - 1]);
    }
  }

  lemma {:induction false} HeldHas(log: seq<Delta>, d: Delta)
    requires d in log
    ensures d.hash in Held(log)
  {
    var front, last := log[..|log| - 1], log[|log| - 1];
    SplitLast(log);
    HeldAppend(front, last);
    if d != last {
      HeldHas(front, d);
    }
  }
}
