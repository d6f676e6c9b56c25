/** Many replicas of one document, and every route by which deltas and states travel between them. */
module Network {
  import opened Deltas
  import opened Histories
  import opened State
  import opened StateLaws
  import opened Documents
  import opened Keys
  import opened Convergence
  import opened Recon
  import opened Bundles
  import opened Exchange
  import Replicas
  import Authority

  /**
   * One replica takes in a delta, a verified bundle, an inbound batch (such as a peer's answer), or a sibling's whole
   * state.
   */
  datatype Move =
    | TakeDelta(to: nat, delta: Delta)
    | TakeBundle(to: nat, bundle: Bundle)
    | TakeBatch(to: nat, batch: seq<Delta>)
    | TakeState(to: nat, from: nat)

  /** The replicas of a move exist, and its deltas belong to the universe `u`. */
  ghost predicate Legal(m: Move, n: nat, u: History) {
    && m.to < n
    && match m
       case TakeDelta(_, d) => InUniverse([d], u)
       case TakeBundle(_, b) => InUniverse(b.deltas, u)
       case TakeBatch(_, ds) => InUniverse(ds, u)
       case TakeState(_, from) => from < n
  }

  ghost predicate InUniverse(ds: seq<Delta>, u: History) {
    forall d :: d in ds ==> d.hash in u && u[d.hash] == d
  }

  ghost function After(world: seq<Doc>, m: Move, verified: bool): Doc
    requires m.to < |world| && (m.TakeState? ==> m.from < |world|)
  {
    match m
    case TakeDelta(to, d) => Step(world[to], d, verified).0
    case TakeBundle(to, b) => MergeVerifiedBundle(world[to], b).0
    case TakeBatch(to, ds) => Retry(world[to], ds)
    case TakeState(to, from) => Replicas.MergeState(world[to], world[from]).0
  }

  /** The replicas after a run, all of which start from the same new document. */
  ghost function Run(start: Doc, n: nat, moves: seq<Move>, u: History, verified: bool): (world: seq<Doc>)
    requires forall m :: m in moves ==> Legal(m, n, u)
    ensures |world| == n
  {
    if moves == [] then seq(n, _ => start)
    else
      var front, last := moves[..|moves| - 1], moves[|moves| - 1];
      assert Legal(last, n, u) && forall m :: m in front ==> m in moves;
      var world := Run(start, n, front, u, verified);
      world[last.to := After(world, last, verified)]
  }

  /**
   * When states stay in closed form: stamps tell deltas apart, and service deltas are chained if states are joined at
   * all.
   */
  ghost predicate Gapless(u: History, joins: bool) {
    Unambiguous(u) && (joins ==> ServiceChain(u))
  }

  ghost predicate Joins(moves: seq<Move>) {
    exists m :: m in moves && m.TakeState?
  }

  /**
   * A replica in good order: admitted from genesis, within the universe, its state drawn from its log and, if `exact`,
   * in closed form.
   */
  ghost predicate InOrder(doc: Doc, did: Did, g: Delta, u: History, verified: bool, exact: bool) {
    && Sound(doc, g, verified) && doc.did == did
    && Extends(Held(doc.log), u) && Replicas.Drawn(doc)
    && (exact ==> Reflects(doc.crdt, Held(doc.log)))
  }

  lemma InOrderIsClosed(doc: Doc, did: Did, g: Delta, u: History, verified: bool, exact: bool)
    requires InOrder(doc, did, g, u, verified, exact)
    ensures AncestorClosed(Held(doc.log)) && AdmittedLog(did, g, doc.log, verified)
  {
    hide Sound, Mirrored, Held, Reflects, Replicas.Drawn, AdmittedLog, AncestorClosed;
    SoundIsMirrored(doc, g, verified);
  }

  /** Every delivery that checks enough keeps a replica in order. */
  lemma DeliveryKeepsOrder(doc: Doc, did: Did, g: Delta, u: History, ds: seq<Delta>, checks: bool, verified: bool,
                           exact: bool)
    requires InOrder(doc, did, g, u, verified, exact) && InUniverse(ds, u) && (verified ==> checks)
    requires exact ==> Unambiguous(u)
    ensures InOrder(Deliver(doc, ds, checks), did, g, u, verified, exact)
  {
    hide Sound, Mirrored, Held, Deliver, Reflects, Replicas.Drawn, AdmittedLog, AncestorClosed, Unambiguous,
         DistinctStamps;
    SoundIsMirrored(doc, g, verified);
    DeliverKeepsSound(doc, g, ds, checks, verified);
    DeliverGrows(doc, ds, checks);
    Replicas.DeliverKeepsDrawn(doc, ds, checks);
    if exact {
      AmbiguityShrinks(Held(Deliver(doc, ds, checks).log), u);
      UnambiguousStamps(Held(Deliver(doc, ds, checks).log));
      DeliverReflects(doc, ds, checks);
    }
  }

  /** So does joining a sibling's state; the closed form survives when service deltas are chained. */
  lemma JoinKeepsOrder(a: Doc, b: Doc, did: Did, g: Delta, u: History, verified: bool, exact: bool)
    requires InOrder(a, did, g, u, verified, exact) && InOrder(b, did, g, u, verified, exact)
    requires (exact ==> Gapless(u, true)) && (verified ==> LowerKeysFirst(u))
    ensures InOrder(Replicas.MergeState(a, b).0, did, g, u, verified, exact)
  {
    hide Sound, Mirrored, Held, Deliver, PlainReflects, Reflects, Replicas.Drawn, AdmittedLog, AncestorClosed,
      Unambiguous, LowerKeysFirst, ServiceChain, JoinState, Feeds, Replicas.AppendNew;
    var s, t := Held(a.log), Held(b.log);
    SoundIsMirrored(a, g, verified);
    SoundIsMirrored(b, g, verified);
    assert Agree(s, t) && Extends(s + t, u);
    UnionIsClosed(s, t);
    if verified {
      LowerKeysOfPart(s + t, u);
    }
    SoundFeeds(a, b, g, verified);
    SoundReflects(b, g, verified);
    Replicas.StateMergeKeepsSound(a, b, g, verified);
    Replicas.StateMergeKeepsDrawn(a, b);
    if exact {
      AmbiguityShrinks(s + t, u);
      ChainOfPart(s + t, u);
      Replicas.ChainedStateMergeIsReplay(a, b, g, verified);
    }
  }

  lemma SoundReflects(doc: Doc, g: Delta, verified: bool)
    requires Sound(doc, g, verified)
    ensures PlainReflects(doc.crdt, Held(doc.log))
  {
  }

  lemma MoveKeepsOrder(world: seq<Doc>, m: Move, did: Did, g: Delta, u: History, verified: bool, exact: bool)
    requires Legal(m, |world|, u) && forall i :: 0 <= i < |world| ==> InOrder(world[i], did, g, u, verified, exact)
    requires (exact ==> Gapless(u, m.TakeState?)) && (verified && m.TakeState? ==> LowerKeysFirst(u))
    ensures InOrder(After(world, m, verified), did, g, u, verified, exact)
  {
    hide InOrder, Unambiguous, LowerKeysFirst, ServiceChain, Deliver, Retry, MergeVerifiedBundle, Step,
         Replicas.MergeState;
    var doc := world[m.to];
    match m {
      case TakeDelta(_, d) =>
        DeliverAppend(doc, [], d, verified);
        assert [] + [d] == [d] && Deliver(doc, [], verified) == doc by { NothingDelivered(doc, verified); }
        DeliveryKeepsOrder(doc, did, g, u, [d], verified, verified, exact);
      case TakeBundle(_, b) =>
        InOrderIsClosed(doc, did, g, u, verified, exact);
        var es := BundleIsDelivery(doc, b);
        DeliveryKeepsOrder(doc, did, g, u, es, true, verified, exact);
      case TakeBatch(_, ds) =>
        var es := RetryIsDelivery(doc, ds);
        DeliveryKeepsOrder(doc, did, g, u, es, true, verified, exact);
      case TakeState(_, from) =>
        JoinKeepsOrder(doc, world[from], did, g, u, verified, exact);
    }
  }

  lemma NothingDelivered(doc: Doc, verified: bool)
    ensures Deliver(doc, [], verified) == doc
  {
  }

  /** Every replica stays in order through every run. */
  lemma {:induction false} RunKeepsOrder(start: Doc, n: nat, moves: seq<Move>, did: Did, g: Delta, u: History,
                                         verified: bool, exact: bool, i: nat)
    requires (forall m :: m in moves ==> Legal(m, n, u)) && i < n
    requires InOrder(start, did, g, u, verified, exact)
    requires (exact ==> Gapless(u, Joins(moves))) && (verified && Joins(moves) ==> LowerKeysFirst(u))
    ensures InOrder(Run(start, n, moves, u, verified)[i], did, g, u, verified, exact)
    decreases |moves|
  {
    hide InOrder, Unambiguous, LowerKeysFirst, ServiceChain, After;
    if moves != [] {
      var front, last := moves[..|moves| - 1], moves[|moves| - 1];
      assert last in moves && forall m :: m in front ==> m in moves;
      var world := Run(start, n, front, u, verified);
      forall j | 0 <= j < n ensures InOrder(world[j], did, g, u, verified, exact) {
        RunKeepsOrder(start, n, front, did, g, u, verified, exact, j);
      }
      MoveKeepsOrder(world, last, did, g, u, verified, exact);
    }
  }

  lemma StartIsInOrder(did: Did, key: PublicKey, text: string, hash: Hash, u: History, verified: bool)
    requires var g := Genesis(did, key, text, hash); g.hash in u && u[g.hash] == g
    ensures var g := Genesis(did, key, text, hash); InOrder(NewDoc(did, g), did, g, u, verified, true)
  {
    hide Sound, Reflects, Held, Apply, DrawnFrom;
    var g := Genesis(did, key, text, hash);
    NewDocIsSound(did, key, text, hash, verified);
    HeldOne(g);
    ReflectedIsDrawn(NewDoc(did, g).crdt, Held([g]));
  }

  /** Every field but the endpoints. */
  ghost predicate SamePlain(c: Crdt, e: Crdt) {
    c == e.(services := c.services)
  }

  /**
   * Whatever the order, the repetition and the mix of routes: replicas with nothing left to admit hold the same; where
   * stamps tell deltas apart, equal holdings mean equal fields, and with service deltas chained (or no state ever
   * joined) equal endpoints too.
   */
  lemma RoutesConverge(did: Did, key: PublicKey, text: string, hash: Hash, n: nat, moves: seq<Move>, u: History,
                       verified: bool, i: nat, j: nat)
    requires i < n && j < n && forall m :: m in moves ==> Legal(m, n, u)
    requires var g := Genesis(did, key, text, hash); g.hash in u && u[g.hash] == g
    requires verified && Joins(moves) ==> LowerKeysFirst(u)
    ensures var world := Run(NewDoc(did, Genesis(did, key, text, hash)), n, moves, u, verified);
            var s, t := Held(world[i].log), Held(world[j].log);
            && (Saturated(did, u, s, verified) && Saturated(did, u, t, verified) && (verified ==> LowerKeysFirst(s)) ==>
                  s == t)
            && (s == t ==> Frontier(s) == Frontier(t))
            && (s == t && Unambiguous(s) ==> SamePlain(world[i].crdt, world[j].crdt))
            && (s == t && Gapless(u, Joins(moves)) ==> world[i].crdt == world[j].crdt)
  {
    hide Sound, PlainReflects, Replicas.Drawn, Unambiguous, LowerKeysFirst, ServiceChain, Held, Run, Saturated,
         AdmittedLog, AncestorClosed, Frontier, Apply, Joins;
    var g := Genesis(did, key, text, hash);
    var start := NewDoc(did, g);
    StartIsInOrder(did, key, text, hash, u, verified);
    var exact := Gapless(u, Joins(moves));
    RunKeepsOrder(start, n, moves, did, g, u, verified, exact, i);
    RunKeepsOrder(start, n, moves, did, g, u, verified, exact, j);
    var a, b := Run(start, n, moves, u, verified)[i], Run(start, n, moves, u, verified)[j];
    InOrderIsClosed(a, did, g, u, verified, exact);
    InOrderIsClosed(b, did, g, u, verified, exact);
    var s := Held(a.log);
    if Saturated(did, u, s, verified) && Saturated(did, u, Held(b.log), verified) && (verified ==> LowerKeysFirst(s)) {
      SaturatedUnique(did, g, a.log, b.log, u, verified);
    }
    if s == Held(b.log) && Unambiguous(s) {
      SoundReflects(a, g, verified);
      SoundReflects(b, g, verified);
      PlainUnique(a.crdt, b.crdt, s);
    }
    if s == Held(b.log) && exact {
      AmbiguityShrinks(s, u);
      ClosedFormUnique(a.crdt, b.crdt, s);
    }
  }

  /**
   * On every replica of every run: each signer traces back to genesis through what is held, every delta past genesis is
   * addressed to the run's DID and within bounds, and on the verified path each carries a proof under the key it names.
   */
  lemma RoutesAreAuthorised(did: Did, key: PublicKey, text: string, hash: Hash, n: nat, moves: seq<Move>, u: History,
                            verified: bool, i: nat)
    requires i < n && forall m :: m in moves ==> Legal(m, n, u)
    requires var g := Genesis(did, key, text, hash); g.hash in u && u[g.hash] == g
    requires verified && Joins(moves) ==> LowerKeysFirst(u)
    ensures var g := Genesis(did, key, text, hash);
            var doc := Run(NewDoc(did, g), n, moves, u, verified)[i];
            && AdmittedLog(did, g, doc.log, verified) && Authority.WellAuthorised(Held(doc.log), g)
            && doc.log[0] == g && Authority.WellAddressed(did, doc.log)
            && (verified ==> forall k :: 0 < k < |doc.log| ==> Authority.Authentic(doc.log, k))
  {
    hide InOrder, LowerKeysFirst, Held, Run, AdmittedLog, AncestorClosed, Apply, Authority.WellAuthorised, Joins,
         Authority.WellAddressed, Authority.Authentic, WellIndexed;
    var g := Genesis(did, key, text, hash);
    var start := NewDoc(did, g);
    StartIsInOrder(did, key, text, hash, u, verified);
    InOrderAnyway(start, did, g, u, verified);
    RunKeepsOrder(start, n, moves, did, g, u, verified, false, i);
    var doc := Run(start, n, moves, u, verified)[i];
    InOrderIsClosed(doc, did, g, u, verified, false);
    AdmittedIsGrounded(did, g, doc.log, verified);
    Authority.LogIsAuthorised(did, g, doc.log, verified);
    Authority.LogIsWellAddressed(did, g, doc.log, verified);
    if verified {
      forall k | 0 < k < |doc.log| ensures Authority.Authentic(doc.log, k) {
        Authority.LogIsAuthentic(did, g, doc.log, k);
      }
    }
  }

  lemma InOrderAnyway(doc: Doc, did: Did, g: Delta, u: History, verified: bool)
    requires InOrder(doc, did, g, u, verified, true)
    ensures InOrder(doc, did, g, u, verified, false)
  {
  }

  /**
   * One batch with the whole offer leaves a replica nothing more to admit, so every run can be brought to agreement.
   */
  lemma FullBatchSaturates(doc: Doc, did: Did, g: Delta, u: History, ds: seq<Delta>, exact: bool)
    requires InOrder(doc, did, g, u, true, exact) && InUniverse(ds, u) && (forall h :: h in u ==> u[h] in ds)
    requires WellIndexed(u) && LowerKeysFirst(u)
    ensures Saturated(did, u, Held(Retry(doc, ds).log), true)
  {
    hide Sound, Mirrored, Reflects, Replicas.Drawn, Held, Retry, Saturated, AdmittedLog, AncestorClosed, LowerKeysFirst,
         KeysSettled, WellIndexed;
    SoundIsMirrored(doc, g, true);
    ClosedIsSettled(Held(doc.log), u);
    RetrySaturates(doc, ds, u);
  }

  /** On the replicas of every run, chained or not, state merge commutes and associates. */
  lemma ReachableStatesFormSemilattice(did: Did, key: PublicKey, text: string, hash: Hash, n: nat, moves: seq<Move>,
                                       u: History, verified: bool, i: nat, j: nat, k: nat)
    requires i < n && j < n && k < n && forall m :: m in moves ==> Legal(m, n, u)
    requires var g := Genesis(did, key, text, hash); g.hash in u && u[g.hash] == g
    requires Unambiguous(u) && (verified && Joins(moves) ==> LowerKeysFirst(u))
    ensures var world := Run(NewDoc(did, Genesis(did, key, text, hash)), n, moves, u, verified);
            var a, b, c := world[i], world[j], world[k];
            && Replicas.MergeState(a, b).0.crdt == Replicas.MergeState(b, a).0.crdt
            && Replicas.MergeState(Replicas.MergeState(a, b).0, c).0.crdt ==
              Replicas.MergeState(a, Replicas.MergeState(b, c).0).0.crdt
  {
    hide Sound, Reflects, Unambiguous, LowerKeysFirst, ServiceChain, Held, Run, Apply, Replicas.Drawn,
         Replicas.MergeState, Joins;
    var g := Genesis(did, key, text, hash);
    var start := NewDoc(did, g);
    StartIsInOrder(did, key, text, hash, u, verified);
    RunKeepsOrder(start, n, moves, did, g, u, verified, false, i);
    RunKeepsOrder(start, n, moves, did, g, u, verified, false, j);
    RunKeepsOrder(start, n, moves, did, g, u, verified, false, k);
    var world := Run(start, n, moves, u, verified);
    var a, b, c := world[i], world[j], world[k];
    var s, t, r := Held(a.log), Held(b.log), Held(c.log);
    AmbiguityShrinks(s + t, u);
    AmbiguityShrinks(s + t + r, u);
    Replicas.StateMergeCommutes(a, b);
    Replicas.StateMergeAssociates(a, b, c, s + t + r);
  }
}
