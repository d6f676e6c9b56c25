/** Strong eventual consistency of the delta path. */
module Convergence {
  import opened Deltas
  import opened Histories
  import opened Dag
  import opened Causal
  import opened State
  import opened StateLaws
  import opened Documents
  import opened Keys
  import VersionVectors

  /** Admission is stable: growth never withdraws it. */
  lemma AdmissibleStable(did: Did, d: Delta, s: History, t: History, verified: bool)
    requires Admissible(did, d, s, verified) && s != map[] && Extends(s, t)
    requires verified ==> KeysSettled(s, t)
    ensures Admissible(did, d, t, verified)
  {
    hide VerifyCausal, SignatureOk, KeysSettled, Image, Past;
    ValidNeedsParents(d, s);
    AdmissionMonotone(d, s, t);
    if verified {
      SignatureFixed(d, s, t);
    }
  }

  /** With its parents held, a delta is admissible before growth if it is after. */
  lemma AdmissibleBack(did: Did, d: Delta, s: History, t: History, verified: bool)
    requires Admissible(did, d, t, verified) && s != map[] && Extends(s, t) && AncestorClosed(s)
    requires d.parents != [] && Elements(d.parents) <= s.Keys
    requires verified ==> KeysSettled(s, t)
    ensures Admissible(did, d, s, verified)
  {
    hide VerifyCausal, SignatureOk, KeysSettled, Image, Past;
    HeldPastIsComplete(s, Elements(d.parents));
    AdmissionMonotone(d, s, t);
    if verified {
      SignatureFixed(d, s, t);
    }
  }

  /** Nothing offered in `u` and lacking in `s` is admissible. */
  ghost predicate Saturated(did: Did, u: History, s: History, verified: bool) {
    forall h :: h in u && h !in s ==> !Admissible(did, u[h], s, verified)
  }

  /**
   * An admitted log flows into every saturated history `s` over the same offer; keys need be in order only within `k`.
   */
  lemma {:induction false} AdmittedFlows(did: Did, g: Delta, log: seq<Delta>, u: History, s: History, k: History,
                                         verified: bool)
    requires AdmittedLog(did, g, log, verified) && Extends(Held(log), u)
    requires Extends(s, u) && Saturated(did, u, s, verified) && g.hash in s
    requires verified ==> Extends(s, k) && LowerKeysFirst(k)
    ensures Extends(Held(log), s)
  {
    hide Admissible, Held, LowerKeysFirst, KeysSettled, AncestorClosed, WellIndexed, Saturated, AdmittedLog, With,
         Extends;
    AdmittedIsGrounded(did, g, log, verified);
    if |log| == 1 {
      HeldOne(g);
      assert log == [g];
      GenesisFlows(g, u, s);
    } else {
      var front, last := log[..|log| - 1], log[|log| - 1];
      AdmittedLast(did, g, log, verified);
      AdmittedIsGrounded(did, g, front, verified);
      WithExtends(Held(front), last);
      ExtendsThrough(Held(front), Held(log), u);
      AdmittedFlows(did, g, front, u, s, k, verified);
      if verified {
        ExtendsThrough(Held(front), s, k);
        ClosedIsSettled(Held(front), k);
        SettledPart(Held(front), s, k);
      }
      FlowStep(did, last, Held(front), u, s, verified);
    }
  }

  lemma GenesisFlows(g: Delta, u: History, s: History)
    requires Extends(map[g.hash := g], u) && Extends(s, u) && g.hash in s
    ensures Extends(map[g.hash := g], s)
  {
    assert u[g.hash] == map[g.hash := g][g.hash] == g;
  }

  lemma FlowStep(did: Did, d: Delta, from: History, u: History, s: History, verified: bool)
    requires Admissible(did, d, from, verified) && from != map[] && d.hash !in from && Extends(from, s)
    requires Extends(With(from, d), u) && Extends(s, u) && Saturated(did, u, s, verified)
    requires verified ==> KeysSettled(from, s)
    ensures Extends(With(from, d), s)
  {
    hide Admissible, KeysSettled;
    AdmissibleStable(did, d, from, s, verified);
    assert u[d.hash] == d;
  }

  /** What a document ends up holding is fixed by the offer, whatever the route. */
  lemma SaturatedUnique(did: Did, g: Delta, x: seq<Delta>, y: seq<Delta>, u: History, verified: bool)
    requires AdmittedLog(did, g, x, verified) && AdmittedLog(did, g, y, verified)
    requires Extends(Held(x), u) && Extends(Held(y), u)
    requires Saturated(did, u, Held(x), verified) && Saturated(did, u, Held(y), verified)
    requires verified ==> LowerKeysFirst(Held(x))
    ensures Held(x) == Held(y)
  {
    hide Held, AdmittedLog, Saturated, LowerKeysFirst;
    AdmittedIsGrounded(did, g, x, verified);
    AdmittedIsGrounded(did, g, y, verified);
    AdmittedFlows(did, g, y, u, Held(x), Held(x), verified);
    AdmittedFlows(did, g, x, u, Held(y), Held(x), verified);
  }

  // ── deliveries ──────────────────────────────────────────────────────────────

  /** The creation delta: `text` is the key's text, recorded as its signer. */
  function Genesis(did: Did, key: PublicKey, text: string, hash: Hash): Delta {
    Delta(hash, did, ZERO_STAMP,
          AddVerificationMethod(KeyEntry(did + "#key-0", key, Ed25519Signature2020, [Authentication])),
          [], text, Unsigned, 0)
  }

  ghost function NewDoc(did: Did, g: Delta): Doc {
    Doc(did, Apply(BLANK, g, map[]), [g])
  }

  lemma NewDocIsSound(did: Did, key: PublicKey, text: string, hash: Hash, verified: bool)
    ensures var g := Genesis(did, key, text, hash);
            Sound(NewDoc(did, g), g, verified) && Reflects(NewDoc(did, g).crdt, Held([g]))
  {
    hide Past, Elements;
    var g := Genesis(did, key, text, hash);
    var s := map[g.hash := g];
    HeldOne(g);
    assert s[g.hash] == g;
    assert Image(s, WallOf) == {0} by {
      assert WallOf(s[g.hash]).value in Image(s, WallOf);
    }
    assert Image(s, KeyOf) == {g.op.entry} by {
      assert KeyOf(s[g.hash]).value in Image(s, KeyOf);
    }
    assert Image(s, DataOf) == {};
  }

  /** The new document, field by field: one key under the DID, used to authenticate, and nothing else. */
  lemma CreationIs(did: Did, key: PublicKey, text: string, hash: Hash)
    ensures var g := Genesis(did, key, text, hash);
            var entry := KeyEntry(did + "#key-0", key, Ed25519Signature2020, [Authentication]);
            NewDoc(did, g) ==
              Doc(did,
                  Crdt({entry}, Orswots.Orswot(map[], map[]), map[], Registers.Register({}, ZERO_STAMP),
                       Registers.Register(None, ZERO_STAMP), {}, {}, false, Some(0), Some(0)),
                  [Delta(hash, did, Stamp(0, 0, 0), AddVerificationMethod(entry), [], text, Unsigned, 0)])
  {
  }

  ghost function Deliver(doc: Doc, ds: seq<Delta>, verified: bool): Doc {
    if ds == [] then doc else Step(Deliver(doc, ds[..|ds| - 1], verified), ds[|ds| - 1], verified).0
  }

  lemma DeliverAppend(doc: Doc, ds: seq<Delta>, d: Delta, verified: bool)
    ensures Deliver(doc, ds + [d], verified) == Step(Deliver(doc, ds, verified), d, verified).0
  {
    hide Step;
    assert (ds + [d])[..|ds + [d]| - 1] == ds;
  }

  lemma {:induction false} DeliverConcat(doc: Doc, ds: seq<Delta>, es: seq<Delta>, verified: bool)
    ensures Deliver(Deliver(doc, ds, verified), es, verified) == Deliver(doc, ds + es, verified)
  {
    hide Step;
    if es == [] {
      assert ds + es == ds;
    } else {
      DeliverConcat(doc, ds, es[..|es| - 1], verified);
      assert (ds + es)[..|ds + es| - 1] == ds + es[..|es| - 1];
    }
  }

  /** Every delivery, in any order and from any mirrored document, only takes in what was offered. */
  lemma {:induction false} DeliverGrows(doc: Doc, ds: seq<Delta>, verified: bool)
    requires Mirrored(doc)
    ensures var after := Deliver(doc, ds, verified);
            && Mirrored(after) && after.did == doc.did
            && Extends(Held(doc.log), Held(after.log)) && Held(after.log) != map[]
            && (AncestorClosed(Held(doc.log)) ==> AncestorClosed(Held(after.log)))
            && (forall d :: d in after.log ==> d in doc.log || d in ds)
            && (forall h :: h in Held(after.log) && h !in Held(doc.log) ==>
                Held(after.log)[h] in ds && Held(after.log)[h].hash == h)
  {
    hide Mirrored, Step, Held, AncestorClosed, FactsBacked, Image;
    MirroredIsBacked(doc);
    if ds != [] {
      var front, last := ds[..|ds| - 1], ds[|ds| - 1];
      SplitLast(ds);
      DeliverGrows(doc, front, verified);
      StepKeepsMirrored(Deliver(doc, front, verified), last, verified);
    }
  }

  /** A delivery that checks at least as much as the log was admitted under keeps it admitted. */
  lemma {:induction false} DeliverKeepsSound(doc: Doc, g: Delta, ds: seq<Delta>, verified: bool, checked: bool)
    requires Sound(doc, g, checked) && (checked ==> verified)
    ensures Sound(Deliver(doc, ds, verified), g, checked)
    ensures Deliver(doc, ds, verified).did == doc.did
  {
    hide Sound, Step, Mirrored;
    SoundIsMirrored(doc, g, checked);
    DeliverGrows(doc, ds, verified);
    if ds != [] {
      DeliverKeepsSound(doc, g, ds[..|ds| - 1], verified, checked);
      StepKeepsSound(Deliver(doc, ds[..|ds| - 1], verified), g, ds[|ds| - 1], verified, checked);
    }
  }

  ghost predicate Offered(ds: seq<Delta>, h: Hash) {
    exists i :: 0 <= i < |ds| && ds[i].hash == h
  }

  /** Parents come before children, as far as they are offered at all. */
  ghost predicate CausalDelivery(g: Delta, ds: seq<Delta>) {
    forall i, p :: 0 <= i < |ds| && p in ds[i].parents && p != g.hash && Offered(ds, p) ==> Offered(ds[..i], p)
  }

  /** Everything offered so far is held or refused for good. */
  ghost predicate Quiet(did: Did, ds: seq<Delta>, s: History, verified: bool) {
    forall d :: d in ds ==> d.hash in s || !Admissible(did, d, s, verified)
  }

  lemma {:induction false} CausalDeliveryIsQuiet(doc: Doc, g: Delta, ds: seq<Delta>, n: nat, verified: bool)
    requires Mirrored(doc) && AncestorClosed(Held(doc.log)) && g.hash in Held(doc.log) && n <= |ds|
    requires CausalDelivery(g, ds) && CollisionFree(ds)
    requires verified ==> LowerKeysFirst(Held(Deliver(doc, ds[..n], verified).log))
    ensures Quiet(doc.did, ds[..n], Held(Deliver(doc, ds[..n], verified).log), verified)
  {
    hide Mirrored, Admissible, Step, Held, CausalDelivery, CollisionFree, LowerKeysFirst, KeysSettled, Deliver,
         AncestorClosed;
    if n > 0 {
      var before, d := ds[..n - 1], ds[n - 1];
      assert ds[..n] == before + [d];
      DeliverGrows(doc, before, verified);
      var mid := Deliver(doc, before, verified);
      DeliverAppend(doc, before, d, verified);
      StepAdmits(mid, d, verified);
      var s, t := Held(mid.log), Held(Deliver(doc, ds[..n], verified).log);
      HeldAppend(mid.log, d);
      WithExtends(s, d);
      if verified {
        LowerKeysOfPart(s, t);
        ClosedIsSettled(s, t);
      }
      CausalDeliveryIsQuiet(doc, g, ds, n - 1, verified);
      forall e | e in ds[..n] ensures e.hash in t || !Admissible(doc.did, e, t, verified) {
        if t != s && e != d {
          EarlierNeedsNoLater(g, ds, n - 1, e);
          RefusedStaysRefused(doc.did, e, d, s, verified);
        }
      }
    }
  }

  /** In a causal delivery an earlier delta names no parent that arrives for the first time later. */
  lemma EarlierNeedsNoLater(g: Delta, ds: seq<Delta>, n: nat, e: Delta)
    requires n < |ds| && e in ds[..n] && CausalDelivery(g, ds) && CollisionFree(ds)
    ensures ds[n].hash in e.parents && ds[n].hash != g.hash ==> ds[n] in ds[..n]
  {
    var d := ds[n];
    var j :| 0 <= j < n && ds[j] == e;
    if d.hash in e.parents && d.hash != g.hash {
      assert Offered(ds, d.hash);
      var k :| 0 <= k < |ds[..j]| && ds[..j][k].hash == d.hash;
      assert ds[k] in ds && d in ds && ds[k].hash == d.hash;
      assert ds[k] in ds[..n];
    }
  }

  /** A delta refused before `d` arrived, and not waiting for `d`, stays refused. */
  lemma RefusedStaysRefused(did: Did, e: Delta, d: Delta, s: History, verified: bool)
    requires AncestorClosed(s) && s != map[] && d.hash !in e.parents
    requires verified ==> KeysSettled(s, With(s, d))
    ensures Admissible(did, e, With(s, d), verified) ==> Admissible(did, e, s, verified)
  {
    hide Admissible, AncestorClosed, KeysSettled;
    var t := With(s, d);
    if Admissible(did, e, t, verified) {
      assert d.hash in t;
      LastIsGrounded(did, e, t, verified);
      assert Elements(e.parents) <= s.Keys;
      AdmissibleBack(did, e, s, t, verified);
    }
  }

  /** Genesis and everything offered on top of it. */
  function Universe(g: Delta, ds: seq<Delta>): History {
    Held([g] + ds)
  }

  lemma LogWithinOffer(g: Delta, ds: seq<Delta>, did: Did, log: seq<Delta>, verified: bool)
    requires AdmittedLog(did, g, log, verified) && CollisionFree([g] + ds)
    requires forall d :: d in log ==> d == g || d in ds
    ensures Extends(Held(log), Universe(g, ds))
  {
    hide AdmittedLog, InsertAll;
    AdmittedIsGrounded(did, g, log, verified);
    InsertAllHolds(map[], [g] + ds);
    forall h | h in Held(log) ensures h in Universe(g, ds) && Universe(g, ds)[h] == Held(log)[h] {
      assert Held(log)[h] in [g] + ds && Held(log)[h].hash == h;
    }
  }

  lemma UniverseIsOffer(g: Delta, ds: seq<Delta>, h: Hash)
    requires CollisionFree([g] + ds) && h in Universe(g, ds) && h != g.hash
    ensures Universe(g, ds)[h] in ds
  {
    hide InsertAll;
    InsertAllHolds(map[], [g] + ds);
    var d :| d in [g] + ds && d.hash == h;
  }

  /** A delivery to the creation delta alone stays within the offer and keeps an admitted log. */
  lemma DeliveryIsAdmitted(doc: Doc, g: Delta, ds: seq<Delta>, verified: bool)
    requires Sound(doc, g, verified) && doc.log == [g] && CollisionFree([g] + ds)
    ensures var after := Deliver(doc, ds, verified);
            && AdmittedLog(doc.did, g, after.log, verified) && AncestorClosed(Held(after.log))
            && Extends(Held(after.log), Universe(g, ds))
  {
    hide Held, Sound, Mirrored, Deliver, Universe, AncestorClosed, AdmittedLog;
    SoundIsMirrored(doc, g, verified);
    DeliverGrows(doc, ds, verified);
    DeliverKeepsSound(doc, g, ds, verified, verified);
    SoundIsMirrored(Deliver(doc, ds, verified), g, verified);
    LogWithinOffer(g, ds, doc.did, Deliver(doc, ds, verified).log, verified);
  }

  /** A causal delivery takes in all it ever could. */
  lemma CausalDeliverySaturates(doc: Doc, g: Delta, ds: seq<Delta>, verified: bool)
    requires Sound(doc, g, verified) && doc.log == [g]
    requires CausalDelivery(g, ds) && CollisionFree([g] + ds)
    requires verified ==> LowerKeysFirst(Held(Deliver(doc, ds, verified).log))
    ensures Saturated(doc.did, Universe(g, ds), Held(Deliver(doc, ds, verified).log), verified)
  {
    hide Held, Admissible, Sound, Mirrored, Deliver, Universe, CausalDelivery, LowerKeysFirst, AncestorClosed,
         AdmittedLog, WellIndexed;
    SoundIsMirrored(doc, g, verified);
    DeliveryIsAdmitted(doc, g, ds, verified);
    var after := Deliver(doc, ds, verified);
    var s, u := Held(after.log), Universe(g, ds);
    assert ds[..|ds|] == ds;
    assert forall d :: d in ds ==> d in [g] + ds;
    CausalDeliveryIsQuiet(doc, g, ds, |ds|, verified);
    AdmittedIsGrounded(doc.did, g, after.log, verified);
    forall h | h in u && h !in s ensures !Admissible(doc.did, u[h], s, verified) {
      UniverseIsOffer(g, ds, h);
      UniverseIndexed(g, ds, h);
    }
  }

  lemma UniverseIndexed(g: Delta, ds: seq<Delta>, h: Hash)
    requires CollisionFree([g] + ds) && h in Universe(g, ds)
    ensures Universe(g, ds)[h].hash == h
  {
    hide InsertAll;
    InsertAllHolds(map[], [g] + ds);
  }

  /** The state after any delivery is the closed form of what is held. */
  lemma {:induction false} DeliverReflects(doc: Doc, ds: seq<Delta>, verified: bool)
    requires Mirrored(doc) && AncestorClosed(Held(doc.log)) && Reflects(doc.crdt, Held(doc.log))
    requires DistinctStamps(Held(Deliver(doc, ds, verified).log))
    ensures Reflects(Deliver(doc, ds, verified).crdt, Held(Deliver(doc, ds, verified).log))
  {
    hide Mirrored, Step, Held, Reflects, DistinctStamps, AncestorClosed;
    if ds != [] {
      var front, last := ds[..|ds| - 1], ds[|ds| - 1];
      DeliverGrows(doc, front, verified);
      StepKeepsMirrored(Deliver(doc, front, verified), last, verified);
      StampsShrink(Held(Deliver(doc, front, verified).log), Held(Deliver(doc, ds, verified).log));
      DeliverReflects(doc, front, verified);
      StepKeepsReflects(Deliver(doc, front, verified), last, verified);
    }
  }

  lemma StampsShrink(s: History, t: History)
    requires Extends(s, t) && DistinctStamps(t)
    ensures DistinctStamps(s)
  {
  }

  lemma AmbiguityShrinks(s: History, t: History)
    requires Extends(s, t) && Unambiguous(t)
    ensures Unambiguous(s)
  {
  }

  /**
   * Two causal deliveries of the same offer end in the same history. Only what one of them holds must have its keys in
   * order.
   */
  lemma DeliveriesHoldTheSame(doc: Doc, g: Delta, xs: seq<Delta>, ys: seq<Delta>, verified: bool)
    requires Sound(doc, g, verified) && doc.log == [g]
    requires CollisionFree([g] + xs) && (forall d :: d in xs <==> d in ys)
    requires CausalDelivery(g, xs) && CausalDelivery(g, ys)
    requires verified ==> LowerKeysFirst(Held(Deliver(doc, xs, verified).log))
    ensures Held(Deliver(doc, xs, verified).log) == Held(Deliver(doc, ys, verified).log)
  {
    hide Held, Deliver, Sound, AdmittedLog, AncestorClosed, Universe, CausalDelivery, LowerKeysFirst, Saturated;
    SameOffer(g, xs, ys);
    DeliveryIsAdmitted(doc, g, xs, verified);
    DeliveryIsAdmitted(doc, g, ys, verified);
    var x, y, u := Deliver(doc, xs, verified).log, Deliver(doc, ys, verified).log, Universe(g, xs);
    CausalDeliverySaturates(doc, g, xs, verified);
    AdmittedIsGrounded(doc.did, g, x, verified);
    AdmittedFlows(doc.did, g, y, u, Held(x), Held(x), verified);
    if verified {
      LowerKeysOfPart(Held(y), Held(x));
    }
    CausalDeliverySaturates(doc, g, ys, verified);
    SaturatedUnique(doc.did, g, x, y, u, verified);
  }

  /**
   * Any two causal deliveries of the same offer end in the same history and, where stamps tell its deltas apart, the
   * same state.
   */
  lemma StrongEventualConsistency(did: Did, key: PublicKey, text: string, hash: Hash,
                                  xs: seq<Delta>, ys: seq<Delta>, verified: bool)
    requires var g := Genesis(did, key, text, hash);
             && CollisionFree([g] + xs) && (forall d :: d in xs <==> d in ys)
             && CausalDelivery(g, xs) && CausalDelivery(g, ys)
             && (verified ==> LowerKeysFirst(Held(Deliver(NewDoc(did, g), xs, verified).log)))
    ensures var g := Genesis(did, key, text, hash);
            var a, b := Deliver(NewDoc(did, g), xs, verified), Deliver(NewDoc(did, g), ys, verified);
            && Held(a.log) == Held(b.log)
            && Frontier(Held(a.log)) == Frontier(Held(b.log))
            && (Unambiguous(Held(a.log)) ==> a.crdt == b.crdt)
  {
    hide Held, Deliver, Sound, Mirrored, AdmittedLog, AncestorClosed, Reflects, CausalDelivery, LowerKeysFirst,
         Unambiguous, Frontier, Apply, DistinctStamps;
    var g := Genesis(did, key, text, hash);
    var doc := NewDoc(did, g);
    NewDocIsSound(did, key, text, hash, verified);
    DeliveriesHoldTheSame(doc, g, xs, ys, verified);
    var a, b := Deliver(doc, xs, verified), Deliver(doc, ys, verified);
    if Unambiguous(Held(a.log)) {
      SoundIsMirrored(doc, g, verified);
      UnambiguousStamps(Held(a.log));
      DeliverReflects(doc, xs, verified);
      DeliverReflects(doc, ys, verified);
      ClosedFormUnique(a.crdt, b.crdt, Held(a.log));
    }
  }

  lemma UnambiguousStamps(s: History)
    requires Unambiguous(s)
    ensures DistinctStamps(s)
  {
  }

  lemma SameOffer(g: Delta, xs: seq<Delta>, ys: seq<Delta>)
    requires CollisionFree([g] + xs) && forall d :: d in xs <==> d in ys
    ensures CollisionFree([g] + ys) && Universe(g, xs) == Universe(g, ys)
  {
    hide InsertAll;
    assert forall d :: d in [g] + xs <==> d in [g] + ys;
    InsertOrderIrrelevant(map[], [g] + xs, [g] + ys);
  }

  /** Add wins, after any delivery: an endpoint add is live iff no held remove of its id has it in its past. */
  lemma AddWins(did: Did, key: PublicKey, text: string, hash: Hash, ds: seq<Delta>, verified: bool, h: Hash)
    requires var doc := Deliver(NewDoc(did, Genesis(did, key, text, hash)), ds, verified);
             DistinctStamps(Held(doc.log)) && h in Held(doc.log) && Held(doc.log)[h].op.AddServiceEndpoint?
    ensures var doc := Deliver(NewDoc(did, Genesis(did, key, text, hash)), ds, verified);
            var s, o := Held(doc.log), doc.crdt.services;
            && (s[h].stamp in o.live <==>
                forall r :: r in s && s[r].op.RemoveServiceEndpoint? && s[r].op.serviceId == s[h].op.service.id ==>
                  h !in Past(s, Elements(s[r].parents)))
            && (s[h].stamp in o.live ==> o.live[s[h].stamp] == s[h].op.service)
            && VersionVectors.Tops(o.context, Image(s, ServiceDotOf))
  {
    hide Deliver, Held, Sound, Mirrored, AdmittedLog, AncestorClosed, Apply, PlainReflects, VersionVectors.Tops, Image,
         Past;
    var g := Genesis(did, key, text, hash);
    NewDocIsSound(did, key, text, hash, verified);
    SoundIsMirrored(NewDoc(did, g), g, verified);
    DeliverReflects(NewDoc(did, g), ds, verified);
    var doc := Deliver(NewDoc(did, g), ds, verified);
    LiveIff(doc.crdt.services.live, Held(doc.log), h);
  }

  lemma LiveIff(live: map<Stamp, ServiceEntry>, s: History, h: Hash)
    requires LiveReflects(live, s) && DistinctStamps(s) && h in s && s[h].op.AddServiceEndpoint?
    ensures s[h].stamp in live <==>
            forall r :: r in s && s[r].op.RemoveServiceEndpoint? && s[r].op.serviceId == s[h].op.service.id ==>
              h !in Past(s, Elements(s[r].parents))
    ensures s[h].stamp in live ==> live[s[h].stamp] == s[h].op.service
  {
    hide Past, Elements;
    assert s[h].stamp in live <==> !Cancelled(s, h) by {
      hide Cancelled;
      if s[h].stamp in live {
        var k: Hash :| LiveAdd(s, k) && s[k].stamp == s[h].stamp;
        assert k == h;
      } else {
        assert !LiveAdd(s, h);
      }
    }
    if Cancelled(s, h) {
      var r :| r in s && Cancels(s, r, h);
      assert r in s && s[r].op.RemoveServiceEndpoint? && s[r].op.serviceId == s[h].op.service.id;
    } else {
      forall r | r in s && s[r].op.RemoveServiceEndpoint? && s[r].op.serviceId == s[h].op.service.id
        ensures h !in Past(s, Elements(s[r].parents))
      {
        assert !Cancels(s, r, h);
      }
    }
  }

  // ── one replica feeding another ─────────────────────────────────────────────

  /**
   * `a` was admitted from `g`; `b` mirrors an ancestor-closed log that holds `g`, and whatever else besides; hashes
   * agree and lower keys come first.
   */
  ghost predicate Feeds(a: Doc, b: Doc, g: Delta, verified: bool) {
    && AdmittedLog(a.did, g, a.log, verified) && a.did == b.did
    && Mirrored(b) && AncestorClosed(Held(b.log)) && g.hash in Held(b.log)
    && Agree(Held(a.log), Held(b.log)) && (verified ==> LowerKeysFirst(Held(a.log) + Held(b.log)))
  }

  /** Two replicas admitted from one genesis feed each other. */
  lemma SoundFeeds(a: Doc, b: Doc, g: Delta, verified: bool)
    requires Sound(a, g, verified) && Sound(b, g, verified) && a.did == b.did
    requires Agree(Held(a.log), Held(b.log)) && (verified ==> LowerKeysFirst(Held(a.log) + Held(b.log)))
    ensures Feeds(a, b, g, verified) && Feeds(b, a, g, verified)
  {
    hide Sound, Held, AdmittedLog, LowerKeysFirst, AncestorClosed, Mirrored;
    SoundIsMirrored(a, g, verified);
    SoundIsMirrored(b, g, verified);
    assert Held(a.log) + Held(b.log) == Held(b.log) + Held(a.log);
  }
}
