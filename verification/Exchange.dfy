/** The inbound retry loop, and replicas reconciling through it. */
module Exchange {
  import opened Deltas
  import opened Histories
  import opened Dag
  import opened Causal
  import opened State
  import opened StateLaws
  import opened Documents
  import opened Keys
  import opened Convergence
  import opened Recon
  import opened Bundles
  import opened Payloads
  import Growth
  import Replicas

  ghost predicate IsPending(r: Result) {
    r.Err? && r.error.DeltaPending?
  }

  /** One pass over the batch: the document after it, and what is still pending. */
  ghost function Pass(doc: Doc, ds: seq<Delta>): (Doc, seq<Delta>) {
    if ds == [] then (doc, [])
    else
      var (mid, still) := Pass(doc, ds[..|ds| - 1]);
      var d := ds[|ds| - 1];
      var (after, r) := MergeVerified(mid, d);
      (after, if IsPending(r) then still + [d] else still)
  }

  lemma {:induction false} PassShrinks(doc: Doc, ds: seq<Delta>)
    ensures |Pass(doc, ds).1| <= |ds|
  {
    hide MergeVerified;
    if ds != [] {
      PassShrinks(doc, ds[..|ds| - 1]);
    }
  }

  /** Repeat until nothing is pending or a pass makes no progress. */
  ghost function Retry(doc: Doc, ds: seq<Delta>): Doc
    decreases |ds|
  {
    PassShrinks(doc, ds);
    var (after, still) := Pass(doc, ds);
    if still == [] || |still| == |ds| then after else Retry(after, still)
  }

  /** Held, or refused with a resolved verdict: nothing that arrives later changes it. */
  ghost predicate Decided(did: Did, d: Delta, s: History) {
    d.hash in s || (!Admissible(did, d, s, true) && !VerifyCausal(d, s).Unknown?)
  }

  lemma DecidedForGood(did: Did, d: Delta, s: History, t: History)
    requires Decided(did, d, s) && s != map[] && Extends(s, t) && KeysSettled(s, t)
    ensures Decided(did, d, t)
  {
    hide VerifyCausal, SignatureOk, KeysSettled, Image, Past, LocalOk;
    if d.hash !in s {
      if d.parents == [] {
        RootlessRefused(did, d, s, t);
      } else {
        AdmissionMonotone(d, s, t);
        if VerifyCausal(d, s).Valid? {
          SignatureFixed(d, s, t);
        }
      }
    }
  }

  lemma RootlessRefused(did: Did, d: Delta, s: History, t: History)
    requires d.parents == [] && s != map[] && Extends(s, t)
    ensures !Admissible(did, d, t, true) && !VerifyCausal(d, t).Unknown?
  {
    hide Past, SignatureOk;
    var h :| h in s;
    assert h in t;
  }

  /** One verified step decides its delta, or leaves it pending and the document alone. */
  lemma StepDecides(doc: Doc, d: Delta)
    requires Mirrored(doc)
    ensures var (after, r) := MergeVerified(doc, d);
            if IsPending(r) then after == doc && VerifyCausal(d, Held(doc.log)).Unknown? && d.hash !in Held(doc.log)
            else Decided(doc.did, d, Held(after.log))
  {
    hide Held, VerifyCausal, SignatureOk, Admissible, Mirrored, Merge, Apply;
    StepAdmits(doc, d, true);
    PendingIsUnknown(doc, d);
    HeldAppend(doc.log, d);
  }

  lemma PendingIsUnknown(doc: Doc, d: Delta)
    ensures d.hash !in Held(doc.log) && VerifyCausal(d, Held(doc.log)).Unknown? ==> IsPending(MergeVerified(doc, d).1)
  {
    hide Held, VerifyCausal, SignatureOk, Merge;
  }

  // ── passes are deliveries ───────────────────────────────────────────────────

  lemma {:induction false} PassIsDelivery(doc: Doc, ds: seq<Delta>)
    ensures Pass(doc, ds).0 == Deliver(doc, ds, true)
    ensures forall d :: d in Pass(doc, ds).1 ==> d in ds
  {
    hide MergeVerified;
    if ds != [] {
      SplitLast(ds);
      PassIsDelivery(doc, ds[..|ds| - 1]);
    }
  }

  /** The retry loop delivers deltas of the batch, some of them more than once. */
  lemma {:induction false} RetryIsDelivery(doc: Doc, ds: seq<Delta>) returns (es: seq<Delta>)
    ensures Retry(doc, ds) == Deliver(doc, es, true)
    ensures forall d :: d in es ==> d in ds
    decreases |ds|
  {
    hide Pass, Step;
    PassShrinks(doc, ds);
    PassIsDelivery(doc, ds);
    es := ds;
    var (after, still) := Pass(doc, ds);
    if still != [] && |still| != |ds| {
      var more := RetryIsDelivery(after, still);
      DeliverConcat(doc, ds, more, true);
      es := ds + more;
    }
  }

  /** `doc` lies within the payloads `u`, where the key under an id known to it never changes. */
  ghost predicate Within(doc: Doc, u: History) {
    var p := PayloadsOf(Held(doc.log));
    Extends(p, u) && LowerKeysFirst(u) && KeysSettled(p, u)
  }

  /** Growing from one document to another, the key under an id known on the way never changes. */
  ghost predicate KeysInOrder(before: Doc, after: Doc) {
    LowerKeysFirst(Held(after.log)) && KeysSettled(Held(before.log), Held(after.log))
  }

  lemma OrderedIsWithin(before: Doc, after: Doc)
    requires KeysInOrder(before, after) && Extends(Held(before.log), Held(after.log))
    ensures Within(before, PayloadsOf(Held(after.log)))
  {
    hide Held, LowerKeysFirst, KeysSettled, PayloadsOf;
    PayloadsExtend(Held(before.log), Held(after.log));
    KeysOfPayloads(Held(before.log), Held(after.log));
    KeysOfPayloads(Held(after.log), Held(after.log));
  }

  lemma StepStaysWithin(doc: Doc, d: Delta, u: History)
    requires Mirrored(doc) && Within(doc, u) && Extends(PayloadsOf(Held(Step(doc, d, true).0.log)), u)
    ensures Within(Step(doc, d, true).0, u)
  {
    hide Mirrored, Held, Step, LowerKeysFirst, KeysSettled, Admissible, FactsBacked, Image, Complete, Elements;
    StepAdmits(doc, d, true);
    MirroredIsBacked(doc);
    if Step(doc, d, true).0 != doc {
      var s := Held(doc.log);
      HeldAppend(doc.log, d);
      LastIsGrounded(doc.did, d, s, true);
      PayloadsWith(s, d);
      CompleteOfPayloads(s, Elements(d.parents));
      SettledStep(Payload(d), PayloadsOf(s), u);
    }
  }

  lemma {:induction false} DeliverStaysWithin(doc: Doc, ds: seq<Delta>, u: History)
    requires Mirrored(doc) && Within(doc, u) && Extends(PayloadsOf(Held(Deliver(doc, ds, true).log)), u)
    ensures Within(Deliver(doc, ds, true), u)
  {
    hide Mirrored, Held, Step, Within, PayloadsOf;
    if ds != [] {
      var mid, last := Deliver(doc, ds[..|ds| - 1], true), ds[|ds| - 1];
      DeliverGrows(doc, ds[..|ds| - 1], true);
      StepKeepsMirrored(mid, last, true);
      PayloadsExtend(Held(mid.log), Held(Step(mid, last, true).0.log));
      ExtendsThrough(PayloadsOf(Held(mid.log)), PayloadsOf(Held(Step(mid, last, true).0.log)), u);
      DeliverStaysWithin(doc, ds[..|ds| - 1], u);
      StepStaysWithin(mid, last, u);
    }
  }

  /** `s` holds the payload of every delta of `ds` that it could ever admit. */
  ghost predicate Absorbs(did: Did, ds: seq<Delta>, s: History) {
    forall d :: d in ds ==> if d.hash in s then s[d.hash] == Payload(d) else !Admissible(did, d, s, true)
  }

  lemma StepFlows(doc: Doc, d: Delta, s: History, u: History)
    requires Mirrored(doc) && Within(doc, u) && Absorbs(doc.did, [d], s)
    requires Extends(PayloadsOf(Held(doc.log)), s) && Extends(s, u)
    ensures Extends(PayloadsOf(Held(Step(doc, d, true).0.log)), s)
  {
    hide Mirrored, Held, Step, LowerKeysFirst, KeysSettled, Admissible, FactsBacked, Image, PayloadsOf;
    assert d in [d];
    StepAdmits(doc, d, true);
    MirroredIsBacked(doc);
    if Step(doc, d, true).0 != doc {
      var p := PayloadsOf(Held(doc.log));
      HeldAppend(doc.log, d);
      PayloadsWith(Held(doc.log), d);
      AdmissibleOfPayloads(doc.did, d, Held(doc.log), true);
      SettledPart(p, s, u);
      PayloadsNonEmpty(Held(doc.log));
      AdmissibleStable(doc.did, d, p, s, true);
    }
  }

  lemma PayloadsNonEmpty(s: History)
    requires s != map[]
    ensures PayloadsOf(s) != map[]
  {
    var h :| h in s;
    assert h in PayloadsOf(s);
  }

  /** Whatever a delivery takes in, every history that absorbs the offer holds as well. */
  lemma {:induction false} DeliverFlows(doc: Doc, ds: seq<Delta>, s: History, u: History)
    requires Mirrored(doc) && Within(doc, u) && Absorbs(doc.did, ds, s)
    requires Extends(PayloadsOf(Held(doc.log)), s) && Extends(s, u)
    ensures Extends(PayloadsOf(Held(Deliver(doc, ds, true).log)), s)
  {
    hide Mirrored, Held, Step, Within, Admissible, PayloadsOf, Extends;
    if ds != [] {
      var front, last := ds[..|ds| - 1], ds[|ds| - 1];
      SplitLast(ds);
      DeliverFlows(doc, front, s, u);
      DeliverGrows(doc, front, true);
      ExtendsThrough(PayloadsOf(Held(Deliver(doc, front, true).log)), s, u);
      DeliverStaysWithin(doc, front, u);
      StepFlows(Deliver(doc, front, true), last, s, u);
    }
  }

  // ── what the loop leaves behind ─────────────────────────────────────────────

  /** Every delta of `ds` still waits for something absent. */
  ghost predicate Waiting(ds: seq<Delta>, s: History) {
    forall d :: d in ds ==> d.hash !in s && VerifyCausal(d, s).Unknown?
  }

  lemma WaitingNone(s: History)
    ensures Waiting([], s)
  {
  }

  lemma WaitingMore(ds: seq<Delta>, d: Delta, s: History)
    ensures Waiting(ds, s) && d.hash !in s && VerifyCausal(d, s).Unknown? ==> Waiting(ds + [d], s)
  {
    hide VerifyCausal;
  }

  lemma DecidedGrows(did: Did, ds: seq<Delta>, still: seq<Delta>, before: Doc, after: Doc, u: History)
    requires forall d :: d in ds ==> d in still || Decided(did, d, Held(before.log))
    requires Held(before.log) != map[] && Extends(Held(before.log), Held(after.log))
    requires Within(before, u) && Extends(PayloadsOf(Held(after.log)), u)
    ensures forall d :: d in ds ==> d in still || Decided(did, d, Held(after.log))
  {
    hide Decided, KeysSettled, LowerKeysFirst, Held, PayloadsOf;
    var s, t := Held(before.log), Held(after.log);
    SettledPart(PayloadsOf(s), PayloadsOf(t), u);
    KeysOfPayloads(s, t);
    forall d | d in ds && d !in still ensures Decided(did, d, t) {
      DecidedForGood(did, d, s, t);
    }
  }

  /** What a pass does: everything it leaves behind is decided, and a pass without progress changes nothing. */
  lemma {:induction false} PassFacts(doc: Doc, ds: seq<Delta>, u: History)
    requires Mirrored(doc) && Within(doc, u) && Extends(PayloadsOf(Held(Pass(doc, ds).0.log)), u)
    ensures var (after, still) := Pass(doc, ds);
            && (forall d :: d in ds ==> d in still || Decided(doc.did, d, Held(after.log)))
            && (|still| == |ds| ==> after == doc && still == ds && Waiting(ds, Held(doc.log)))
  {
    hide Mirrored, Held, Decided, MergeVerified, Waiting, Within, VerifyCausal, PayloadsOf, Extends;
    PassShrinks(doc, ds);
    if ds == [] {
      WaitingNone(Held(doc.log));
    } else {
      var front, last := ds[..|ds| - 1], ds[|ds| - 1];
      SplitLast(ds);
      PassShrinks(doc, front);
      PassIsDelivery(doc, front);
      DeliverGrows(doc, front, true);
      var (mid, still) := Pass(doc, front);
      var after := MergeVerified(mid, last).0;
      assert Pass(doc, ds).0 == after && after == Step(mid, last, true).0;
      StepKeepsMirrored(mid, last, true);
      PayloadsExtend(Held(mid.log), Held(after.log));
      ExtendsThrough(PayloadsOf(Held(mid.log)), PayloadsOf(Held(after.log)), u);
      PassFacts(doc, front, u);
      DeliverStaysWithin(doc, front, u);
      StepDecides(mid, last);
      DecidedGrows(doc.did, front, still, mid, after, u);
      WaitingMore(front, last, Held(doc.log));
    }
  }

  /** The loop ends with every delta of the batch held, refused for good, or waiting for an absent ancestor. */
  lemma {:induction false} RetryFacts(doc: Doc, ds: seq<Delta>, u: History)
    requires Mirrored(doc) && Within(doc, u) && Extends(PayloadsOf(Held(Retry(doc, ds).log)), u)
    ensures var s := Held(Retry(doc, ds).log);
            forall d :: d in ds ==> Decided(doc.did, d, s) || VerifyCausal(d, s).Unknown?
    decreases |ds|
  {
    hide Mirrored, Held, Pass, Within, Decided, VerifyCausal, Waiting, PayloadsOf, Extends;
    PassShrinks(doc, ds);
    PassIsDelivery(doc, ds);
    DeliverGrows(doc, ds, true);
    var (after, still) := Pass(doc, ds);
    if still != [] && |still| != |ds| {
      var last := Retry(after, still);
      RetryGrows(after, still);
      PayloadsExtend(Held(after.log), Held(last.log));
      ExtendsThrough(PayloadsOf(Held(after.log)), PayloadsOf(Held(last.log)), u);
      PassFacts(doc, ds, u);
      DeliverStaysWithin(doc, ds, u);
      RetryFacts(after, still, u);
      DecidedGrows(doc.did, ds, still, after, last, u);
    } else {
      PassFacts(doc, ds, u);
      WaitingAre(ds, Held(doc.log));
    }
  }

  lemma RetryGrows(doc: Doc, ds: seq<Delta>)
    requires Mirrored(doc)
    ensures var after := Retry(doc, ds);
            && Mirrored(after) && after.did == doc.did && Extends(Held(doc.log), Held(after.log))
            && (AncestorClosed(Held(doc.log)) ==> AncestorClosed(Held(after.log)))
            && (forall h :: h in Held(after.log) && h !in Held(doc.log) ==>
                  Held(after.log)[h] in ds && Held(after.log)[h].hash == h)
  {
    hide Mirrored, Held, Retry, Deliver, AncestorClosed;
    var es := RetryIsDelivery(doc, ds);
    DeliverGrows(doc, es, true);
  }

  /** The loop keeps a log admitted, and the state in closed form. */
  lemma RetryKeepsSound(doc: Doc, g: Delta, ds: seq<Delta>, checked: bool)
    requires Sound(doc, g, checked)
    ensures Sound(Retry(doc, ds), g, checked)
  {
    hide Sound, Retry, Deliver;
    var es := RetryIsDelivery(doc, ds);
    DeliverKeepsSound(doc, g, es, true, checked);
  }

  lemma RetryReflects(doc: Doc, ds: seq<Delta>)
    requires Mirrored(doc) && AncestorClosed(Held(doc.log)) && Reflects(doc.crdt, Held(doc.log))
    requires DistinctStamps(Held(Retry(doc, ds).log))
    ensures Reflects(Retry(doc, ds).crdt, Held(Retry(doc, ds).log))
  {
    hide Mirrored, Retry, Deliver, Held, Reflects, DistinctStamps, AncestorClosed;
    var es := RetryIsDelivery(doc, ds);
    DeliverReflects(doc, es, true);
  }

  lemma WaitingAre(ds: seq<Delta>, s: History)
    ensures Waiting(ds, s) ==> forall d :: d in ds ==> VerifyCausal(d, s).Unknown?
  {
    hide VerifyCausal;
  }

  lemma NeverAdmissible(did: Did, d: Delta, s: History)
    requires Decided(did, d, s) || VerifyCausal(d, s).Unknown?
    ensures d.hash in s || !Admissible(did, d, s, true)
  {
    hide VerifyCausal, SignatureOk;
  }

  /** `u` is what `doc` holds together with what `ds` offers, and keys in it are in order. */
  ghost predicate SettledOffer(doc: Doc, ds: seq<Delta>, u: History) {
    && Extends(Held(doc.log), u) && WellIndexed(u)
    && (forall d :: d in ds ==> d.hash in u && u[d.hash] == d)
    && (forall h :: h in u ==> h in Held(doc.log) || u[h] in ds)
    && LowerKeysFirst(u) && KeysSettled(Held(doc.log), u)
  }

  lemma OfferIsWithin(doc: Doc, ds: seq<Delta>, u: History)
    requires Mirrored(doc) && SettledOffer(doc, ds, u)
    ensures Within(doc, PayloadsOf(u)) && Extends(Held(Retry(doc, ds).log), u)
  {
    hide Mirrored, Held, Retry, LowerKeysFirst, KeysSettled, AncestorClosed;
    PayloadsExtend(Held(doc.log), u);
    KeysOfPayloads(Held(doc.log), u);
    KeysOfPayloads(u, u);
    RetryGrows(doc, ds);
  }

  /** The loop saturates: it takes in all of the batch that it ever could. */
  lemma RetrySaturates(doc: Doc, ds: seq<Delta>, u: History)
    requires Mirrored(doc) && SettledOffer(doc, ds, u)
    ensures Extends(Held(Retry(doc, ds).log), u)
    ensures Saturated(doc.did, u, Held(Retry(doc, ds).log), true)
  {
    hide Mirrored, Held, Retry, Within, Decided, VerifyCausal, Admissible, PayloadsOf, LowerKeysFirst, KeysSettled,
         AncestorClosed;
    OfferIsWithin(doc, ds, u);
    RetryGrows(doc, ds);
    var s := Held(Retry(doc, ds).log);
    PayloadsExtend(s, u);
    RetryFacts(doc, ds, PayloadsOf(u));
    forall h | h in u && h !in s ensures !Admissible(doc.did, u[h], s, true) {
      NeverAdmissible(doc.did, u[h], s);
    }
  }

  /** What the loop leaves behind absorbs the batch, copies that differ only in their proof included. */
  lemma RetryAbsorbs(doc: Doc, ds: seq<Delta>, u: History)
    requires Mirrored(doc) && OnePayload(Held(doc.log), ds)
    requires Within(doc, u) && Extends(PayloadsOf(Held(Retry(doc, ds).log)), u)
    ensures Absorbs(doc.did, ds, PayloadsOf(Held(Retry(doc, ds).log)))
  {
    hide Mirrored, Held, Retry, Within, Decided, VerifyCausal, Admissible, AncestorClosed, Payload;
    RetryFacts(doc, ds, u);
    RetryGrows(doc, ds);
    var s := Held(Retry(doc, ds).log);
    var p := PayloadsOf(s);
    forall d | d in ds ensures if d.hash in p then p[d.hash] == Payload(d) else !Admissible(doc.did, d, p, true) {
      NeverAdmissible(doc.did, d, s);
      AdmissibleOfPayloads(doc.did, d, s, true);
    }
  }

  lemma SamePayloads(s: History, ds: seq<Delta>, es: seq<Delta>)
    requires OnePayload(s, ds) && forall d :: d in ds <==> d in es
    ensures OnePayload(s, es)
  {
    hide Payload;
  }

  /**
   * The order of a batch does not matter to what ends up held; what stays out is refused for good or lacks an ancestor.
   */
  lemma InboundOrderIrrelevant(doc: Doc, ds: seq<Delta>, es: seq<Delta>)
    requires Mirrored(doc) && OnePayload(Held(doc.log), ds) && (forall d :: d in ds <==> d in es)
    requires KeysInOrder(doc, Retry(doc, ds))
    ensures PayloadsOf(Held(Retry(doc, ds).log)) == PayloadsOf(Held(Retry(doc, es).log))
    ensures forall d :: d in ds && d.hash !in Held(Retry(doc, ds).log) ==>
              Decided(doc.did, d, Held(Retry(doc, ds).log)) || !Complete(Held(Retry(doc, ds).log), Elements(d.parents))
  {
    hide Mirrored, Held, Retry, Deliver, Within, Decided, VerifyCausal, Absorbs, OnePayload, KeysInOrder, PayloadsOf,
         AncestorClosed, Complete;
    RetryGrows(doc, ds);
    RetryGrows(doc, es);
    var s, t, v := Held(Retry(doc, ds).log), PayloadsOf(Held(Retry(doc, ds).log)), PayloadsOf(Held(Retry(doc, es).log));
    OrderedIsWithin(doc, Retry(doc, ds));
    RetryAbsorbs(doc, ds, t);
    SamePayloads(Held(doc.log), ds, es);
    PayloadsExtend(Held(doc.log), s);
    PayloadsExtend(Held(doc.log), Held(Retry(doc, es).log));
    FlowsInto(doc, ds, es, t, t);
    RetryAbsorbs(doc, es, t);
    FlowsInto(doc, es, ds, v, t);
    assert t == v;
    RetryFacts(doc, ds, t);
    forall d | d in ds && VerifyCausal(d, s).Unknown? ensures !Complete(s, Elements(d.parents)) {
      UnknownIsIncomplete(d, s);
    }
  }

  /** What the loop takes in, every history that absorbs the same offer holds as well. */
  lemma FlowsInto(doc: Doc, ds: seq<Delta>, es: seq<Delta>, s: History, u: History)
    requires Mirrored(doc) && Within(doc, u) && Absorbs(doc.did, ds, s) && (forall d :: d in ds <==> d in es)
    requires Extends(PayloadsOf(Held(doc.log)), s) && Extends(s, u)
    ensures Extends(PayloadsOf(Held(Retry(doc, es).log)), s)
  {
    hide Mirrored, Held, Retry, Deliver, Within, Admissible, PayloadsOf, Extends;
    var ms := RetryIsDelivery(doc, es);
    DeliverFlows(doc, ms, s, u);
  }

  /** Nor does it matter to the state, on any document whose state is drawn from its log, in closed form or not. */
  lemma InboundStateOrderIrrelevant(doc: Doc, ds: seq<Delta>, es: seq<Delta>)
    requires Mirrored(doc) && Replicas.Drawn(doc)
    requires OnePayload(Held(doc.log), ds) && (forall d :: d in ds <==> d in es)
    requires KeysInOrder(doc, Retry(doc, ds)) && Unambiguous(Held(Retry(doc, ds).log))
    ensures Retry(doc, ds).crdt == Retry(doc, es).crdt
  {
    hide Mirrored, Held, Retry, Deliver, Replicas.Drawn, Unambiguous, Decided, OnePayload, KeysInOrder, PayloadsOf,
         Complete;
    InboundOrderIrrelevant(doc, ds, es);
    var ms := RetryIsDelivery(doc, ds);
    var ns := RetryIsDelivery(doc, es);
    Growth.SameHoldingsSameState(doc, ms, ns, true);
  }

  lemma UnknownIsIncomplete(d: Delta, s: History)
    requires VerifyCausal(d, s).Unknown?
    ensures !Complete(s, Elements(d.parents))
  {
    hide Past, KeyRevoked, DeactivatedIn, KeyAdded;
  }

  /** A document that is quiet about an offer absorbs it, copies included. */
  lemma QuietAbsorbs(doc: Doc, ds: seq<Delta>, after: Doc)
    requires OnePayload(Held(doc.log), ds) && Extends(Held(doc.log), Held(after.log))
    requires forall h :: h in Held(after.log) && h !in Held(doc.log) ==>
               Held(after.log)[h] in ds && Held(after.log)[h].hash == h
    ensures Quiet(doc.did, ds, Held(after.log), true) <==> Absorbs(doc.did, ds, PayloadsOf(Held(after.log)))
  {
    hide Held, Admissible, Payload;
    var s := Held(after.log);
    var p := PayloadsOf(s);
    forall d | d in ds
      ensures d.hash in p <==> d.hash in s
      ensures d.hash in p ==> p[d.hash] == Payload(d)
      ensures Admissible(doc.did, d, p, true) <==> Admissible(doc.did, d, s, true)
    {
      AdmissibleOfPayloads(doc.did, d, s, true);
    }
  }

  /**
   * Copies that differ only in their proof allowed: next to a delivery that leaves nothing to admit, another delivery
   * of the same offer ends up with the same payloads exactly when it leaves nothing to admit either.
   */
  lemma QuietDeliveriesAgreeIff(doc: Doc, xs: seq<Delta>, ys: seq<Delta>)
    requires Mirrored(doc) && OnePayload(Held(doc.log), xs) && (forall d :: d in xs <==> d in ys)
    requires KeysInOrder(doc, Deliver(doc, xs, true)) && Quiet(doc.did, xs, Held(Deliver(doc, xs, true).log), true)
    ensures PayloadsOf(Held(Deliver(doc, xs, true).log)) == PayloadsOf(Held(Deliver(doc, ys, true).log)) <==>
            Quiet(doc.did, ys, Held(Deliver(doc, ys, true).log), true)
  {
    hide Mirrored, Held, Deliver, Within, Absorbs, OnePayload, KeysInOrder, PayloadsOf, AncestorClosed, Quiet;
    var a, b := Deliver(doc, xs, true), Deliver(doc, ys, true);
    var t, v := PayloadsOf(Held(a.log)), PayloadsOf(Held(b.log));
    DeliverGrows(doc, xs, true);
    DeliverGrows(doc, ys, true);
    SamePayloads(Held(doc.log), xs, ys);
    QuietAbsorbs(doc, xs, a);
    QuietAbsorbs(doc, ys, b);
    SameAbsorbed(doc.did, xs, ys, t);
    SameAbsorbed(doc.did, xs, ys, v);
    OrderedIsWithin(doc, a);
    PayloadsExtend(Held(doc.log), Held(a.log));
    PayloadsExtend(Held(doc.log), Held(b.log));
    DeliverFlows(doc, ys, t, t);
    if Absorbs(doc.did, ys, v) {
      DeliverFlows(doc, xs, v, t);
      assert t == v;
    }
  }

  lemma SameAbsorbed(did: Did, xs: seq<Delta>, ys: seq<Delta>, s: History)
    requires forall d :: d in xs <==> d in ys
    ensures Absorbs(did, xs, s) <==> Absorbs(did, ys, s)
  {
    hide Admissible, Payload;
  }

  // ── reconciliation ──────────────────────────────────────────────────────────

  /** In an admitted log every delta lies below some head. */
  lemma {:induction false} AdmittedIsHeaded(did: Did, g: Delta, log: seq<Delta>, verified: bool)
    requires AdmittedLog(did, g, log, verified)
    ensures Headed(Held(log))
  {
    hide Held, Admissible, AdmittedLog, AncestorClosed, WellIndexed, Headed, With, Elements, Complete;
    AdmittedIsGrounded(did, g, log, verified);
    if |log| == 1 {
      HeldOne(g);
      assert log == [g];
      GenesisIsHeaded(g);
    } else {
      AdmittedLast(did, g, log, verified);
      var front, last := log[..|log| - 1], log[|log| - 1];
      AdmittedIsGrounded(did, g, front, verified);
      LastIsGrounded(did, last, Held(front), verified);
      AdmittedIsHeaded(did, g, front, verified);
      HeadedStep(Held(front), last);
    }
  }

  lemma GenesisIsHeaded(g: Delta)
    requires g.parents == []
    ensures Headed(map[g.hash := g])
  {
    hide Past;
    var s := map[g.hash := g];
    assert Frontier(s) == {g.hash};
    PastIsClosed(s, Frontier(s));
  }

  /** The answer to a frontier covers what the receiver lacks, and adds only what the sender holds. */
  lemma AnswerCovers(a: Doc, b: Doc, g: Delta, verified: bool)
    requires Feeds(a, b, g, verified)
    ensures var s, t := Held(a.log), Held(b.log);
            s.Keys - t.Keys <= ForPeer(s, Frontier(t)) <= s.Keys
    ensures WellIndexed(Held(a.log))
  {
    hide Held, ForPeer, AdmittedLog, AncestorClosed, LowerKeysFirst, Frontier, Headed, Mirrored, WellIndexed;
    AdmittedIsGrounded(a.did, g, a.log, verified);
    AdmittedIsHeaded(a.did, g, a.log, verified);
    FrontierIsHeld(Held(b.log));
    ForPeerCovers(Held(a.log), Held(b.log), Frontier(Held(b.log)));
  }

  /**
   * It is the difference, and nothing is sent twice, exactly when the receiver's frontier shows all the sender builds
   * on.
   */
  lemma AnswerIsDifferenceIff(a: Doc, b: Doc, g: Delta, verified: bool)
    requires Feeds(a, b, g, verified)
    ensures var s, t := Held(a.log), Held(b.log);
            ForPeer(s, Frontier(t)) == s.Keys - t.Keys <==> FrontierShows(s, t)
  {
    hide Held, ForPeer, AdmittedLog, AncestorClosed, LowerKeysFirst, Frontier, Headed, Mirrored, WellIndexed;
    AdmittedIsGrounded(a.did, g, a.log, verified);
    AdmittedIsHeaded(a.did, g, a.log, verified);
    ForPeerIsDifferenceIff(Held(a.log), Held(b.log));
  }

  /** Reconciliation closes the gap: the receiver ends up holding exactly the union. */
  lemma ReconciliationClosesGap(a: Doc, b: Doc, g: Delta, ds: seq<Delta>)
    requires Feeds(a, b, g, true)
    requires ListsExactly(Held(a.log), ForPeer(Held(a.log), Frontier(Held(b.log))), ds)
    ensures Held(Retry(b, ds).log) == Held(a.log) + Held(b.log)
  {
    hide Mirrored, Held, Retry, AdmittedLog, LowerKeysFirst, KeysSettled, ForPeer, Frontier, Saturated, ListsExactly,
         AncestorClosed, SettledOffer;
    var u := Held(a.log) + Held(b.log);
    AnswerIsOffer(a, b, g, ds);
    RetrySaturates(b, ds, u);
    RetryGrows(b, ds);
    AdmittedFlows(a.did, g, a.log, u, Held(Retry(b, ds).log), u, true);
  }

  lemma AnswerIsOffer(a: Doc, b: Doc, g: Delta, ds: seq<Delta>)
    requires Feeds(a, b, g, true)
    requires ListsExactly(Held(a.log), ForPeer(Held(a.log), Frontier(Held(b.log))), ds)
    ensures SettledOffer(b, ds, Held(a.log) + Held(b.log))
  {
    hide Held, AdmittedLog, LowerKeysFirst, KeysSettled, ForPeer, Frontier, AncestorClosed, Mirrored;
    AnswerCovers(a, b, g, true);
    HeldIsIndexed(b.log);
    ClosedIsSettled(Held(b.log), Held(a.log) + Held(b.log));
  }

  lemma {:induction false} HeldIsIndexed(log: seq<Delta>)
    ensures WellIndexed(Held(log))
  {
    if log != [] {
      HeldIsIndexed(log[..|log| - 1]);
    }
  }

  /** A two-way exchange leaves both replicas with equal histories, frontiers and state. */
  lemma TwoWayExchangeConverges(a: Doc, b: Doc, g: Delta, toB: seq<Delta>, toA: seq<Delta>)
    requires Feeds(a, b, g, true) && Feeds(b, a, g, true) && Unambiguous(Held(a.log) + Held(b.log))
    requires Reflects(a.crdt, Held(a.log)) && Reflects(b.crdt, Held(b.log))
    requires ListsExactly(Held(a.log), ForPeer(Held(a.log), Frontier(Held(b.log))), toB)
    requires ListsExactly(Held(b.log), ForPeer(Held(b.log), Frontier(Held(a.log))), toA)
    ensures var x, y := Retry(a, toA), Retry(b, toB);
            && Held(x.log) == Held(y.log) == Held(a.log) + Held(b.log)
            && Frontier(Held(x.log)) == Frontier(Held(y.log))
            && x.crdt == y.crdt
  {
    hide Mirrored, Held, Retry, AdmittedLog, LowerKeysFirst, ForPeer, Frontier, ListsExactly, Reflects, Unambiguous,
         AncestorClosed, DistinctStamps;
    assert Held(a.log) + Held(b.log) == Held(b.log) + Held(a.log);
    ReconciliationClosesGap(a, b, g, toB);
    ReconciliationClosesGap(b, a, g, toA);
    UnambiguousStamps(Held(a.log) + Held(b.log));
    RetryReflects(a, toA);
    RetryReflects(b, toB);
    ClosedFormUnique(Retry(a, toA).crdt, Retry(b, toB).crdt, Held(a.log) + Held(b.log));
  }

  /** With no line drawn an admitted history is sent whole. */
  lemma EverythingIsSent(did: Did, g: Delta, log: seq<Delta>, verified: bool)
    requires AdmittedLog(did, g, log, verified)
    ensures ForPeer(Held(log), {}) == Held(log).Keys
  {
    hide Held, ForPeer, AdmittedLog, Headed, AncestorClosed, WellIndexed;
    AdmittedIsGrounded(did, g, log, verified);
    AdmittedIsHeaded(did, g, log, verified);
    EverythingIsSentIff(Held(log));
  }

  /** An exported history is accepted by every peer and leaves it with exactly the union. */
  lemma ExportRoundTrip(a: Doc, b: Doc, g: Delta, bundle: Bundle)
    requires Feeds(a, b, g, true) && bundle.target in Held(a.log)
    requires ListsExactly(Held(a.log), Held(a.log).Keys, bundle.deltas)
    ensures MergeVerifiedBundle(b, bundle).1 == Ok
    ensures Held(MergeVerifiedBundle(b, bundle).0.log) == Held(a.log) + Held(b.log)
  {
    hide Mirrored, Held, AdmittedLog, LowerKeysFirst, MergeVerifiedBundle, WellFormed, AncestorClosed;
    AdmittedIsGrounded(a.did, g, a.log, true);
    WholeIsWellFormed(Held(a.log), Held(b.log), bundle);
    HonestBundleMerges(a, b, g, bundle);
    var m := Held(MergeVerifiedBundle(b, bundle).0.log);
    assert m.Keys == (Held(a.log) + Held(b.log)).Keys;
  }

  lemma WholeIsWellFormed(s: History, t: History, bundle: Bundle)
    requires AncestorClosed(s) && WellIndexed(s) && bundle.target in s && ListsExactly(s, s.Keys, bundle.deltas)
    ensures WellFormed(t, bundle) && Hashes(bundle.deltas) == s.Keys
  {
    ListedHashes(s, s.Keys, bundle.deltas);
  }
}
