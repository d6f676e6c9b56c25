/** What a delivery does to the endpoints of a document whose state need not be in closed form. */
module Growth {
  import opened Deltas
  import opened Histories
  import opened Orswots
  import opened VersionVectors
  import opened State
  import opened StateLaws
  import opened Documents
  import opened Convergence
  import opened Payloads
  import opened Replicas

  /** The dots of the adds that `t` holds beyond `s`. */
  ghost function NewAdds(s: History, t: History): set<Dot> {
    set h | h in t && h !in s && t[h].op.AddServiceEndpoint? :: t[h].stamp
  }

  /** The stamps of the service deltas that `t` holds beyond `s`. */
  ghost function NewStamps(s: History, t: History): set<Dot> {
    set h | h in t && h !in s && IsService(t[h]) :: t[h].stamp
  }

  /** The dots observed by the removes that `t` holds beyond `s`. */
  ghost function NewlyObserved(s: History, t: History): set<Dot> {
    set h, dot | h in t && h !in s && t[h].op.RemoveServiceEndpoint?
                 && dot in ObservedDots(t, t[h].parents, t[h].op.serviceId) :: dot
  }

  /** Everything held beyond `s` has its whole past held. */
  ghost predicate NewAreGrounded(s: History, t: History) {
    forall h :: h in t && h !in s ==> Complete(t, Elements(t[h].parents))
  }

  ghost predicate Covered(marks: set<Dot>, dot: Dot) {
    exists m :: m in marks && m.node == dot.node && !Before(m, dot)
  }

  /** Closed form relative to a start: what `o`, at history `t`, became of `start` at history `s`. */
  ghost predicate GrewFrom(start: Orswot, s: History, o: Orswot, t: History) {
    && NewAreGrounded(s, t) && OwnDots(o.context)
    && o.live.Keys == (start.live.Keys + NewAdds(s, t)) - NewlyObserved(s, t)
    && forall dot :: Seen(o.context, dot) <==>
         Seen(start.context, dot) || Covered(NewStamps(s, t) + NewlyObserved(s, t), dot)
  }

  lemma GrewNot(o: Orswot, s: History)
    requires OwnDots(o.context)
    ensures GrewFrom(o, s, o, s)
  {
    hide ObservedDots, Complete, Seen;
    assert NewAdds(s, s) == {} && NewStamps(s, s) == {} && NewlyObserved(s, s) == {};
  }

  /** A start and a history leave one set of live dots and one context. */
  lemma GrowthIsUnique(start: Orswot, s: History, o: Orswot, p: Orswot, t: History)
    requires GrewFrom(start, s, o, t) && GrewFrom(start, s, p, t)
    ensures o.live.Keys == p.live.Keys && o.context == p.context
  {
    hide NewAdds, NewStamps, NewlyObserved, NewAreGrounded, Covered, Seen, OwnDots;
    SeenDetermines(o.context, p.context);
  }

  // ── one delta ───────────────────────────────────────────────────────────────

  /** What a grounded remove observed never changes. */
  lemma ObservedStays(t: History, d: Delta, parents: seq<Hash>, id: string)
    requires d.hash !in t && Complete(t, Elements(parents))
    ensures ObservedDots(t[d.hash := d], parents, id) == ObservedDots(t, parents, id)
  {
    hide Past, Elements;
    var more, from := t[d.hash := d], Elements(parents);
    PastGrows(t, more, from);
    assert forall h :: h in Past(t, from) ==> h in t && more[h] == t[h];
  }

  lemma NewAddsInsert(s: History, t: History, d: Delta)
    requires d.hash !in t && d.hash !in s
    ensures NewAdds(s, t[d.hash := d]) == NewAdds(s, t) + if d.op.AddServiceEndpoint? then {d.stamp} else {}
    ensures NewStamps(s, t[d.hash := d]) == NewStamps(s, t) + if IsService(d) then {d.stamp} else {}
  {
    var more := t[d.hash := d];
    assert more[d.hash] == d && forall h :: h in t ==> h in more && more[h] == t[h];
    forall dot | dot in NewAdds(s, t) ensures dot in NewAdds(s, more) {
      var h :| h in t && h !in s && t[h].op.AddServiceEndpoint? && t[h].stamp == dot;
      assert more[h].stamp == dot;
    }
    forall dot | dot in NewStamps(s, t) ensures dot in NewStamps(s, more) {
      var h :| h in t && h !in s && IsService(t[h]) && t[h].stamp == dot;
      assert more[h].stamp == dot;
    }
  }

  lemma NewlyObservedInsert(s: History, t: History, d: Delta)
    requires d.hash !in t && d.hash !in s && NewAreGrounded(s, t) && Complete(t, Elements(d.parents))
    ensures NewlyObserved(s, t[d.hash := d]) ==
            NewlyObserved(s, t) + if d.op.RemoveServiceEndpoint? then ObservedDots(t, d.parents, d.op.serviceId) else {}
  {
    hide ObservedDots, Complete, Elements;
    var more := t[d.hash := d];
    assert more[d.hash] == d;
    if d.op.RemoveServiceEndpoint? {
      ObservedStays(t, d, d.parents, d.op.serviceId);
    }
    forall h | h in t && h !in s && t[h].op.RemoveServiceEndpoint?
      ensures ObservedDots(more, t[h].parents, t[h].op.serviceId) == ObservedDots(t, t[h].parents, t[h].op.serviceId)
    {
      ObservedStays(t, d, t[h].parents, t[h].op.serviceId);
    }
    forall dot | dot in NewlyObserved(s, t) ensures dot in NewlyObserved(s, more) {
      var h :| h in t && h !in s && t[h].op.RemoveServiceEndpoint?
               && dot in ObservedDots(t, t[h].parents, t[h].op.serviceId);
      assert more[h] == t[h];
    }
    if d.op.RemoveServiceEndpoint? {
      forall dot | dot in ObservedDots(t, d.parents, d.op.serviceId) ensures dot in NewlyObserved(s, more) {
        assert dot in ObservedDots(more, more[d.hash].parents, more[d.hash].op.serviceId);
      }
    }
  }

  lemma StaysGrounded(s: History, t: History, d: Delta)
    requires d.hash !in t && NewAreGrounded(s, t) && Complete(t, Elements(d.parents))
    ensures NewAreGrounded(s, t[d.hash := d])
  {
    hide Past, Elements;
    var more := t[d.hash := d];
    forall h | h in more && h !in s ensures Complete(more, Elements(more[h].parents)) {
      PastGrows(t, more, Elements(more[h].parents));
    }
  }

  /** A dot that is added only now was observed by no remove so far. */
  lemma AddIsUnobserved(s: History, t: History, d: Delta)
    requires d.hash !in t && d.op.AddServiceEndpoint? && DistinctStamps(t[d.hash := d])
    ensures d.stamp !in NewlyObserved(s, t)
  {
    var more := t[d.hash := d];
    forall dot | dot in NewlyObserved(s, t) ensures dot != d.stamp {
      var g: Hash := ObservedAdd(s, t, dot);
      assert more[g] == t[g] && more[d.hash] == d && Contend(t[g], d);
    }
  }

  /** Every observed dot is that of a held add. */
  lemma ObservedAdd(s: History, t: History, dot: Dot) returns (g: Hash)
    requires dot in NewlyObserved(s, t)
    ensures g in t && t[g].op.AddServiceEndpoint? && t[g].stamp == dot
  {
    hide Past, Elements;
    var r :| r in t && r !in s && t[r].op.RemoveServiceEndpoint?
             && dot in ObservedDots(t, t[r].parents, t[r].op.serviceId);
    g :| g in Past(t, Elements(t[r].parents)) && g in t && AddsService(t[g], t[r].op.serviceId) && t[g].stamp == dot;
  }

  lemma LiveGrows(start: Orswot, s: History, o: Orswot, t: History, d: Delta)
    requires GrewFrom(start, s, o, t) && d.hash !in t && d.hash !in s
    requires Complete(t, Elements(d.parents)) && DistinctStamps(t[d.hash := d])
    ensures var more := t[d.hash := d];
            ApplyServices(o, d, t).live.Keys == (start.live.Keys + NewAdds(s, more)) - NewlyObserved(s, more)
  {
    hide ObservedDots, NewAdds, NewStamps, NewlyObserved, Covered, Seen, Complete, Elements, DistinctStamps, Observe,
         ObserveAll;
    NewAddsInsert(s, t, d);
    NewlyObservedInsert(s, t, d);
    if d.op.AddServiceEndpoint? {
      AddIsUnobserved(s, t, d);
    } else if d.op.RemoveServiceEndpoint? {
      var dots := ObservedDots(t, d.parents, d.op.serviceId);
      assert (set x | x in ListOf(dots)) == dots;
    }
  }

  lemma CoveredUnion(a: set<Dot>, b: set<Dot>, dot: Dot)
    ensures Covered(a + b, dot) <==> Covered(a, dot) || Covered(b, dot)
  {
    if Covered(a, dot) {
      var m :| m in a && m.node == dot.node && !Before(m, dot);
      assert m in a + b;
    }
    if Covered(b, dot) {
      var m :| m in b && m.node == dot.node && !Before(m, dot);
      assert m in a + b;
    }
  }

  /** What observing a stamp and a set of dots adds to the context. */
  lemma ContextGrows(context: map<nat, Dot>, stamp: Dot, dots: set<Dot>, dot: Dot)
    ensures Seen(ObserveAll(Observe(context, stamp), ListOf(dots)), dot) <==>
              Seen(context, dot) || Covered({stamp} + dots, dot)
  {
    hide Observe, ObserveAll, Seen;
    SeenAfterAll(Observe(context, stamp), ListOf(dots), dot);
    SeenObserve(context, stamp, dot);
    CoveredUnion({stamp}, dots, dot);
    assert Covered({stamp}, dot) <==> stamp.node == dot.node && !Before(stamp, dot);
  }

  lemma SeenGrows(start: Orswot, s: History, o: Orswot, t: History, d: Delta, dot: Dot)
    requires GrewFrom(start, s, o, t) && d.hash !in t && d.hash !in s && Complete(t, Elements(d.parents))
    ensures var more := t[d.hash := d];
            Seen(ApplyServices(o, d, t).context, dot) <==>
              Seen(start.context, dot) || Covered(NewStamps(s, more) + NewlyObserved(s, more), dot)
  {
    hide ObservedDots, NewAdds, NewStamps, NewlyObserved, Covered, Seen, Complete, Elements, Observe, ObserveAll;
    NewAddsInsert(s, t, d);
    NewlyObservedInsert(s, t, d);
    var stamps, seen, more := NewStamps(s, t), NewlyObserved(s, t), t[d.hash := d];
    if IsService(d) {
      var dots := if d.op.RemoveServiceEndpoint? then ObservedDots(t, d.parents, d.op.serviceId) else {};
      assert NewStamps(s, more) + NewlyObserved(s, more) == (stamps + seen) + ({d.stamp} + dots);
      CoveredUnion(stamps + seen, {d.stamp} + dots, dot);
      ContextGrows(o.context, d.stamp, dots, dot);
      if d.op.AddServiceEndpoint? {
        NothingListed(Observe(o.context, d.stamp));
      }
    } else {
      assert NewStamps(s, more) + NewlyObserved(s, more) == stamps + seen;
    }
  }

  lemma NothingListed(context: map<nat, Dot>)
    ensures ObserveAll(context, ListOf({})) == context
  {
    assert ListOf({}) == [];
  }

  lemma StaysOwn(o: Orswot, d: Delta, t: History)
    requires OwnDots(o.context)
    ensures OwnDots(ApplyServices(o, d, t).context)
  {
    hide ObservedDots;
    SeenObserve(o.context, d.stamp, d.stamp);
    if d.op.RemoveServiceEndpoint? {
      ObserveAllOwns(Observe(o.context, d.stamp), ListOf(ObservedDots(t, d.parents, d.op.serviceId)));
    }
  }

  /** One grounded delta keeps the relative closed form. */
  lemma ApplyGrows(start: Orswot, s: History, o: Orswot, t: History, d: Delta)
    requires GrewFrom(start, s, o, t) && d.hash !in t && d.hash !in s
    requires Complete(t, Elements(d.parents)) && DistinctStamps(t[d.hash := d])
    ensures GrewFrom(start, s, ApplyServices(o, d, t), t[d.hash := d])
  {
    hide NewAdds, NewStamps, NewlyObserved, NewAreGrounded, Covered, Seen, Complete, Elements, DistinctStamps,
         ApplyServices, OwnDots;
    StaysGrounded(s, t, d);
    StaysOwn(o, d, t);
    LiveGrows(start, s, o, t, d);
    forall dot {
      SeenGrows(start, s, o, t, d, dot);
    }
  }

  // ── whole deliveries ────────────────────────────────────────────────────────

  lemma {:induction false} DeliverGrew(doc: Doc, ds: seq<Delta>, verified: bool)
    requires Mirrored(doc) && OwnDots(doc.crdt.services.context)
    requires DistinctStamps(Held(Deliver(doc, ds, verified).log))
    ensures var after := Deliver(doc, ds, verified);
            GrewFrom(doc.crdt.services, Held(doc.log), after.crdt.services, Held(after.log))
  {
    hide Mirrored, Step, Held, GrewFrom, DistinctStamps;
    if ds == [] {
      GrewNot(doc.crdt.services, Held(doc.log));
    } else {
      var front, last := ds[..|ds| - 1], ds[|ds| - 1];
      DeliverGrows(doc, front, verified);
      var mid := Deliver(doc, front, verified);
      StepKeepsMirrored(mid, last, verified);
      StampsShrink(Held(mid.log), Held(Deliver(doc, ds, verified).log));
      DeliverGrew(doc, front, verified);
      StepGrew(doc, mid, last, verified);
    }
  }

  lemma StepGrew(doc: Doc, mid: Doc, d: Delta, verified: bool)
    requires Mirrored(mid) && Extends(Held(doc.log), Held(mid.log))
    requires GrewFrom(doc.crdt.services, Held(doc.log), mid.crdt.services, Held(mid.log))
    requires DistinctStamps(Held(Step(mid, d, verified).0.log))
    ensures var after := Step(mid, d, verified).0;
            GrewFrom(doc.crdt.services, Held(doc.log), after.crdt.services, Held(after.log))
  {
    hide Mirrored, Step, Held, GrewFrom, DistinctStamps, Admissible, FactsBacked, Image, ApplyServices, Complete,
         Elements;
    StepAdmits(mid, d, verified);
    MirroredIsBacked(mid);
    if Step(mid, d, verified).0 != mid {
      HeldAppend(mid.log, d);
      LastIsGrounded(mid.did, d, Held(mid.log), verified);
      ApplyGrows(doc.crdt.services, Held(doc.log), mid.crdt.services, Held(mid.log), d);
    }
  }

  // ── copies with one payload ─────────────────────────────────────────────────

  lemma ObservedOfPayloads(t: History, parents: seq<Hash>, id: string)
    ensures ObservedDots(PayloadsOf(t), parents, id) == ObservedDots(t, parents, id)
  {
    hide Past, Elements;
    PastOfPayloads(t, Elements(parents));
    var p := PayloadsOf(t);
    assert forall h :: h in t ==> h in p && p[h].op == t[h].op && p[h].stamp == t[h].stamp;
    forall dot | dot in ObservedDots(t, parents, id) ensures dot in ObservedDots(p, parents, id) {
      var h :| h in Past(t, Elements(parents)) && h in t && AddsService(t[h], id) && t[h].stamp == dot;
      assert p[h].stamp == dot;
    }
  }

  lemma NewOfPayloads(s: History, t: History)
    ensures NewAdds(PayloadsOf(s), PayloadsOf(t)) == NewAdds(s, t)
    ensures NewStamps(PayloadsOf(s), PayloadsOf(t)) == NewStamps(s, t)
  {
    var p := PayloadsOf(t);
    assert forall h :: h in t ==> h in p && p[h].op == t[h].op && p[h].stamp == t[h].stamp;
    forall dot | dot in NewAdds(s, t) ensures dot in NewAdds(PayloadsOf(s), p) {
      var h :| h in t && h !in s && t[h].op.AddServiceEndpoint? && t[h].stamp == dot;
      assert p[h].stamp == dot;
    }
    forall dot | dot in NewStamps(s, t) ensures dot in NewStamps(PayloadsOf(s), p) {
      var h :| h in t && h !in s && IsService(t[h]) && t[h].stamp == dot;
      assert p[h].stamp == dot;
    }
  }

  lemma NewlyObservedOfPayloads(s: History, t: History)
    ensures NewlyObserved(PayloadsOf(s), PayloadsOf(t)) == NewlyObserved(s, t)
  {
    hide ObservedDots;
    var p := PayloadsOf(t);
    assert forall h :: h in t ==> h in p && p[h].op == t[h].op && p[h].parents == t[h].parents;
    forall h | h in t && t[h].op.RemoveServiceEndpoint?
      ensures ObservedDots(p, p[h].parents, p[h].op.serviceId) == ObservedDots(t, t[h].parents, t[h].op.serviceId)
    {
      ObservedOfPayloads(t, t[h].parents, t[h].op.serviceId);
    }
    forall dot | dot in NewlyObserved(s, t) ensures dot in NewlyObserved(PayloadsOf(s), p) {
      var h :| h in t && h !in s && t[h].op.RemoveServiceEndpoint?
               && dot in ObservedDots(t, t[h].parents, t[h].op.serviceId);
      assert dot in ObservedDots(p, p[h].parents, p[h].op.serviceId);
    }
    forall dot | dot in NewlyObserved(PayloadsOf(s), p) ensures dot in NewlyObserved(s, t) {
      var h :| h in p && h !in PayloadsOf(s) && p[h].op.RemoveServiceEndpoint?
               && dot in ObservedDots(p, p[h].parents, p[h].op.serviceId);
      assert dot in ObservedDots(t, t[h].parents, t[h].op.serviceId);
    }
  }

  lemma GrewOfPayloads(start: Orswot, s: History, o: Orswot, t: History)
    requires GrewFrom(start, s, o, t)
    ensures GrewFrom(start, PayloadsOf(s), o, PayloadsOf(t))
  {
    hide NewAdds, NewStamps, NewlyObserved, Covered, Seen, OwnDots, Complete, Elements;
    NewOfPayloads(s, t);
    NewlyObservedOfPayloads(s, t);
    var p := PayloadsOf(t);
    forall h | h in p && h !in PayloadsOf(s) ensures Complete(p, Elements(p[h].parents)) {
      CompleteOfPayloads(t, Elements(t[h].parents));
    }
  }

  lemma EntriesOfPayloads(o: Orswot, s: History)
    requires EntriesFrom(o, s)
    ensures EntriesFrom(o, PayloadsOf(s))
  {
    hide Witnessed;
    var p := PayloadsOf(s);
    forall dot | dot in o.live ensures HasAdd(p, dot, o.live[dot]) {
      var h :| h in s && s[h].op.AddServiceEndpoint? && s[h].stamp == dot && s[h].op.service == o.live[dot];
      assert h in p && p[h].op == s[h].op && p[h].stamp == dot;
    }
  }

  /** Endpoints grown from one start to one history of payloads, with entries of held adds, are equal. */
  lemma GrownServicesAgree(start: Orswot, s: History, o: Orswot, p: Orswot, t: History)
    requires GrewFrom(start, s, o, t) && GrewFrom(start, s, p, t)
    requires EntriesFrom(o, t) && EntriesFrom(p, t) && DistinctStamps(t)
    ensures o == p
  {
    hide GrewFrom, EntriesFrom, DistinctStamps;
    GrowthIsUnique(start, s, o, p, t);
    DrawnAgree(o, p, t, t, t);
    SameLive(o, p);
  }

  /**
   * From one drawn start, deliveries that end up holding the same payloads end in the same state, in closed form or
   * not.
   */
  lemma SameHoldingsSameState(doc: Doc, xs: seq<Delta>, ys: seq<Delta>, verified: bool)
    requires Mirrored(doc) && Drawn(doc) && Unambiguous(Held(Deliver(doc, xs, verified).log))
    requires PayloadsOf(Held(Deliver(doc, xs, verified).log)) == PayloadsOf(Held(Deliver(doc, ys, verified).log))
    ensures Deliver(doc, xs, verified).crdt == Deliver(doc, ys, verified).crdt
  {
    hide Mirrored, Held, Deliver, Drawn, GrewFrom, EntriesFrom, PlainReflects, Unambiguous, DistinctStamps, PayloadsOf;
    var a, b := Deliver(doc, xs, verified), Deliver(doc, ys, verified);
    var t := PayloadsOf(Held(a.log));
    AmbiguityOfPayloads(Held(a.log));
    AmbiguityOfPayloads(Held(b.log));
    UnambiguousStamps(t);
    GrownState(doc, xs, verified);
    GrownState(doc, ys, verified);
    PlainUnique(a.crdt, b.crdt, t);
    GrownServicesAgree(doc.crdt.services, PayloadsOf(Held(doc.log)), a.crdt.services, b.crdt.services, t);
  }

  lemma GrownState(doc: Doc, ds: seq<Delta>, verified: bool)
    requires Mirrored(doc) && Drawn(doc) && DistinctStamps(Held(Deliver(doc, ds, verified).log))
    ensures var after := Deliver(doc, ds, verified);
            var t := PayloadsOf(Held(after.log));
            && PlainReflects(after.crdt, t) && EntriesFrom(after.crdt.services, t)
            && GrewFrom(doc.crdt.services, PayloadsOf(Held(doc.log)), after.crdt.services, t)
  {
    hide Mirrored, Held, Deliver, GrewFrom, EntriesFrom, PlainReflects, DistinctStamps, PayloadsOf;
    var after := Deliver(doc, ds, verified);
    DrawnOwns(doc.crdt.services, Held(doc.log));
    DeliverGrew(doc, ds, verified);
    DeliverKeepsDrawn(doc, ds, verified);
    StateOfPayloads(after.crdt, Held(after.log));
    EntriesOfPayloads(after.crdt.services, Held(after.log));
    GrewOfPayloads(doc.crdt.services, Held(doc.log), after.crdt.services, Held(after.log));
  }

  lemma DrawnOwns(o: Orswot, s: History)
    requires EntriesFrom(o, s)
    ensures OwnDots(o.context)
  {
  }
}
