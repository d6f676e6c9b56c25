/** Small runs from creation on which a tempting promise fails. */
module Counterexamples {
  import opened Deltas
  import opened Histories
  import opened Admission
  import opened Causal
  import opened Orswots
  import opened State
  import opened Documents
  import opened Keys
  import opened Convergence
  import opened Recon
  import Replicas
  import VersionVectors

  /** `d` hangs on genesis, is signed by the creation key, passes the local checks and does not undercut that key. */
  predicate HangsOn(g: Delta, d: Delta) {
    && IsGenesis(g)
    && LocalOk(g.did, d) && d.hash != g.hash && d.parents == [g.hash]
    && d.signer == g.op.entry.id && d.proof.Signed? && g.op.entry.key in d.proof.verifiesUnder
    && !KeyBelow(d, g)
  }

  lemma PastOfRoot(s: History, g: Delta)
    requires g.hash in s && s[g.hash] == g && g.parents == []
    ensures Past(s, Elements([g.hash])) == {g.hash}
  {
    hide Past;
    SingletonElements(g.hash);
    PastIsClosed(s, {g.hash});
    PastIsLeast(s, {g.hash}, {g.hash});
  }

  lemma CreationKeyIsFirst(s: History, g: Delta)
    requires g.hash in s && s[g.hash] == g && IsGenesis(g) && forall h :: h in s ==> !KeyBelow(s[h], g)
    ensures IsFirstKey(Image(s, KeyOf), g.op.entry.id, g.op.entry.key)
  {
    assert KeyOf(s[g.hash]).Some? && KeyOf(s[g.hash]).value in Image(s, KeyOf);
    forall e | e in Image(s, KeyOf) && e.id == g.op.entry.id ensures g.op.entry.key <= e.key {
      var h :| h in s && KeyOf(s[h]).Some? && KeyOf(s[h]).value == e;
    }
  }

  /** What hangs on genesis is admissible to every store that holds genesis and no lower key. */
  lemma ChildIsAdmissible(g: Delta, d: Delta, s: History, verified: bool)
    requires HangsOn(g, d) && g.hash in s && s[g.hash] == g && forall h :: h in s ==> !KeyBelow(s[h], g)
    ensures Admissible(g.did, d, s, verified)
  {
    hide Past, Elements, Image;
    PastOfRoot(s, g);
    assert AddsKey(s[g.hash], d.signer);
    CreationKeyIsFirst(s, g);
  }

  /** A document that holds genesis and no lower key, so that it takes in every further child of genesis. */
  ghost predicate Ready(doc: Doc, g: Delta) {
    && Mirrored(doc) && doc.did == g.did && WellIndexed(Held(doc.log))
    && g.hash in Held(doc.log) && Held(doc.log)[g.hash] == g
    && forall h :: h in Held(doc.log) ==> !KeyBelow(Held(doc.log)[h], g)
  }

  lemma TakesChild(doc: Doc, g: Delta, d: Delta, verified: bool)
    requires Ready(doc, g) && HangsOn(g, d) && d.hash !in Held(doc.log)
    ensures var after := Step(doc, d, verified).0;
            && after == Doc(doc.did, Apply(doc.crdt, d, Held(doc.log)), doc.log + [d])
            && Held(after.log) == Held(doc.log)[d.hash := d]
            && Ready(after, g)
  {
    hide Mirrored, Held, Admissible, Step, Apply, LocalOk;
    ChildIsAdmissible(g, d, Held(doc.log), verified);
    StepAdmits(doc, d, verified);
    StepKeepsMirrored(doc, d, verified);
    HeldAppend(doc.log, d);
  }

  lemma NewDocIsReady(did: Did, key: PublicKey, text: string, hash: Hash)
    ensures var g := Genesis(did, key, text, hash);
            Ready(NewDoc(did, g), g) && Held(NewDoc(did, g).log) == map[g.hash := g]
  {
    hide Mirrored, Sound, Reflects, Apply, Held;
    var g := Genesis(did, key, text, hash);
    NewDocIsSound(did, key, text, hash, true);
    SoundIsMirrored(NewDoc(did, g), g, true);
    HeldOne(g);
  }

  lemma DeliverOne(doc: Doc, d: Delta, verified: bool)
    ensures Deliver(doc, [d], verified) == Step(doc, d, verified).0
  {
    hide Step;
    DeliverAppend(doc, [], d, verified);
    assert [] + [d] == [d];
  }

  lemma DeliverTwo(doc: Doc, d: Delta, e: Delta, verified: bool)
    ensures Deliver(doc, [d, e], verified) == Step(Step(doc, d, verified).0, e, verified).0
  {
    hide Step, Deliver;
    DeliverOne(doc, d, verified);
    DeliverAppend(doc, [d], e, verified);
    assert [d] + [e] == [d, e];
  }

  /** The document after one child, and after two. */
  lemma OneChild(did: Did, key: PublicKey, text: string, hash: Hash, d: Delta, verified: bool)
    requires HangsOn(Genesis(did, key, text, hash), d)
    ensures var g := Genesis(did, key, text, hash);
            var doc := NewDoc(did, g);
            var after := Deliver(doc, [d], verified);
            && after == Doc(did, Apply(doc.crdt, d, map[g.hash := g]), [g, d])
            && Held(after.log) == map[g.hash := g, d.hash := d]
            && Ready(after, g)
  {
    hide Ready, Held, Apply, Step, Deliver, LocalOk;
    var g := Genesis(did, key, text, hash);
    NewDocIsReady(did, key, text, hash);
    DeliverOne(NewDoc(did, g), d, verified);
    TakesChild(NewDoc(did, g), g, d, verified);
    assert [g] + [d] == [g, d];
  }

  lemma TwoChildren(did: Did, key: PublicKey, text: string, hash: Hash, d: Delta, e: Delta, verified: bool)
    requires HangsOn(Genesis(did, key, text, hash), d) && HangsOn(Genesis(did, key, text, hash), e) && d.hash != e.hash
    ensures var g := Genesis(did, key, text, hash);
            var one, after := Deliver(NewDoc(did, g), [d], verified), Deliver(NewDoc(did, g), [d, e], verified);
            && after == Doc(did, Apply(one.crdt, e, map[g.hash := g, d.hash := d]), [g, d, e])
            && Held(after.log) == map[g.hash := g, d.hash := d, e.hash := e]
            && Ready(after, g)
  {
    hide Ready, Held, Apply, Step, Deliver, LocalOk;
    var g := Genesis(did, key, text, hash);
    OneChild(did, key, text, hash, d, verified);
    DeliverOne(NewDoc(did, g), d, verified);
    DeliverTwo(NewDoc(did, g), d, e, verified);
    TakesChild(Deliver(NewDoc(did, g), [d], verified), g, e, verified);
    assert [g, d] + [e] == [g, d, e];
  }

  // ── equal stamps ────────────────────────────────────────────────────────────

  /** Two writes that tie on their stamp keep the first, so the order of delivery shows. */
  lemma TiedWritesDiverge(did: Did, key: PublicKey, text: string, hash: Hash, d: Delta, e: Delta, verified: bool)
    requires HangsOn(Genesis(did, key, text, hash), d) && HangsOn(Genesis(did, key, text, hash), e) && d.hash != e.hash
    requires d.op.SetDocumentData? && e.op.SetDocumentData? && d.op.field == e.op.field && d.op.value != e.op.value
    requires d.stamp == e.stamp && Before(ZERO_STAMP, d.stamp)
    ensures var doc := NewDoc(did, Genesis(did, key, text, hash));
            var x, y := Deliver(doc, [d, e], verified), Deliver(doc, [e, d], verified);
            && Held(x.log) == Held(y.log)
            && d.op.field in x.crdt.data && x.crdt.data[d.op.field].val == d.op.value
            && d.op.field in y.crdt.data && y.crdt.data[d.op.field].val == e.op.value
  {
    hide Ready, Held, Deliver, HangsOn;
    OneChild(did, key, text, hash, d, verified);
    OneChild(did, key, text, hash, e, verified);
    TwoChildren(did, key, text, hash, d, e, verified);
    TwoChildren(did, key, text, hash, e, d, verified);
  }

  /** Two endpoint adds on one dot keep the last, so the order of delivery shows here as well. */
  lemma TiedAddsDiverge(did: Did, key: PublicKey, text: string, hash: Hash, d: Delta, e: Delta, verified: bool)
    requires HangsOn(Genesis(did, key, text, hash), d) && HangsOn(Genesis(did, key, text, hash), e) && d.hash != e.hash
    requires d.op.AddServiceEndpoint? && e.op.AddServiceEndpoint? && d.stamp == e.stamp
    ensures var doc := NewDoc(did, Genesis(did, key, text, hash));
            var x, y := Deliver(doc, [d, e], verified), Deliver(doc, [e, d], verified);
            && Held(x.log) == Held(y.log)
            && d.stamp in x.crdt.services.live && x.crdt.services.live[d.stamp] == e.op.service
            && d.stamp in y.crdt.services.live && y.crdt.services.live[d.stamp] == d.op.service
  {
    hide Ready, Held, Deliver, HangsOn;
    OneChild(did, key, text, hash, d, verified);
    OneChild(did, key, text, hash, e, verified);
    TwoChildren(did, key, text, hash, d, e, verified);
    TwoChildren(did, key, text, hash, e, d, verified);
  }

  // ── a skipped dot ───────────────────────────────────────────────────────────

  /** A remove that hangs on genesis observes no add. */
  lemma NothingObserved(s: History, g: Delta, id: string)
    requires g.hash in s && s[g.hash] == g && IsGenesis(g)
    ensures ObservedDots(s, [g.hash], id) == {}
  {
    hide Past;
    PastOfRoot(s, g);
  }

  lemma ReplayKeepsAdd(did: Did, key: PublicKey, text: string, hash: Hash, add: Delta, later: Delta, verified: bool)
    requires HangsOn(Genesis(did, key, text, hash), add) && HangsOn(Genesis(did, key, text, hash), later)
    requires add.hash != later.hash && add.op.AddServiceEndpoint? && IsService(later) && add.stamp != later.stamp
    ensures var g := Genesis(did, key, text, hash);
            add.stamp in Deliver(Deliver(NewDoc(did, g), [add], verified), [g, later], verified).crdt.services.live
  {
    hide Ready, Held, Deliver, Step, LocalOk, Past, ObservedDots, ObserveAll, Observe;
    var g := Genesis(did, key, text, hash);
    OneChild(did, key, text, hash, add, verified);
    var a, s := Deliver(NewDoc(did, g), [add], verified), map[g.hash := g, add.hash := add];
    DeliverTwo(a, g, later, verified);
    HeldIsKept(a, g, verified);
    TakesChild(a, g, later, verified);
    if later.op.RemoveServiceEndpoint? {
      NothingObserved(s, g, later.op.serviceId);
    }
  }

  lemma HeldIsKept(doc: Doc, d: Delta, verified: bool)
    requires d.hash in Held(doc.log)
    ensures Step(doc, d, verified).0 == doc
  {
    hide Held;
  }

  /** Two service deltas of one node, neither built on the other: the state join drops an add that replay keeps. */
  lemma UnchainedDotIsSkipped(did: Did, key: PublicKey, text: string, hash: Hash, add: Delta, later: Delta,
                              verified: bool)
    requires HangsOn(Genesis(did, key, text, hash), add) && HangsOn(Genesis(did, key, text, hash), later)
    requires add.hash != later.hash && add.op.AddServiceEndpoint? && IsService(later)
    requires add.stamp.node == later.stamp.node && Before(add.stamp, later.stamp)
    ensures var doc := NewDoc(did, Genesis(did, key, text, hash));
            var a, b := Deliver(doc, [add], verified), Deliver(doc, [later], verified);
            && add.stamp in Deliver(a, b.log, verified).crdt.services.live
            && add.stamp !in Replicas.MergeState(a, b).0.crdt.services.live
  {
    hide Ready, Held, Deliver, HangsOn, Past, ObservedDots, Replicas.AppendNew, JoinData, Registers.Join, Orswots.Join,
         ApplyServices;
    var g := Genesis(did, key, text, hash);
    OneChild(did, key, text, hash, add, verified);
    OneChild(did, key, text, hash, later, verified);
    ReplayKeepsAdd(did, key, text, hash, add, later, verified);
    NoServices(did, g);
    LaterServices(later, g);
    var b := Deliver(NewDoc(did, g), [later], verified);
    SkippedDot(Deliver(NewDoc(did, g), [add], verified).crdt.services, b.crdt.services, add.stamp);
  }

  lemma NoServices(did: Did, g: Delta)
    requires IsGenesis(g)
    ensures NewDoc(did, g).crdt.services == EMPTY
  {
  }

  /** What a first service delta leaves: its stamp seen, and no other dot live. */
  lemma LaterServices(d: Delta, g: Delta)
    requires IsService(d)
    ensures var o := ApplyServices(EMPTY, d, map[g.hash := g]);
            && d.stamp.node in o.context && !Before(o.context[d.stamp.node], d.stamp)
            && forall dot :: dot in o.live ==> dot == d.stamp
  {
    hide Past, ObservedDots, ObserveAll;
    if d.op.RemoveServiceEndpoint? {
      var dots := VersionVectors.ListOf(ObservedDots(map[g.hash := g], d.parents, d.op.serviceId));
      SeenObserveAll(Observe(EMPTY.context, d.stamp), dots, d.stamp);
    }
  }

  lemma SkippedDot(o: Orswot, p: Orswot, dot: Dot)
    requires dot !in p.live && Seen(p.context, dot)
    ensures dot !in Orswots.Join(o, p).live
  {
  }

  // ── the reason of a refusal ─────────────────────────────────────────────────

  /**
   * A delta built on a deactivation and on a revocation that arrives later is refused for one reason, then for the
   * other.
   */
  lemma ReasonSharpens(did: Did, key: PublicKey, text: string, hash: Hash, off: Delta, revoke: Delta, d: Delta,
                       verified: bool)
    requires HangsOn(Genesis(did, key, text, hash), off) && HangsOn(Genesis(did, key, text, hash), revoke)
             && off.hash != revoke.hash
    requires off.op.Deactivate? && RevokesKey(revoke, d.signer) && Elements(d.parents) == {off.hash, revoke.hash}
    ensures var doc := NewDoc(did, Genesis(did, key, text, hash));
            && VerifyCausal(d, Held(Deliver(doc, [off], verified).log)) == Invalid(Deactivated)
            && VerifyCausal(d, Held(Deliver(doc, [off, revoke], verified).log)) == Invalid(Revoked)
  {
    hide Ready, Held, Deliver, LocalOk, Apply, Past, Elements;
    var g := Genesis(did, key, text, hash);
    OneChild(did, key, text, hash, off, verified);
    TwoChildren(did, key, text, hash, off, revoke, verified);
    ElementsEmpty(d.parents);
    DeactivatedFirst(g, off, revoke, d.signer);
    RevokedLater(g, off, revoke, d.signer);
  }

  lemma DeactivatedFirst(g: Delta, off: Delta, revoke: Delta, signer: string)
    requires HangsOn(g, off) && HangsOn(g, revoke) && off.hash != revoke.hash && off.op.Deactivate?
    ensures VerifyPast(signer, map[g.hash := g, off.hash := off], {off.hash, revoke.hash}) == Invalid(Deactivated)
  {
    hide Past, LocalOk;
    var s, from := map[g.hash := g, off.hash := off], {off.hash, revoke.hash};
    PastIsClosed(s, from);
    assert off.hash in Past(s, from) && off.hash in s && s[off.hash].op.Deactivate?;
    assert forall h :: h in s ==> !RevokesKey(s[h], signer);
  }

  lemma RevokedLater(g: Delta, off: Delta, revoke: Delta, signer: string)
    requires RevokesKey(revoke, signer)
    ensures var s := map[g.hash := g, off.hash := off, revoke.hash := revoke];
            VerifyPast(signer, s, {off.hash, revoke.hash}) == Invalid(Revoked)
  {
    hide Past;
    var s, from := map[g.hash := g, off.hash := off, revoke.hash := revoke], {off.hash, revoke.hash};
    PastIsClosed(s, from);
    assert revoke.hash in Past(s, from) && revoke.hash in s && RevokesKey(s[revoke.hash], signer);
  }

  // ── resent deltas ───────────────────────────────────────────────────────────

  /** Two children of genesis, one of them known to the peer: genesis is sent again, around the peer's frontier. */
  lemma GenesisIsResent(did: Did, key: PublicKey, text: string, hash: Hash, known: Delta, other: Delta, verified: bool)
    requires HangsOn(Genesis(did, key, text, hash), known) && HangsOn(Genesis(did, key, text, hash), other)
             && known.hash != other.hash
    ensures var g := Genesis(did, key, text, hash);
            var a, b := Deliver(NewDoc(did, g), [known, other], verified), Deliver(NewDoc(did, g), [known], verified);
            g.hash in Held(b.log) && g.hash in ForPeer(Held(a.log), Frontier(Held(b.log)))
  {
    hide Ready, Held, Deliver, LocalOk, Apply, Above;
    var g := Genesis(did, key, text, hash);
    OneChild(did, key, text, hash, known, verified);
    TwoChildren(did, key, text, hash, known, other, verified);
    AroundTheFrontier(g, known, other);
  }

  lemma AroundTheFrontier(g: Delta, known: Delta, other: Delta)
    requires HangsOn(g, known) && HangsOn(g, other) && known.hash != other.hash
    ensures var t := map[g.hash := g, known.hash := known];
            var s := t[other.hash := other];
            g.hash in ForPeer(s, Frontier(t))
  {
    hide Above, LocalOk;
    var s, t := map[g.hash := g, known.hash := known, other.hash := other], map[g.hash := g, known.hash := known];
    assert g.hash in t[known.hash].parents;
    assert g.hash !in Frontier(t) && other.hash !in Frontier(t);
    assert other.hash in Frontier(s) by {
      assert forall h :: h in s ==> other.hash !in s[h].parents;
    }
    AboveIsClosed(s, Frontier(s) - Frontier(t), Frontier(t));
    assert g.hash in s[other.hash].parents;
  }

  // ── two keys under one id ───────────────────────────────────────────────────

  /** `d` is signed by the holder of `high`'s key and rests on its introduction. */
  predicate RestsOn(g: Delta, high: Delta, d: Delta) {
    && IsGenesis(g) && high.op.AddVerificationMethod? && high.op.entry.id != g.op.entry.id
    && LocalOk(g.did, d) && d.hash != g.hash && d.hash != high.hash && d.parents == [high.hash]
    && d.signer == high.op.entry.id && d.proof == Signed({high.op.entry.key})
  }

  lemma PastOfChild(s: History, g: Delta, high: Delta)
    requires g.hash in s && s[g.hash] == g && g.parents == []
    requires high.hash in s && s[high.hash] == high && high.parents == [g.hash]
    ensures Past(s, Elements([high.hash])) == {high.hash, g.hash}
  {
    hide Past;
    SingletonElements(high.hash);
    PastIsClosed(s, {high.hash});
    assert g.hash in s[high.hash].parents;
    PastIsLeast(s, {high.hash}, {high.hash, g.hash});
  }

  /** Its past always authorises it; only the signature check can tell stores apart. */
  lemma AdmissibleIfSigned(g: Delta, high: Delta, d: Delta, s: History)
    requires HangsOn(g, high) && RestsOn(g, high, d)
    requires g.hash in s && s[g.hash] == g && high.hash in s && s[high.hash] == high
    ensures Admissible(g.did, d, s, true) <==> SignatureOk(d, Image(s, KeyOf))
  {
    hide Past, Elements, Image, SignatureOk;
    PastOfChild(s, g, high);
    assert AddsKey(s[high.hash], d.signer);
  }

  lemma SignedByHigh(g: Delta, high: Delta, d: Delta)
    requires HangsOn(g, high) && RestsOn(g, high, d)
    ensures SignatureOk(d, Image(map[g.hash := g, high.hash := high], KeyOf))
  {
    hide LocalOk;
    var s := map[g.hash := g, high.hash := high];
    assert KeyOf(s[high.hash]).Some? && KeyOf(s[high.hash]).value in Image(s, KeyOf);
    assert IsFirstKey(Image(s, KeyOf), d.signer, high.op.entry.key);
  }

  lemma UndercutByLow(g: Delta, high: Delta, low: Delta, d: Delta)
    requires RestsOn(g, high, d) && KeyBelow(low, high) && low.hash != high.hash
    ensures !SignatureOk(d, Image(map[g.hash := g, high.hash := high, low.hash := low], KeyOf))
  {
    hide LocalOk;
    var s := map[g.hash := g, high.hash := high, low.hash := low];
    assert KeyOf(s[low.hash]).Some? && KeyOf(s[low.hash]).value in Image(s, KeyOf);
  }

  /** A lower key under a known id: one offer, delivered parents first in two orders, ends in two histories. */
  lemma TwoKeysDiverge(did: Did, key: PublicKey, text: string, hash: Hash, high: Delta, low: Delta, d: Delta)
    requires var g := Genesis(did, key, text, hash); HangsOn(g, high) && HangsOn(g, low) && RestsOn(g, high, d)
    requires KeyBelow(low, high) && low.hash != high.hash && d.hash != low.hash
    ensures var doc := NewDoc(did, Genesis(did, key, text, hash));
            && CausalDelivery(Genesis(did, key, text, hash), [high, d, low])
            && CausalDelivery(Genesis(did, key, text, hash), [high, low, d])
            && d.hash in Held(Deliver(doc, [high, d, low], true).log)
            && d.hash !in Held(Deliver(doc, [high, low, d], true).log)
  {
    hide Ready, Held, Deliver, Step, LocalOk, Apply, Admissible, SignatureOk, Image, CausalDelivery;
    var g := Genesis(did, key, text, hash);
    BothAreCausal(g, high, low, d);
    var doc := NewDoc(did, g);
    OneChild(did, key, text, hash, high, true);
    var one := Deliver(doc, [high], true);
    SignedByHigh(g, high, d);
    AdmissibleIfSigned(g, high, d, Held(one.log));
    TakesOrRefuses(one, g, d);
    DeliverAppend(doc, [high], d, true);
    assert [high] + [d] == [high, d];
    StepOnlyGrows(Deliver(doc, [high, d], true), low);
    DeliverAppend(doc, [high, d], low, true);
    assert [high, d] + [low] == [high, d, low];
    TwoChildren(did, key, text, hash, high, low, true);
    var two := Deliver(doc, [high, low], true);
    UndercutByLow(g, high, low, d);
    AdmissibleIfSigned(g, high, d, Held(two.log));
    TakesOrRefuses(two, g, d);
    DeliverAppend(doc, [high, low], d, true);
    assert [high, low] + [d] == [high, low, d];
  }

  /** Both orders deliver parents before children. */
  lemma BothAreCausal(g: Delta, high: Delta, low: Delta, d: Delta)
    requires HangsOn(g, high) && HangsOn(g, low) && RestsOn(g, high, d)
    ensures CausalDelivery(g, [high, d, low]) && CausalDelivery(g, [high, low, d])
  {
    hide LocalOk;
    assert [high, d, low][..1] == [high] && [high, low, d][..2] == [high, low];
    assert [high][0].hash == high.hash && [high, low][0].hash == high.hash;
  }

  lemma TakesOrRefuses(doc: Doc, g: Delta, d: Delta)
    requires Ready(doc, g) && d.hash !in Held(doc.log)
    ensures Mirrored(Step(doc, d, true).0)
    ensures d.hash in Held(Step(doc, d, true).0.log) <==> Admissible(doc.did, d, Held(doc.log), true)
  {
    hide Mirrored, Held, Admissible, Step, Apply;
    StepAdmits(doc, d, true);
    StepKeepsMirrored(doc, d, true);
    HeldAppend(doc.log, d);
  }

  lemma StepOnlyGrows(doc: Doc, d: Delta)
    requires Mirrored(doc)
    ensures forall h :: h in Held(doc.log) ==> h in Held(Step(doc, d, true).0.log)
  {
    hide Mirrored, Held, Step;
    StepKeepsMirrored(doc, d, true);
  }

  // ── a document without keys ─────────────────────────────────────────────────

  /** A loaded document whose log introduces no key: the deferral admits a signer its past does not authorise. */
  lemma KeylessDocumentAdmits(did: Did, root: Delta, d: Delta)
    requires root.parents == [] && root.op.RevokeCredential?
    requires LocalOk(did, d) && d.hash != root.hash && d.parents == [root.hash]
    ensures var doc := NewDoc(did, root);
            && doc.log != [] && doc.crdt.keys == {} && FactsBacked(doc.crdt, Held(doc.log))
            && VerifyCausal(d, Held(doc.log)) == Invalid(SignerNotAuthorised)
            && Merge(doc, d).1 == Ok
  {
    hide Past, Merge, Held;
    var doc := NewDoc(did, root);
    HeldOne(root);
    PastOfRoot(Held(doc.log), root);
    AdmissionIff(doc, d);
  }

  // ── a copy with a bad proof ─────────────────────────────────────────────────

  /** `child` builds on `d` and is signed by the creation key, which `d` neither revokes nor undercuts. */
  predicate BuildsOn(g: Delta, d: Delta, child: Delta) {
    && HangsOn(g, d) && !d.op.Deactivate? && !RevokesKey(d, g.op.entry.id)
    && LocalOk(g.did, child) && child.hash != g.hash && child.hash != d.hash && child.parents == [d.hash]
    && child.signer == g.op.entry.id && child.proof.Signed? && g.op.entry.key in child.proof.verifiesUnder
  }

  /** `d` with a proof that verifies under no key: the same hash, since the hash leaves the proof out. */
  function BadCopy(d: Delta): Delta {
    d.(proof := Signed({}))
  }

  lemma BadCopyIsRefused(did: Did, d: Delta, s: History)
    ensures !Admissible(did, BadCopy(d), s, true)
  {
    hide VerifyCausal, LocalOk;
  }

  lemma OrphanIsRefused(did: Did, child: Delta, s: History, d: Delta)
    requires child.parents == [d.hash] && d.hash !in s
    ensures !Admissible(did, child, s, true)
  {
    hide Past, SignatureOk, LocalOk, KeyAdded, KeyRevoked, DeactivatedIn;
    SingletonElements(d.hash);
    PastIsClosed(s, {d.hash});
  }

  lemma GrandchildIsAdmissible(g: Delta, d: Delta, child: Delta)
    requires BuildsOn(g, d, child)
    ensures Admissible(g.did, child, map[g.hash := g, d.hash := d], true)
  {
    hide Past, Elements, Image, LocalOk;
    var s := map[g.hash := g, d.hash := d];
    PastOfChild(s, g, d);
    assert AddsKey(s[g.hash], child.signer);
    CreationKeyIsFirst(s, g);
  }

  /**
   * A bad copy that arrives first counts as an earlier offer of the parent: one causal delivery loses the child for
   * good.
   */
  lemma BadCopyLosesChild(did: Did, key: PublicKey, text: string, hash: Hash, d: Delta, child: Delta)
    requires BuildsOn(Genesis(did, key, text, hash), d, child)
    ensures var g := Genesis(did, key, text, hash);
            && CausalDelivery(g, [BadCopy(d), child, d]) && CausalDelivery(g, [d, child, BadCopy(d)])
            && child.hash !in Held(Deliver(NewDoc(did, g), [BadCopy(d), child, d], true).log)
            && child.hash in Held(Deliver(NewDoc(did, g), [d, child, BadCopy(d)], true).log)
  {
    hide Ready, Held, Deliver, Step, LocalOk, Apply, Admissible, CausalDelivery;
    var g := Genesis(did, key, text, hash);
    CopiesAreCausal(g, d, child);
    ChildIsLost(did, key, text, hash, d, child);
    ChildIsKept(did, key, text, hash, d, child);
  }

  lemma CopiesAreCausal(g: Delta, d: Delta, child: Delta)
    requires BuildsOn(g, d, child)
    ensures CausalDelivery(g, [BadCopy(d), child, d]) && CausalDelivery(g, [d, child, BadCopy(d)])
  {
    hide LocalOk;
    var bad := BadCopy(d);
    assert [bad, child, d][..1] == [bad] && [d, child, bad][..1] == [d];
    assert [bad][0].hash == d.hash && [d][0].hash == d.hash;
  }

  lemma ChildIsLost(did: Did, key: PublicKey, text: string, hash: Hash, d: Delta, child: Delta)
    requires BuildsOn(Genesis(did, key, text, hash), d, child)
    ensures child.hash !in Held(Deliver(NewDoc(did, Genesis(did, key, text, hash)), [BadCopy(d), child, d], true).log)
  {
    hide Held, Deliver, Step, LocalOk, Apply, Admissible, Mirrored, WellIndexed;
    var g := Genesis(did, key, text, hash);
    var doc, bad := NewDoc(did, g), BadCopy(d);
    NewDocIsReady(did, key, text, hash);
    BadCopyIsRefused(did, d, Held(doc.log));
    StepAdmits(doc, bad, true);
    OrphanIsRefused(did, child, Held(doc.log), d);
    StepAdmits(doc, child, true);
    DeliverTwo(doc, bad, child, true);
    DeliverAppend(doc, [bad, child], d, true);
    assert [bad, child] + [d] == [bad, child, d];
    StepKeepsMirrored(doc, d, true);
  }

  lemma ChildIsKept(did: Did, key: PublicKey, text: string, hash: Hash, d: Delta, child: Delta)
    requires BuildsOn(Genesis(did, key, text, hash), d, child)
    ensures child.hash in Held(Deliver(NewDoc(did, Genesis(did, key, text, hash)), [d, child, BadCopy(d)], true).log)
  {
    hide Ready, Held, Deliver, Step, LocalOk, Apply, Admissible;
    var g := Genesis(did, key, text, hash);
    var doc, bad := NewDoc(did, g), BadCopy(d);
    OneChild(did, key, text, hash, d, true);
    GrandchildIsAdmissible(g, d, child);
    var one := Deliver(doc, [d], true);
    TakesOrRefuses(one, g, child);
    DeliverAppend(doc, [d], child, true);
    assert [d] + [child] == [d, child];
    StepOnlyGrows(Deliver(doc, [d, child], true), bad);
    DeliverAppend(doc, [d, child], bad, true);
    assert [d, child] + [bad] == [d, child, bad];
  }
}
