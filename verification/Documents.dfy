/** Documents as values: what one merge does, and what every merge keeps. */
module Documents {
  import opened Deltas
  import opened Histories
  import opened Dag
  import opened Admission
  import opened Causal
  import opened State

  datatype Error =
    | DeltaTooLarge
    | DeltaRejected
    | DeltaPending(missing: seq<Hash>)
    | Unauthorised
    | BadProof  // whatever signature verification answers

  datatype Result = Ok | Err(error: Error)

  /** The value of a document: its DAG is the one its log rebuilds. */
  datatype Doc = Doc(did: Did, crdt: Crdt, log: seq<Delta>)

  function Held(log: seq<Delta>): History {
    InsertAll(map[], log)
  }

  predicate HasKeyDelta(s: History, id: string) {
    exists h :: h in s && AddsKey(s[h], id)
  }

  predicate HasRevokeDelta(s: History, id: string) {
    exists h :: h in s && RevokesKey(s[h], id)
  }

  predicate HasDeactivateDelta(s: History) {
    exists h :: h in s && s[h].op.Deactivate?
  }

  predicate ContainsId(keys: set<KeyEntry>, id: string) {
    exists e :: e in keys && e.id == id
  }

  /** The gates that look at the delta and the document's identifier alone. */
  function Gate(did: Did, d: Delta): Result {
    if d.size > MAX_DELTA_SIZE then Err(DeltaTooLarge)
    else if d.did != did then Err(DeltaRejected)
    else if d.op.SetAlsoKnownAs? && !d.op.recognised then Err(DeltaRejected)
    else if d.op.SetDocumentData? && d.op.field in RESERVED_PROPERTIES then Err(DeltaRejected)
    else Ok
  }

  /** The state-import floor: facts in state that no held delta backs. */
  predicate FloorRefuses(c: Crdt, s: History, signer: string) {
    || (c.deactivated && !HasDeactivateDelta(s))
    || (!HasKeyDelta(s, signer) && c.keys != {} && !ContainsId(c.keys, signer))
    || (signer in c.revokedKeys && !HasRevokeDelta(s, signer))
  }

  /** A causal refusal that is left to the floor. */
  ghost predicate Deferred(d: Delta, s: History) {
    VerifyCausal(d, s) == Invalid(SignerNotAuthorised) && d.parents != [] && !HasKeyDelta(s, d.signer)
  }

  /** The admission decision, for a delta not held yet. */
  ghost function Decide(doc: Doc, d: Delta): Result {
    var s := Held(doc.log);
    var verdict := VerifyCausal(d, s);
    if !CanonicalParents(d.parents) then Err(DeltaRejected)
    else if verdict.Unknown? then Err(DeltaPending(verdict.missing))
    else if verdict.Invalid? && !Deferred(d, s) then Err(Unauthorised)
    else if doc.crdt.deactivated && !HasDeactivateDelta(s) then Err(DeltaRejected)
    else if FloorRefuses(doc.crdt, s, d.signer) then Err(Unauthorised)
    else Ok
  }

  ghost function Merge(doc: Doc, d: Delta): (Doc, Result) {
    if Gate(doc.did, d) != Ok then (doc, Gate(doc.did, d))
    else if d.hash in Held(doc.log) then (doc, Ok)
    else if Decide(doc, d) != Ok then (doc, Decide(doc, d))
    else (Doc(doc.did, Apply(doc.crdt, d, Held(doc.log)), doc.log + [d]), Ok)
  }

  /** The public key the lookup finds for `id`: entries are sorted, so the least one. */
  ghost predicate IsFirstKey(keys: set<KeyEntry>, id: string, key: PublicKey) {
    && (exists e :: e in keys && e.id == id && e.key == key)
    && (forall e :: e in keys && e.id == id ==> key <= e.key)
  }

  /** An empty proof passes only while no key is known; any other must verify under the signer's key. */
  ghost predicate SignatureOk(d: Delta, keys: set<KeyEntry>) {
    match d.proof
    case Unsigned => keys == {}
    case Signed(under) => exists key :: key in under && IsFirstKey(keys, d.signer, key)
  }

  ghost function MergeVerified(doc: Doc, d: Delta): (Doc, Result) {
    var verdict := VerifyCausal(d, Held(doc.log));
    if d.hash in Held(doc.log) then (doc, Ok)
    else if verdict.Unknown? then (doc, Err(DeltaPending(verdict.missing)))
    else if !SignatureOk(d, doc.crdt.keys) then (doc, Err(BadProof))
    else Merge(doc, d)
  }

  ghost function Step(doc: Doc, d: Delta, verified: bool): (Doc, Result) {
    if verified then MergeVerified(doc, d) else Merge(doc, d)
  }

  // ── what admission means ────────────────────────────────────────────────────

  predicate LocalOk(did: Did, d: Delta) {
    Gate(did, d) == Ok && CanonicalParents(d.parents)
  }

  /** The delta's own past authorises it (and, on the verified path, its proof checks out). */
  ghost predicate Admissible(did: Did, d: Delta, s: History, verified: bool) {
    && LocalOk(did, d)
    && VerifyCausal(d, s).Valid?
    && (verified ==> SignatureOk(d, Image(s, KeyOf)))
  }

  /** Every key, revocation and deactivation in state comes from a held delta. */
  ghost predicate FactsBacked(c: Crdt, s: History) {
    && (forall e :: e in c.keys ==> HasKeyDelta(s, e.id))
    && (forall id :: id in c.revokedKeys ==> HasRevokeDelta(s, id))
    && (c.deactivated ==> HasDeactivateDelta(s))
  }

  /**
   * On a delta-backed document the floor never refuses what the past authorises, and the deferral admits an
   * unauthorised signer exactly while the state knows no key at all.
   */
  lemma AdmissionIff(doc: Doc, d: Delta)
    requires FactsBacked(doc.crdt, Held(doc.log)) && d.hash !in Held(doc.log)
    ensures Merge(doc, d).1 == Ok <==>
              LocalOk(doc.did, d) && (VerifyCausal(d, Held(doc.log)).Valid?
                                      || (doc.crdt.keys == {} && Deferred(d, Held(doc.log))))
    ensures Merge(doc, d).1 == Ok <==> Merge(doc, d).0.log == doc.log + [d]
    ensures Merge(doc, d).1 != Ok ==> Merge(doc, d).0 == doc
    ensures Merge(doc, d).1.Err? && Merge(doc, d).1.error.DeltaPending? ==> VerifyCausal(d, Held(doc.log)).Unknown?
  {
    hide VerifyCausal, Held, Apply, HasRevokeDelta, HasDeactivateDelta, HasKeyDelta;
    var s := Held(doc.log);
    if VerifyCausal(d, s).Valid? {
      if s != map[] {
        ValidHasKey(d, s);
      } else {
        NothingBacksKeys(doc.crdt);
      }
    }
    if ContainsId(doc.crdt.keys, d.signer) {
      var k :| k in doc.crdt.keys && k.id == d.signer;
      assert HasKeyDelta(s, k.id);
    }
  }

  lemma NothingBacksKeys(c: Crdt)
    requires FactsBacked(c, map[])
    ensures c.keys == {}
  {
    hide HasRevokeDelta, HasDeactivateDelta;
    assert forall id :: !HasKeyDelta(map[], id);
  }

  /** So once some key is known, neither the floor nor the deferral ever changes the outcome. */
  lemma AdmissionIsCausal(doc: Doc, d: Delta)
    requires FactsBacked(doc.crdt, Held(doc.log)) && doc.crdt.keys != {} && d.hash !in Held(doc.log)
    ensures Merge(doc, d).1 == Ok <==> Admissible(doc.did, d, Held(doc.log), false)
    ensures Merge(doc, d).1 == Ok <==> Merge(doc, d).0.log == doc.log + [d]
    ensures Merge(doc, d).1 != Ok ==> Merge(doc, d).0 == doc
    ensures Merge(doc, d).1.Err? && Merge(doc, d).1.error.DeltaPending? ==> VerifyCausal(d, Held(doc.log)).Unknown?
  {
    hide VerifyCausal, Held, Merge, FactsBacked, LocalOk;
    AdmissionIff(doc, d);
  }

  lemma ValidHasKey(d: Delta, s: History)
    requires VerifyCausal(d, s).Valid? && s != map[]
    ensures HasKeyDelta(s, d.signer)
  {
    hide Past;
    var h :| h in Past(s, Elements(d.parents)) && h in s && AddsKey(s[h], d.signer);
  }

  /** A state equal to the closed form of a history is backed by it, and knows a key iff the history introduces one. */
  lemma ReflectedFactsBacked(c: Crdt, s: History)
    requires PlainReflects(c, s)
    ensures FactsBacked(c, s)
    ensures c.keys != {} <==> exists h :: h in s && s[h].op.AddVerificationMethod?
  {
    hide DataReflects, Registers.Settles, IsGreatest;
    if g :| g in s && s[g].op.AddVerificationMethod? {
      assert KeyOf(s[g]).Some? && KeyOf(s[g]).value in Image(s, KeyOf);
    }
    forall e | e in c.keys ensures HasKeyDelta(s, e.id) {
      var h :| h in s && KeyOf(s[h]).Some? && KeyOf(s[h]).value == e;
      assert AddsKey(s[h], e.id);
    }
    forall id | id in c.revokedKeys ensures HasRevokeDelta(s, id) {
      var h :| h in s && RevokedKeyOf(s[h]).Some? && RevokedKeyOf(s[h]).value == id;
      assert RevokesKey(s[h], id);
    }
    if c.deactivated {
      var b :| b in Image(s, DeactivationOf);
      var h :| h in s && DeactivationOf(s[h]).Some? && DeactivationOf(s[h]).value == b;
    }
  }

  /** Merging keeps every fact backed: whatever it adds, it adds with its delta. */
  lemma MergeKeepsBacking(doc: Doc, d: Delta)
    requires FactsBacked(doc.crdt, Held(doc.log))
    ensures FactsBacked(Merge(doc, d).0.crdt, Held(Merge(doc, d).0.log))
    ensures doc.crdt.keys <= Merge(doc, d).0.crdt.keys
  {
    hide Held, Decide, ApplyServices, SetData, Registers.Update, HasKeyDelta, HasRevokeDelta, HasDeactivateDelta;
    var s := Held(doc.log);
    HeldAppend(doc.log, d);
    if Merge(doc, d).0 != doc {
      var t := With(s, d);
      assert t[d.hash] == d;
      BackingGrows(s, t);
      OwnFactIsBacked(t, d);
    }
  }

  lemma BackingGrows(s: History, t: History)
    requires Extends(s, t)
    ensures forall id :: HasKeyDelta(s, id) ==> HasKeyDelta(t, id)
    ensures forall id :: HasRevokeDelta(s, id) ==> HasRevokeDelta(t, id)
    ensures HasDeactivateDelta(s) ==> HasDeactivateDelta(t)
  {
    forall id | HasKeyDelta(s, id) ensures HasKeyDelta(t, id) {
      var h :| h in s && AddsKey(s[h], id);
      assert AddsKey(t[h], id);
    }
    forall id | HasRevokeDelta(s, id) ensures HasRevokeDelta(t, id) {
      var h :| h in s && RevokesKey(s[h], id);
      assert RevokesKey(t[h], id);
    }
    if HasDeactivateDelta(s) {
      var h :| h in s && s[h].op.Deactivate?;
      assert t[h].op.Deactivate?;
    }
  }

  lemma OwnFactIsBacked(t: History, d: Delta)
    requires d.hash in t && t[d.hash] == d
    ensures d.op.AddVerificationMethod? ==> HasKeyDelta(t, d.op.entry.id)
    ensures d.op.RevokeVerificationMethod? ==> HasRevokeDelta(t, d.op.keyId)
    ensures d.op.Deactivate? ==> HasDeactivateDelta(t)
  {
    if d.op.AddVerificationMethod? {
      assert AddsKey(t[d.hash], d.op.entry.id);
    }
    if d.op.RevokeVerificationMethod? {
      assert RevokesKey(t[d.hash], d.op.keyId);
    }
  }

  // ── whole runs ──────────────────────────────────────────────────────────────

  predicate IsGenesis(g: Delta) {
    g.parents == [] && g.op.AddVerificationMethod?
  }

  /** `log` grew from genesis by deltas each admissible when it arrived. */
  ghost predicate AdmittedLog(did: Did, g: Delta, log: seq<Delta>, verified: bool) {
    if |log| <= 1 then
      log == [g] && IsGenesis(g)
    else
      var front, last := log[..|log| - 1], log[|log| - 1];
      && AdmittedLog(did, g, front, verified)
      && last.hash !in Held(front)
      && Admissible(did, last, Held(front), verified)
  }

  /** The last step of an admitted log. */
  lemma AdmittedLast(did: Did, g: Delta, log: seq<Delta>, verified: bool)
    requires AdmittedLog(did, g, log, verified) && |log| > 1
    ensures var front, last := log[..|log| - 1], log[|log| - 1];
            && log == front + [last]
            && AdmittedLog(did, g, front, verified)
            && last.hash !in Held(front)
            && Admissible(did, last, Held(front), verified)
            && Held(log) == With(Held(front), last)
  {
    hide Admissible;
    SplitLast(log);
    HeldAppend(log[..|log| - 1], log[|log| - 1]);
  }

  ghost predicate Sound(doc: Doc, g: Delta, verified: bool) {
    AdmittedLog(doc.did, g, doc.log, verified) && PlainReflects(doc.crdt, Held(doc.log))
  }

  lemma HeldAppend(log: seq<Delta>, d: Delta)
    ensures Held(log + [d]) == With(Held(log), d)
  {
    assert (log + [d])[..|log + [d]| - 1] == log;
  }

  lemma ValidNeedsParents(d: Delta, s: History)
    requires VerifyCausal(d, s).Valid? && s != map[]
    ensures d.parents != [] && Complete(s, Elements(d.parents)) && Elements(d.parents) <= s.Keys
  {
    hide Past;
    PastIsClosed(s, Elements(d.parents));
  }

  /** An admitted log starts at genesis and never names a parent it does not hold. */
  lemma {:induction false} AdmittedIsGrounded(did: Did, g: Delta, log: seq<Delta>, verified: bool)
    requires AdmittedLog(did, g, log, verified)
    ensures log != [] && log[0] == g && IsGenesis(g)
    ensures AncestorClosed(Held(log)) && WellIndexed(Held(log))
    ensures g.hash in Held(log) && Held(log)[g.hash] == g
    ensures |Held(log)| == |log|
    ensures forall h :: h in Held(log) ==> Held(log)[h] in log
  {
    hide Admissible, Held;
    if |log| == 1 {
      HeldOne(g);
    } else {
      var front, last := log[..|log| - 1], log[|log| - 1];
      SplitLast(log);
      AdmittedIsGrounded(did, g, front, verified);
      HeldAppend(front, last);
      LastIsGrounded(did, last, Held(front), verified);
      InsertGrounded(Held(front), last);
    }
  }

  lemma OnlyGenesisIsAlone(did: Did, g: Delta, log: seq<Delta>, h: Hash, verified: bool)
    requires AdmittedLog(did, g, log, verified) && h in Held(log) && h != g.hash
    ensures |log| > 1
  {
    hide Admissible, Held;
    HeldOne(g);
  }

  lemma WithExtends(s: History, d: Delta)
    ensures Extends(s, With(s, d))
    ensures forall h :: h in With(s, d) ==> h in s || h == d.hash
    ensures d.hash !in s ==> d.hash in With(s, d) && With(s, d)[d.hash] == d
    ensures forall h :: h in s ==> With(s, d)[h] == s[h]
  {
  }

  lemma HeldOne(g: Delta)
    ensures Held([g]) == map[g.hash := g]
  {
    HeldAppend([], g);
    assert [] + [g] == [g];
  }

  lemma InsertGrounded(s: History, d: Delta)
    requires AncestorClosed(s) && WellIndexed(s) && d.hash !in s && Elements(d.parents) <= s.Keys
    ensures AncestorClosed(With(s, d)) && WellIndexed(With(s, d)) && |With(s, d)| == |s| + 1
  {
    assert forall p :: p in d.parents ==> p in Elements(d.parents);
    assert With(s, d).Keys == s.Keys + {d.hash};
    assert |With(s, d).Keys| == |s.Keys| + 1;
  }

  lemma LastIsGrounded(did: Did, d: Delta, s: History, verified: bool)
    requires Admissible(did, d, s, verified) && s != map[]
    ensures d.parents != [] && Complete(s, Elements(d.parents)) && Elements(d.parents) <= s.Keys
  {
    hide SignatureOk, VerifyCausal, Past;
    ValidNeedsParents(d, s);
  }

  /** Every field but the endpoints is the closed form of the log, and the log introduces some key. */
  ghost predicate Mirrored(doc: Doc) {
    PlainReflects(doc.crdt, Held(doc.log)) && IntroducesKey(Held(doc.log))
  }

  ghost predicate IntroducesKey(s: History) {
    exists h :: h in s && s[h].op.AddVerificationMethod?
  }

  lemma MirroredIsBacked(doc: Doc)
    requires Mirrored(doc)
    ensures FactsBacked(doc.crdt, Held(doc.log)) && doc.crdt.keys != {} && Held(doc.log) != map[]
    ensures doc.crdt.keys == Image(Held(doc.log), KeyOf)
  {
    hide FactsBacked, Registers.Settles, DataReflects, Image, IsGreatest, Held;
    ReflectedFactsBacked(doc.crdt, Held(doc.log));
  }

  lemma SoundIsMirrored(doc: Doc, g: Delta, verified: bool)
    requires Sound(doc, g, verified)
    ensures Mirrored(doc) && AncestorClosed(Held(doc.log)) && g.hash in Held(doc.log) && Held(doc.log)[g.hash] == g
    ensures AdmittedLog(doc.did, g, doc.log, verified)
  {
    hide PlainReflects, AdmittedLog, Held;
    AdmittedIsGrounded(doc.did, g, doc.log, verified);
  }

  /** What one step does to a mirrored document: it admits exactly the admissible deltas it lacks. */
  lemma StepAdmits(doc: Doc, d: Delta, verified: bool)
    requires Mirrored(doc)
    ensures d.hash !in Held(doc.log) && Admissible(doc.did, d, Held(doc.log), verified) ==>
              Step(doc, d, verified) == (Doc(doc.did, Apply(doc.crdt, d, Held(doc.log)), doc.log + [d]), Ok)
    ensures d.hash in Held(doc.log) || !Admissible(doc.did, d, Held(doc.log), verified) ==>
              Step(doc, d, verified).0 == doc
    ensures Step(doc, d, verified).1.Err? && Step(doc, d, verified).1.error.DeltaPending? ==>
              d.hash !in Held(doc.log) && VerifyCausal(d, Held(doc.log)).Unknown?
  {
    hide Held, VerifyCausal, FactsBacked, SignatureOk, Apply, Mirrored, Image;
    MirroredIsBacked(doc);
    if d.hash !in Held(doc.log) {
      AdmissionIsCausal(doc, d);
      if Merge(doc, d).1 == Ok {
        MergeOnOk(doc, d);
      }
    }
  }

  lemma MergeOnOk(doc: Doc, d: Delta)
    requires d.hash !in Held(doc.log) && Merge(doc, d).1 == Ok
    ensures Merge(doc, d).0 == Doc(doc.did, Apply(doc.crdt, d, Held(doc.log)), doc.log + [d])
  {
    hide Decide, Apply, Held;
  }

  /** Every step keeps a document mirrored, only ever adds its delta, and never leaves a parent behind. */
  lemma StepKeepsMirrored(doc: Doc, d: Delta, verified: bool)
    requires Mirrored(doc)
    ensures var after := Step(doc, d, verified).0;
            && Mirrored(after) && after.did == doc.did
            && Extends(Held(doc.log), Held(after.log))
            && (forall e :: e in after.log ==> e in doc.log || e == d)
            && (AncestorClosed(Held(doc.log)) ==> AncestorClosed(Held(after.log)))
            && (forall h :: h in Held(after.log) && h !in Held(doc.log) ==> h == d.hash && Held(after.log)[h] == d)
  {
    hide VerifyCausal, SignatureOk, Step, Registers.Settles, DataReflects, Image, Admissible, IsGreatest, Held, Apply;
    StepAdmits(doc, d, verified);
    MirroredIsBacked(doc);
    var s, after := Held(doc.log), Step(doc, d, verified).0;
    if after != doc {
      HeldAppend(doc.log, d);
      ApplyMirrors(doc.crdt, d, s);
      LastIsGrounded(doc.did, d, s, verified);
      ClosedWith(s, d);
      var h :| h in s && s[h].op.AddVerificationMethod?;
      assert h in With(s, d) && With(s, d)[h] == s[h];
    }
  }

  lemma ApplyMirrors(c: Crdt, d: Delta, s: History)
    requires PlainReflects(c, s) && d.hash !in s
    ensures PlainReflects(Apply(c, d, s), With(s, d))
  {
    hide PlainReflects, ApplyServices;
    PlainStep(c, d, s);
    PlainIgnoresServices(ApplyPlain(c, d), Apply(c, d, s), With(s, d));
  }

  lemma ClosedWith(s: History, d: Delta)
    requires Elements(d.parents) <= s.Keys
    ensures AncestorClosed(s) ==> AncestorClosed(With(s, d))
  {
    assert forall p :: p in d.parents ==> p in Elements(d.parents);
  }

  /** A step that checks at least as much as the log was admitted under keeps it admitted. */
  lemma StepKeepsSound(doc: Doc, g: Delta, d: Delta, verified: bool, checked: bool)
    requires Sound(doc, g, checked) && (checked ==> verified)
    ensures Sound(Step(doc, d, verified).0, g, checked)
  {
    hide VerifyCausal, SignatureOk, Step, PlainReflects, Held, Apply, LocalOk;
    SoundIsMirrored(doc, g, checked);
    StepAdmits(doc, d, verified);
    StepKeepsMirrored(doc, d, verified);
    var after := Step(doc, d, verified).0;
    if after != doc {
      assert after.log[..|after.log| - 1] == doc.log;
    }
  }

  /** A step also keeps the service endpoints in closed form, as long as stamps identify deltas. */
  lemma StepKeepsReflects(doc: Doc, d: Delta, verified: bool)
    requires Mirrored(doc) && AncestorClosed(Held(doc.log)) && Reflects(doc.crdt, Held(doc.log))
    requires DistinctStamps(Held(Step(doc, d, verified).0.log))
    ensures Reflects(Step(doc, d, verified).0.crdt, Held(Step(doc, d, verified).0.log))
  {
    hide VerifyCausal, SignatureOk, Step, PlainReflects, ServicesReflect, Admissible, AncestorClosed, DistinctStamps,
         Apply, Mirrored, Image;
    StepAdmits(doc, d, verified);
    MirroredIsBacked(doc);
    if Step(doc, d, verified).0 != doc {
      HeldAppend(doc.log, d);
      LastIsGrounded(doc.did, d, Held(doc.log), verified);
      ApplyKeepsClosedForm(doc.crdt, d, Held(doc.log));
    }
  }

  /** What was admitted with signatures checked is admitted without. */
  lemma {:induction false} CheckedIsAdmitted(did: Did, g: Delta, log: seq<Delta>)
    requires AdmittedLog(did, g, log, true)
    ensures AdmittedLog(did, g, log, false)
  {
    hide Held, VerifyCausal, SignatureOk, LocalOk;
    if |log| > 1 {
      CheckedIsAdmitted(did, g, log[..|log| - 1]);
    }
  }
}
