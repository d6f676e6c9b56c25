/** What each way into a document refuses, and with which answer, said of the delta's own fields. */
module Refusals {
  import opened Deltas
  import opened Histories
  import opened Causal
  import opened State
  import opened Documents

  /** Size, DID, alias and property gates, in that order; none of them touches the document. */
  lemma FieldsAreChecked(doc: Doc, d: Delta)
    ensures d.size > 65_536 ==> Merge(doc, d) == (doc, Err(DeltaTooLarge))
    ensures d.size <= 65_536 && d.did != doc.did ==> Merge(doc, d) == (doc, Err(DeltaRejected))
    ensures d.size <= 65_536 && d.op.SetAlsoKnownAs? && !d.op.recognised ==> Merge(doc, d) == (doc, Err(DeltaRejected))
    ensures d.size <= 65_536 && d.op.SetDocumentData?
            && d.op.field in {"@context", "id", "alsoKnownAs", "controller", "verificationMethod", "authentication",
                              "assertionMethod", "keyAgreement", "capabilityInvocation", "capabilityDelegation",
                              "service"}
            ==> Merge(doc, d) == (doc, Err(DeltaRejected))
    ensures Merge(doc, d).1 == Ok ==> OfDocument(doc.did, d)
    ensures OfDocument(doc.did, d) && d.hash in Held(doc.log) ==> Merge(doc, d) == (doc, Ok)
  {
    hide Held, Decide, Apply;
  }

  /** A delta addressed to `did`, of bounded size, that writes no reserved property and no unrecognised alias. */
  predicate OfDocument(did: Did, d: Delta) {
    && d.did == did && d.size <= 65_536
    && (d.op.SetAlsoKnownAs? ==> d.op.recognised)
    && (d.op.SetDocumentData? ==>
          d.op.field !in {"@context", "id", "alsoKnownAs", "controller", "verificationMethod", "authentication",
                          "assertionMethod", "keyAgreement", "capabilityInvocation", "capabilityDelegation", "service"})
  }

  lemma LocalMeansOfDocument(did: Did, d: Delta)
    ensures LocalOk(did, d) <==> OfDocument(did, d) && Ascending(d.parents)
  {
    CanonicalIsAscending(d.parents);
  }

  // ── the decision on a new delta ─────────────────────────────────────────────

  ghost predicate Introduced(s: History, c: set<Hash>, id: string) {
    exists h :: h in c && h in s && s[h].op.AddVerificationMethod? && s[h].op.entry.id == id
  }

  ghost predicate RevokedIn(s: History, c: set<Hash>, id: string) {
    exists h :: h in c && h in s && s[h].op.RevokeVerificationMethod? && s[h].op.keyId == id
  }

  ghost predicate OffIn(s: History, c: set<Hash>) {
    exists h :: h in c && h in s && s[h].op.Deactivate?
  }

  /** Nothing in the past, all of which is held, disowns the signer. */
  ghost predicate CleanPast(d: Delta, s: History) {
    var past := Past(s, Elements(d.parents));
    past <= s.Keys && !RevokedIn(s, past, d.signer) && !OffIn(s, past)
  }

  /** The past introduces the signer; or, for the first delta of a store, the delta introduces itself. */
  ghost predicate PastAuthorises(d: Delta, s: History) {
    if d.parents == [] then s == map[] && d.op.AddVerificationMethod? && d.op.entry.id == d.signer
    else CleanPast(d, s) && Introduced(s, Past(s, Elements(d.parents)), d.signer)
  }

  /** No delta at all, in the past or beside it, introduces the signer. */
  ghost predicate LeftToState(d: Delta, s: History) {
    d.parents != [] && CleanPast(d, s) && !Introduced(s, s.Keys, d.signer)
  }

  lemma HeldFacts(s: History, id: string)
    ensures HasKeyDelta(s, id) <==> Introduced(s, s.Keys, id)
    ensures HasRevokeDelta(s, id) <==> RevokedIn(s, s.Keys, id)
    ensures HasDeactivateDelta(s) <==> OffIn(s, s.Keys)
  {
    if HasKeyDelta(s, id) {
      var h :| h in s && AddsKey(s[h], id);
      assert h in s.Keys && s[h].op.entry.id == id;
    }
    if Introduced(s, s.Keys, id) {
      var h :| h in s.Keys && h in s && s[h].op.AddVerificationMethod? && s[h].op.entry.id == id;
      assert AddsKey(s[h], id);
    }
    if HasRevokeDelta(s, id) {
      var h :| h in s && RevokesKey(s[h], id);
      assert h in s.Keys && s[h].op.keyId == id;
    }
    if RevokedIn(s, s.Keys, id) {
      var h :| h in s.Keys && h in s && s[h].op.RevokeVerificationMethod? && s[h].op.keyId == id;
      assert RevokesKey(s[h], id);
    }
    if HasDeactivateDelta(s) {
      var h :| h in s && s[h].op.Deactivate?;
      assert h in s.Keys;
    }
  }

  /** The causal verdict, said of the operations held. */
  lemma PastDecides(d: Delta, s: History)
    ensures VerifyCausal(d, s).Valid? <==> PastAuthorises(d, s)
    ensures Deferred(d, s) <==> LeftToState(d, s)
    ensures VerifyCausal(d, s).Unknown? <==>
              var past := Past(s, Elements(d.parents));
              d.parents != [] && !(past <= s.Keys) && !RevokedIn(s, past, d.signer) && !OffIn(s, past)
    ensures VerifyCausal(d, s).Unknown? ==>
              && Ascending(VerifyCausal(d, s).missing) && VerifyCausal(d, s).missing != []
              && Elements(VerifyCausal(d, s).missing) == Past(s, Elements(d.parents)) - s.Keys
  {
    hide VerifyCausal, Past, Elements, HasKeyDelta;
    HeldFacts(s, d.signer);
    if d.parents == [] {
      RootVerdictMeans(d, s);
    } else {
      VerdictMeans(d, s);
      var past := Past(s, Elements(d.parents));
      if Introduced(s, past, d.signer) {
        var h :| h in past && h in s && s[h].op.AddVerificationMethod? && s[h].op.entry.id == d.signer;
        assert h in s.Keys;
      }
    }
  }

  /** Imported facts without a delta behind them: which of them stand against `d`. */
  ghost predicate ImportedOff(doc: Doc) {
    doc.crdt.deactivated && !OffIn(Held(doc.log), Held(doc.log).Keys)
  }

  ghost predicate Unknowable(doc: Doc, signer: string) {
    && !Introduced(Held(doc.log), Held(doc.log).Keys, signer)
    && doc.crdt.keys != {} && forall e :: e in doc.crdt.keys ==> e.id != signer
  }

  ghost predicate ImportedRevocation(doc: Doc, signer: string) {
    signer in doc.crdt.revokedKeys && !RevokedIn(Held(doc.log), Held(doc.log).Keys, signer)
  }

  /**
   * The answer to every new delta on every document, delta-backed or not: parents must ascend, then be there, then
   * authorise; and what the past authorises, or leaves to the state, only an imported fact refuses.
   */
  lemma MergeAnswers(doc: Doc, d: Delta)
    requires OfDocument(doc.did, d) && d.hash !in Held(doc.log)
    ensures var s := Held(doc.log);
            var past := Past(s, Elements(d.parents));
            var willing := PastAuthorises(d, s) || LeftToState(d, s);
            var waiting := d.parents != [] && !(past <= s.Keys) && !RevokedIn(s, past, d.signer) && !OffIn(s, past);
            if !Ascending(d.parents) then Merge(doc, d) == (doc, Err(DeltaRejected))
            else if waiting then
              && Merge(doc, d).0 == doc && Merge(doc, d).1.Err? && Merge(doc, d).1.error.DeltaPending?
              && Ascending(Merge(doc, d).1.error.missing) && Elements(Merge(doc, d).1.error.missing) == past - s.Keys
            else if !willing then Merge(doc, d) == (doc, Err(Unauthorised))
            else if ImportedOff(doc) then Merge(doc, d) == (doc, Err(DeltaRejected))
            else if Unknowable(doc, d.signer) || ImportedRevocation(doc, d.signer) then
              Merge(doc, d) == (doc, Err(Unauthorised))
            else Merge(doc, d).1 == Ok && Merge(doc, d).0.log == doc.log + [d]
  {
    hide VerifyCausal, Held, Past, Elements, Apply, Introduced, RevokedIn, OffIn, PastAuthorises, LeftToState, Deferred,
         HasKeyDelta, HasRevokeDelta, HasDeactivateDelta, CanonicalParents, Ascending, Gate, OfDocument;
    var s := Held(doc.log);
    CanonicalIsAscending(d.parents);
    GateOpens(doc.did, d);
    PastDecides(d, s);
    HeldFacts(s, d.signer);
  }

  lemma GateOpens(did: Did, d: Delta)
    ensures Gate(did, d) == Ok <==> OfDocument(did, d)
  {
  }

  /** Admission on every document, as one equivalence. */
  lemma AdmissionExact(doc: Doc, d: Delta)
    requires d.hash !in Held(doc.log)
    ensures Merge(doc, d).1 == Ok <==>
              var s := Held(doc.log);
              && OfDocument(doc.did, d) && Ascending(d.parents)
              && (PastAuthorises(d, s) || LeftToState(d, s))
              && !ImportedOff(doc) && !Unknowable(doc, d.signer) && !ImportedRevocation(doc, d.signer)
  {
    hide Held, Past, Elements, Merge, Ascending, OfDocument, Introduced, RevokedIn, OffIn, ImportedOff, Unknowable,
         ImportedRevocation;
    FieldsAreChecked(doc, d);
    if OfDocument(doc.did, d) {
      MergeAnswers(doc, d);
    }
  }

  // ── signatures ──────────────────────────────────────────────────────────────

  /** The proof is empty and no key is known, or it verifies under the least key of its signer. */
  ghost predicate ProofHolds(d: Delta, keys: set<KeyEntry>) {
    if d.proof.Unsigned? then keys == {}
    else
      exists e ::
        && e in keys && e.id == d.signer && e.key in d.proof.verifiesUnder
        && (forall f :: f in keys && f.id == d.signer ==> e.key <= f.key)
  }

  lemma SignatureMeans(d: Delta, keys: set<KeyEntry>)
    ensures SignatureOk(d, keys) <==> ProofHolds(d, keys)
  {
  }

  /**
   * On the verified path a held delta is a no-op and an undecided past waits; then a proof that fails is refused before
   * all else. An unsigned delta never gets into a document that knows a key.
   */
  lemma VerifiedAnswers(doc: Doc, d: Delta)
    ensures d.hash in Held(doc.log) ==> MergeVerified(doc, d) == (doc, Ok)
    ensures d.hash !in Held(doc.log) && doc.crdt.keys != {} && d.proof.Unsigned? ==>
              MergeVerified(doc, d).0 == doc && MergeVerified(doc, d).1.Err?
    ensures d.hash !in Held(doc.log) && VerifyCausal(d, Held(doc.log)).Unknown? ==>
              && MergeVerified(doc, d).0 == doc && MergeVerified(doc, d).1.Err?
              && MergeVerified(doc, d).1.error == DeltaPending(VerifyCausal(d, Held(doc.log)).missing)
    ensures d.hash !in Held(doc.log) && !VerifyCausal(d, Held(doc.log)).Unknown? ==>
              MergeVerified(doc, d) == if ProofHolds(d, doc.crdt.keys) then Merge(doc, d) else (doc, Err(BadProof))
  {
    hide Held, VerifyCausal, Merge, SignatureOk;
    SignatureMeans(d, doc.crdt.keys);
  }

  /** A pending answer, on either path, lists exactly the reachable hashes that are absent, in ascending order. */
  lemma PendingNamesTheAbsent(doc: Doc, d: Delta, verified: bool)
    requires Step(doc, d, verified).1.Err? && Step(doc, d, verified).1.error.DeltaPending?
    ensures var s, missing := Held(doc.log), Step(doc, d, verified).1.error.missing;
            && Step(doc, d, verified).0 == doc && d.hash !in s
            && missing != [] && Ascending(missing) && Elements(missing) == Past(s, Elements(d.parents)) - s.Keys
  {
    hide Held, VerifyCausal, SignatureOk, Past, Elements, Ascending, Apply, Introduced, RevokedIn, OffIn, FloorRefuses,
         HasDeactivateDelta, Deferred;
    PastDecides(d, Held(doc.log));
  }
}
