/** Every signer in every reachable document traces back to genesis. */
module Authority {
  import opened Deltas
  import opened Histories
  import opened Dag
  import opened Causal
  import opened State
  import opened StateLaws
  import opened Documents
  import opened Convergence
  import opened Refusals

  /** `k` introduces the signer of `h`, from inside the past of `h`. */
  ghost predicate Authorises(s: History, k: Hash, h: Hash) {
    && h in s && k in s
    && k in Past(s, Elements(s[h].parents))
    && s[k].op.AddVerificationMethod? && s[k].op.entry.id == s[h].signer
  }

  /** Each link is authorised by the next, and the last is genesis. */
  ghost predicate AuthorityChain(s: History, g: Delta, chain: seq<Hash>) {
    if |chain| <= 1 then chain == [g.hash]
    else Authorises(s, chain[1], chain[0]) && AuthorityChain(s, g, chain[1..])
  }

  /** The past of a held delta is held, reaches genesis, introduces the signer and never disowns it. */
  ghost predicate Authorised(s: History, g: Delta, h: Hash)
    requires h in s
  {
    var past := Past(s, Elements(s[h].parents));
    && past <= s.Keys
    && g.hash in past
    && (exists k :: Authorises(s, k, h))
    && (forall k :: k in past && k in s ==>
          !(s[k].op.RevokeVerificationMethod? && s[k].op.keyId == s[h].signer) && !s[k].op.Deactivate?)
  }

  ghost predicate WellAuthorised(s: History, g: Delta) {
    forall h :: h in s ==> (s[h].parents == [] <==> h == g.hash) && (h != g.hash ==> Authorised(s, g, h))
  }

  lemma AuthorisedGrows(s: History, t: History, g: Delta, h: Hash)
    requires AncestorClosed(s) && Extends(s, t) && h in s && Authorised(s, g, h)
    ensures Authorised(t, g, h)
  {
    hide Past, Elements;
    PartKeepsPast(s, t, h);
    var k :| Authorises(s, k, h);
    assert Authorises(t, k, h);
  }

  lemma AdmittedIsAuthorised(did: Did, d: Delta, s: History, g: Delta, verified: bool)
    requires Admissible(did, d, s, verified) && d.hash !in s && AncestorClosed(s)
    requires g.hash in s && WellAuthorised(s, g)
    ensures d.parents != [] && Authorised(With(s, d), g, d.hash)
  {
    hide Past, SignatureOk, WellAuthorised;
    var t, from := With(s, d), Elements(d.parents);
    ValidNeedsParents(d, s);
    PastGrows(s, t, from);
    PastIsClosed(s, from);
    var p := d.parents[0];
    assert p in from;
    GenesisBelow(s, g, p);
    PastIsTransitive(s, from, p);
    var k :| k in Past(s, from) && k in s && AddsKey(s[k], d.signer);
    assert Authorises(t, k, d.hash);
  }

  lemma GenesisBelow(s: History, g: Delta, p: Hash)
    requires p in s && WellAuthorised(s, g)
    ensures p == g.hash || g.hash in Past(s, Elements(s[p].parents))
  {
    hide Past;
  }

  /** In every admitted log exactly genesis is parentless and every other delta is authorised. */
  lemma {:induction false} LogIsAuthorised(did: Did, g: Delta, log: seq<Delta>, verified: bool)
    requires AdmittedLog(did, g, log, verified)
    ensures WellAuthorised(Held(log), g)
  {
    hide Authorised, Held, Admissible, AdmittedLog, AncestorClosed, WellIndexed, With, Extends;
    AdmittedIsGrounded(did, g, log, verified);
    if |log| == 1 {
      HeldOne(g);
      assert log == [g];
    } else {
      var front, last := log[..|log| - 1], log[|log| - 1];
      AdmittedLast(did, g, log, verified);
      AdmittedIsGrounded(did, g, front, verified);
      WithExtends(Held(front), last);
      LogIsAuthorised(did, g, front, verified);
      AdmittedIsAuthorised(did, last, Held(front), g, verified);
      forall h | h in Held(front) && h != g.hash ensures Authorised(Held(log), g, h) {
        AuthorisedGrows(Held(front), Held(log), g, h);
      }
    }
  }

  lemma {:induction false} ChainGrows(s: History, t: History, g: Delta, chain: seq<Hash>)
    requires AncestorClosed(s) && Extends(s, t) && AuthorityChain(s, g, chain)
    ensures AuthorityChain(t, g, chain)
  {
    hide Past, Elements;
    if |chain| > 1 {
      PartKeepsPast(s, t, chain[0]);
      ChainGrows(s, t, g, chain[1..]);
    }
  }

  /** Each held delta heads a finite chain of introductions that ends at genesis. */
  lemma {:induction false} SignersTraceToGenesis(did: Did, g: Delta, log: seq<Delta>, h: Hash, verified: bool)
    returns (chain: seq<Hash>)
    requires AdmittedLog(did, g, log, verified) && h in Held(log)
    ensures chain != [] && chain[0] == h && AuthorityChain(Held(log), g, chain)
    ensures |chain| <= |log|
    decreases |log|
  {
    hide Held, Admissible, AdmittedLog, AncestorClosed, WellIndexed, Elements, AuthorityChain, Authorises,
         WellAuthorised, With;
    AdmittedIsGrounded(did, g, log, verified);
    if h == g.hash {
      ChainEnds(Held(log), g);
      chain := [h];
    } else {
      OnlyGenesisIsAlone(did, g, log, h, verified);
      var front, last := log[..|log| - 1], log[|log| - 1];
      AdmittedLast(did, g, log, verified);
      AdmittedIsGrounded(did, g, front, verified);
      WithExtends(Held(front), last);
      if h in Held(front) {
        chain := SignersTraceToGenesis(did, g, front, h, verified);
        ChainGrows(Held(front), Held(log), g, chain);
      } else {
        LogIsAuthorised(did, g, log, verified);
        var k := AuthoriserOf(Held(log), g, h);
        AuthoriserIsEarlier(did, last, Held(front), k, verified);
        var rest := SignersTraceToGenesis(did, g, front, k, verified);
        ChainGrows(Held(front), Held(log), g, rest);
        ChainExtends(Held(log), g, h, rest);
        chain := [h] + rest;
      }
    }
  }

  lemma AuthoriserOf(s: History, g: Delta, h: Hash) returns (k: Hash)
    requires h in s && h != g.hash && WellAuthorised(s, g)
    ensures Authorises(s, k, h)
  {
    hide Past, Authorises;
    k :| Authorises(s, k, h);
  }

  lemma ChainEnds(s: History, g: Delta)
    ensures AuthorityChain(s, g, [g.hash])
  {
  }

  lemma ChainExtends(s: History, g: Delta, h: Hash, rest: seq<Hash>)
    requires rest != [] && AuthorityChain(s, g, rest) && Authorises(s, rest[0], h)
    ensures AuthorityChain(s, g, [h] + rest)
  {
    hide Authorises;
    assert ([h] + rest)[1..] == rest;
  }

  lemma AuthoriserIsEarlier(did: Did, d: Delta, s: History, k: Hash, verified: bool)
    requires Admissible(did, d, s, verified) && s != map[] && d.hash !in s
    requires Authorises(With(s, d), k, d.hash)
    ensures k in s
  {
    hide Past, Admissible;
    LastIsGrounded(did, d, s, verified);
    PastGrows(s, With(s, d), Elements(d.parents));
  }

  /** Over whole runs: any delivery to a new document leaves it authorised throughout. */
  lemma RunsAreAuthorised(did: Did, key: PublicKey, text: string, hash: Hash, ds: seq<Delta>, verified: bool)
    ensures var g := Genesis(did, key, text, hash);
            var doc := Deliver(NewDoc(did, g), ds, verified);
            AdmittedLog(did, g, doc.log, verified) && WellAuthorised(Held(doc.log), g)
  {
    hide WellAuthorised, Sound, Mirrored, AncestorClosed, Deliver, Held, Apply, AdmittedLog, Reflects;
    var g := Genesis(did, key, text, hash);
    NewDocIsSound(did, key, text, hash, verified);
    DeliverKeepsSound(NewDoc(did, g), g, ds, verified, verified);
    SoundIsMirrored(Deliver(NewDoc(did, g), ds, verified), g, verified);
    LogIsAuthorised(did, g, Deliver(NewDoc(did, g), ds, verified).log, verified);
  }

  // ── addressed and authentic ─────────────────────────────────────────────────

  /** Every delta past genesis is addressed to the document and within its bounds, and its parents ascend. */
  ghost predicate WellAddressed(did: Did, log: seq<Delta>) {
    forall i :: 0 < i < |log| ==> OfDocument(did, log[i]) && Ascending(log[i].parents)
  }

  /** Entry `i` carries a proof that verifies under the least key its signer had among the entries before it. */
  ghost predicate Authentic(log: seq<Delta>, i: nat)
    requires i < |log|
  {
    && log[i].proof.Signed?
    && exists h :: SignsAt(Held(log[..i]), log[i], h)
  }

  /** `h` introduces the signer's least key, and the proof verifies under it. */
  ghost predicate SignsAt(s: History, d: Delta, h: Hash) {
    && h in s && s[h].op.AddVerificationMethod? && s[h].op.entry.id == d.signer
    && d.proof.Signed? && s[h].op.entry.key in d.proof.verifiesUnder
    && forall k :: k in s && s[k].op.AddVerificationMethod? && s[k].op.entry.id == d.signer ==>
         s[h].op.entry.key <= s[k].op.entry.key
  }

  lemma {:induction false} LogIsWellAddressed(did: Did, g: Delta, log: seq<Delta>, verified: bool)
    requires AdmittedLog(did, g, log, verified)
    ensures WellAddressed(did, log)
  {
    hide Held, VerifyCausal, SignatureOk, OfDocument, Ascending, LocalOk;
    if |log| > 1 {
      LogIsWellAddressed(did, g, log[..|log| - 1], verified);
      LocalMeansOfDocument(did, log[|log| - 1]);
    }
  }

  /** A proof that holds over the keys of a history holds over the delta that introduced the key. */
  lemma ProofIsIntroduced(s: History, d: Delta)
    requires SignatureOk(d, Image(s, KeyOf)) && IntroducesKey(s)
    ensures d.proof.Signed? && exists h :: SignsAt(s, d, h)
  {
    hide IsFirstKey, SignatureOk;
    SignatureMeans(d, Image(s, KeyOf));
    forall k | k in s && s[k].op.AddVerificationMethod? ensures s[k].op.entry in Image(s, KeyOf) {
      assert KeyOf(s[k]).Some? && KeyOf(s[k]).value == s[k].op.entry;
    }
    var e :| && e in Image(s, KeyOf) && e.id == d.signer && e.key in d.proof.verifiesUnder
             && (forall f :: f in Image(s, KeyOf) && f.id == d.signer ==> e.key <= f.key);
    var h :| h in s && KeyOf(s[h]).Some? && KeyOf(s[h]).value == e;
    assert SignsAt(s, d, h);
  }

  /** On the verified path every delta past genesis is authentic, against the keys held when it came in. */
  lemma {:induction false} LogIsAuthentic(did: Did, g: Delta, log: seq<Delta>, i: nat)
    requires AdmittedLog(did, g, log, true) && 0 < i < |log|
    ensures Authentic(log, i)
  {
    hide Held, VerifyCausal, SignatureOk, LocalOk, SignsAt, AdmittedLog, AncestorClosed, WellIndexed;
    var front, last := log[..|log| - 1], log[|log| - 1];
    AdmittedLast(did, g, log, true);
    if i == |log| - 1 {
      AdmittedIsGrounded(did, g, front, true);
      assert log[..i] == front && log[i] == last;
      ProofIsIntroduced(Held(front), last);
    } else {
      LogIsAuthentic(did, g, front, i);
      assert front[..i] == log[..i] && front[i] == log[i];
    }
  }
}
