/** The sync protocol: routing, the inbound loop, and bootstrapping an unknown DID. */
module Gossip {
  import opened Deltas
  import opened Histories
  import opened Dag
  import opened State
  import opened StateLaws
  import opened Documents
  import opened Keys
  import opened Convergence
  import opened Recon
  import opened Exchange
  import opened DocumentObject
  import Authority

  datatype SyncMessage =
    | Announce(did: Did, digest: nat)
    | Request(did: Did, frontier: seq<Hash>)
    | Deltas(did: Did, deltas: seq<Delta>)

  datatype MergeOutcome = Noop | Merged | Bootstrapped(did: Did) | BootstrapError | IgnoredUnsolicited

  /** What deriving a document from a key yields: its DID, the key's text, and the creation delta's hash. */
  type Derivation = PublicKey -> (Did, string, Hash)

  // ── bootstrapping ───────────────────────────────────────────────────────────

  function WithParents(ds: seq<Delta>): seq<Delta> {
    if ds == [] then []
    else WithParents(ds[..|ds| - 1]) + if ds[|ds| - 1].parents != [] then [ds[|ds| - 1]] else []
  }

  function WithoutParents(ds: seq<Delta>): seq<Delta> {
    if ds == [] then []
    else WithoutParents(ds[..|ds| - 1]) + if ds[|ds| - 1].parents == [] then [ds[|ds| - 1]] else []
  }

  lemma {:induction false} SplitByParents(ds: seq<Delta>)
    ensures forall d :: d in WithParents(ds) <==> d in ds && d.parents != []
    ensures forall d :: d in WithoutParents(ds) <==> d in ds && d.parents == []
  {
    if ds != [] {
      SplitLast(ds);
      SplitByParents(ds[..|ds| - 1]);
    }
  }

  /** The creation delta a batch claims, if it has exactly one and it checks out. */
  function ClaimedGenesis(did: Did, ds: seq<Delta>, derive: Derivation): Option<Delta> {
    var roots := WithoutParents(ds);
    if |roots| != 1 || !roots[0].op.AddVerificationMethod? then None
    else
      var key := roots[0].op.entry.key;
      var (derived, text, hash) := derive(key);
      if derived != did || hash != roots[0].hash then None
      else Some(Genesis(did, key, text, hash))
  }

  ghost function Bootstrap(did: Did, ds: seq<Delta>, derive: Derivation): Option<Doc> {
    match ClaimedGenesis(did, ds, derive)
    case None => None
    case Some(g) => Some(Retry(NewDoc(did, g), WithParents(ds)))
  }

  /** Entry `i` is the batch's only parentless one, and the key it adds derives this DID and this very delta. */
  predicate FoundsAt(did: Did, ds: seq<Delta>, derive: Derivation, i: nat)
    requires i < |ds|
  {
    && ds[i].parents == [] && (forall j :: 0 <= j < |ds| && j != i ==> ds[j].parents != [])
    && ds[i].op.AddVerificationMethod?
    && derive(ds[i].op.entry.key).0 == did && derive(ds[i].op.entry.key).2 == ds[i].hash
  }

  lemma {:induction false} NoRoots(ds: seq<Delta>)
    requires forall j :: 0 <= j < |ds| ==> ds[j].parents != []
    ensures WithoutParents(ds) == []
  {
    if ds != [] {
      NoRoots(ds[..|ds| - 1]);
    }
  }

  lemma {:induction false} OneRootAt(ds: seq<Delta>, i: nat)
    requires i < |ds| && ds[i].parents == [] && (forall j :: 0 <= j < |ds| && j != i ==> ds[j].parents != [])
    ensures WithoutParents(ds) == [ds[i]]
  {
    var front, last := ds[..|ds| - 1], ds[|ds| - 1];
    if i < |front| {
      OneRootAt(front, i);
      assert last.parents != [] && front[i] == ds[i];
    } else {
      NoRoots(front);
      assert WithoutParents(ds) == WithoutParents(front) + [last];
    }
  }

  lemma {:induction false} RootsAreListed(ds: seq<Delta>) returns (i: nat)
    requires |WithoutParents(ds)| == 1
    ensures i < |ds| && WithoutParents(ds) == [ds[i]] && ds[i].parents == []
    ensures forall j :: 0 <= j < |ds| && j != i ==> ds[j].parents != []
  {
    var front, last := ds[..|ds| - 1], ds[|ds| - 1];
    assert forall j :: 0 <= j < |front| ==> front[j] == ds[j];
    if last.parents == [] {
      i := |ds| - 1;
      SplitByParents(front);
      assert WithoutParents(front) == [];
      forall j | 0 <= j < |front| ensures ds[j].parents != [] {
        assert front[j] in front;
      }
    } else {
      i := RootsAreListed(front);
    }
  }

  /** A bootstrap succeeds exactly when the batch has one parentless entry and the key it adds derives DID and hash. */
  lemma BootstrapIff(did: Did, ds: seq<Delta>, derive: Derivation)
    ensures Bootstrap(did, ds, derive).Some? <==> exists i :: 0 <= i < |ds| && FoundsAt(did, ds, derive, i)
    ensures forall i :: 0 <= i < |ds| && FoundsAt(did, ds, derive, i) ==>
              var key := ds[i].op.entry.key;
              ClaimedGenesis(did, ds, derive) == Some(Genesis(did, key, derive(key).1, ds[i].hash))
  {
    hide Retry, WithoutParents, WithParents;
    forall i | 0 <= i < |ds| && FoundsAt(did, ds, derive, i)
      ensures var key := ds[i].op.entry.key;
              ClaimedGenesis(did, ds, derive) == Some(Genesis(did, key, derive(key).1, ds[i].hash))
    {
      OneRootAt(ds, i);
    }
    if ClaimedGenesis(did, ds, derive).Some? {
      var i := RootsAreListed(ds);
      assert FoundsAt(did, ds, derive, i);
    }
  }

  /** What a bootstrap founds: a document of this DID whose only parentless delta introduces that key as its first. */
  lemma BootstrapFounds(did: Did, ds: seq<Delta>, derive: Derivation, i: nat)
    requires i < |ds| && FoundsAt(did, ds, derive, i)
    ensures Bootstrap(did, ds, derive).Some?
    ensures var doc := Bootstrap(did, ds, derive).value;
            var s := Held(doc.log);
            && doc.did == did && ds[i].hash in s
            && (forall h :: h in s ==> (s[h].parents == [] <==> h == ds[i].hash))
            && s[ds[i].hash].op.AddVerificationMethod?
            && s[ds[i].hash].op.entry.id == did + "#key-0" && s[ds[i].hash].op.entry.key == ds[i].op.entry.key
    ensures var key := ds[i].op.entry.key;
            Sound(Bootstrap(did, ds, derive).value, Genesis(did, key, derive(key).1, ds[i].hash), true)
  {
    hide Retry, WithoutParents, WithParents, Held, Sound, Mirrored, AdmittedLog, Apply, Authority.Authorised,
         AncestorClosed, Reflects;
    BootstrapIff(did, ds, derive);
    var key := ds[i].op.entry.key;
    var text, hash := derive(key).1, ds[i].hash;
    var g := Genesis(did, key, text, hash);
    NewDocIsSound(did, key, text, hash, true);
    RetryKeepsSound(NewDoc(did, g), g, WithParents(ds), true);
    RetryKeepsDid(NewDoc(did, g), WithParents(ds));
    var doc := Retry(NewDoc(did, g), WithParents(ds));
    SoundIsMirrored(doc, g, true);
    Authority.LogIsAuthorised(did, g, doc.log, true);
  }

  /** A cold start from a peer's whole history rebuilds that peer's history and state. */
  lemma ColdStartRebuilds(a: Doc, key: PublicKey, text: string, hash: Hash, ds: seq<Delta>)
    requires Sound(a, Genesis(a.did, key, text, hash), true) && Reflects(a.crdt, Held(a.log))
    requires LowerKeysFirst(Held(a.log)) && Unambiguous(Held(a.log))
    requires ListsExactly(Held(a.log), Held(a.log).Keys, ds)
    ensures var after := Retry(NewDoc(a.did, Genesis(a.did, key, text, hash)), WithParents(ds));
            Held(after.log) == Held(a.log) && after.crdt == a.crdt
  {
    hide Sound, Mirrored, Held, Reflects, LowerKeysFirst, Unambiguous, Retry, ListsExactly, AdmittedLog, Apply,
         Saturated, SettledOffer, AncestorClosed, DistinctStamps;
    var g := Genesis(a.did, key, text, hash);
    var b := NewDoc(a.did, g);
    NewDocIsSound(a.did, key, text, hash, true);
    SoundIsMirrored(a, g, true);
    SoundIsMirrored(b, g, true);
    HistoryIsOffer(a, g, b, ds);
    var u, after := Held(a.log), Retry(b, WithParents(ds));
    RetrySaturates(b, WithParents(ds), u);
    RetryGrows(b, WithParents(ds));
    AdmittedFlows(a.did, g, a.log, u, Held(after.log), u, true);
    assert Held(after.log) == u;
    UnambiguousStamps(u);
    RetryReflects(b, WithParents(ds));
    ClosedFormUnique(after.crdt, a.crdt, u);
  }

  lemma HistoryIsOffer(a: Doc, g: Delta, b: Doc, ds: seq<Delta>)
    requires Sound(a, g, true) && b.log == [g] && ListsExactly(Held(a.log), Held(a.log).Keys, ds)
    requires LowerKeysFirst(Held(a.log)) && AncestorClosed(Held(b.log))
    ensures SettledOffer(b, WithParents(ds), Held(a.log))
  {
    hide Sound, Held, Mirrored, AdmittedLog, AncestorClosed, Authority.Authorised, WithParents, LowerKeysFirst,
         KeysSettled;
    SoundIsMirrored(a, g, true);
    AdmittedIsGrounded(a.did, g, a.log, true);
    Authority.LogIsAuthorised(a.did, g, a.log, true);
    SplitByParents(ds);
    HeldOne(g);
    ClosedIsSettled(Held(b.log), Held(a.log));
  }

  /** Such a batch is recognised: its one parentless delta is the creation delta. */
  lemma ColdStartIsRecognised(a: Doc, key: PublicKey, text: string, hash: Hash, ds: seq<Delta>, derive: Derivation)
    requires Sound(a, Genesis(a.did, key, text, hash), true) && derive(key) == (a.did, text, hash)
    requires ListsExactly(Held(a.log), Held(a.log).Keys, ds)
    ensures ClaimedGenesis(a.did, ds, derive) == Some(Genesis(a.did, key, text, hash))
  {
    hide Sound, Held, Mirrored, AdmittedLog, AncestorClosed, Authority.Authorised, WithoutParents, ListsExactly;
    var g := Genesis(a.did, key, text, hash);
    SoundIsMirrored(a, g, true);
    AdmittedIsGrounded(a.did, g, a.log, true);
    Authority.LogIsAuthorised(a.did, g, a.log, true);
    SplitByParents(ds);
    OneRoot(Held(a.log), g, ds);
  }

  lemma OneRoot(s: History, g: Delta, ds: seq<Delta>)
    requires WellIndexed(s) && ListsExactly(s, s.Keys, ds) && g.hash in s && s[g.hash] == g
    requires forall h :: h in s ==> (s[h].parents == [] <==> h == g.hash)
    ensures WithoutParents(ds) == [g]
  {
    SplitByParents(ds);
    NoRepeats(s, ds);
    RootsDistinct(ds);
    var roots := WithoutParents(ds);
    assert g in ds && g in roots;
    assert forall d :: d in roots ==> d == g;
    assert forall i :: 0 <= i < |roots| ==> roots[i] == g;
    AllEqualIsOne(roots, g);
  }

  lemma AllEqualIsOne(ds: seq<Delta>, d: Delta)
    requires Distinct(ds) && d in ds && forall i :: 0 <= i < |ds| ==> ds[i] == d
    ensures ds == [d]
  {
    FirstTwoDiffer(ds);
  }

  lemma FirstTwoDiffer(ds: seq<Delta>)
    requires Distinct(ds)
    ensures |ds| >= 2 ==> ds[0] != ds[1]
  {
  }

  /** As many entries as hashes: no delta is listed twice. */
  lemma NoRepeats(s: History, ds: seq<Delta>)
    requires WellIndexed(s) && ListsExactly(s, s.Keys, ds)
    ensures Distinct(ds)
  {
    ListedHashes(s, s.Keys, ds);
    HashCount(ds);
  }

  lemma {:induction false} HashCount(ds: seq<Delta>)
    ensures |Hashes(ds)| <= |ds|
    ensures |Hashes(ds)| == |ds| ==> Distinct(ds)
  {
    hide Distinct, Hashes;
    if ds == [] {
      NoneDuplicated();
    } else {
      var front, last := ds[..|ds| - 1], ds[|ds| - 1];
      SplitLast(ds);
      HashCount(front);
      assert ds[..|ds|] == ds;
      HashesAppend(ds, |ds| - 1);
      if |Hashes(ds)| == |ds| {
        assert last.hash !in Hashes(front);
        FreshHash(front, last);
      }
    }
  }

  lemma NoneDuplicated()
    ensures Distinct<Delta>([]) && Hashes([]) == {}
  {
  }

  lemma FreshHash(front: seq<Delta>, last: Delta)
    requires Distinct(front) && last.hash !in Hashes(front)
    ensures Distinct(front + [last])
  {
    assert forall i :: 0 <= i < |front| ==> front[i].hash in Hashes(front);
  }

  lemma {:induction false} RootsDistinct(ds: seq<Delta>)
    requires Distinct(ds)
    ensures Distinct(WithoutParents(ds))
  {
    if ds != [] {
      var front, last := ds[..|ds| - 1], ds[|ds| - 1];
      SplitLast(ds);
      assert forall i :: 0 <= i < |front| ==> front[i] == ds[i];
      RootsDistinct(front);
      SplitByParents(front);
      var roots := WithoutParents(front);
      assert forall i :: 0 <= i < |roots| ==> roots[i] in roots && roots[i] in front;
      assert last !in front;
    }
  }

  lemma {:induction false} PassKeepsDid(doc: Doc, ds: seq<Delta>)
    ensures Pass(doc, ds).0.did == doc.did
  {
    hide Held, SignatureOk, Decide, Apply;
    if ds != [] {
      PassKeepsDid(doc, ds[..|ds| - 1]);
    }
  }

  lemma {:induction false} RetryKeepsDid(doc: Doc, ds: seq<Delta>)
    ensures Retry(doc, ds).did == doc.did
    decreases |ds|
  {
    hide Pass;
    PassShrinks(doc, ds);
    PassKeepsDid(doc, ds);
    var (after, still) := Pass(doc, ds);
    if still != [] && |still| != |ds| {
      RetryKeepsDid(after, still);
    }
  }

  // ── the inbound loop ────────────────────────────────────────────────────────

  /** One pass: what comes back pending is kept for the next. */
  method RunPass(doc: Document, pending: seq<Delta>) returns (still: seq<Delta>, progressed: bool)
    requires doc.Valid()
    modifies doc, doc.services, doc.dag
    ensures doc.Valid() && doc.services == old(doc.services) && doc.dag == old(doc.dag)
    ensures (doc.View(), still) == Pass(old(doc.View()), pending)
    ensures progressed <==> |still| < |pending|
  {
    hide MergeVerified, Document.Valid;
    still, progressed := [], false;
    for i := 0 to |pending|
      invariant doc.Valid() && doc.services == old(doc.services) && doc.dag == old(doc.dag)
      invariant (doc.View(), still) == Pass(old(doc.View()), pending[..i])
      invariant |still| <= i && (progressed <==> |still| < i)
    {
      assert pending[..i + 1][..|pending[..i + 1]| - 1] == pending[..i];
      var r := doc.MergeVerifiedDelta(pending[i]);
      if r.Err? && r.error.DeltaPending? {
        still := still + [pending[i]];
      } else {
        progressed := true;
      }
    }
    assert pending[..|pending|] == pending;
  }

  /** Apply a batch delta by delta, retrying what was out of order. */
  method MergeBatch(doc: Document, deltas: seq<Delta>)
    requires doc.Valid()
    modifies doc, doc.services, doc.dag
    ensures doc.Valid() && doc.services == old(doc.services) && doc.dag == old(doc.dag)
    ensures doc.View() == Retry(old(doc.View()), deltas) && doc.did == old(doc.did)
  {
    hide Pass, Document.Valid;
    RetryKeepsDid(doc.View(), deltas);
    var pending, done := deltas, false;
    while !done
      invariant doc.Valid() && doc.services == old(doc.services) && doc.dag == old(doc.dag)
      invariant Retry(old(doc.View()), deltas) == if done then doc.View() else Retry(doc.View(), pending)
      decreases !done, |pending|
    {
      PassShrinks(doc.View(), pending);
      var still, progressed := RunPass(doc, pending);
      if still == [] || !progressed {
        done := true;
      } else {
        pending := still;
      }
    }
  }

  /** Reconstruct a document from a batch, trusting only what derives from the key. */
  method GenesisBootstrap(did: Did, deltas: seq<Delta>, derive: Derivation) returns (r: Option<Document>)
    ensures r.Some? <==> exists i :: 0 <= i < |deltas| && FoundsAt(did, deltas, derive, i)
    ensures r.Some? <==> Bootstrap(did, deltas, derive).Some?
    ensures r.Some? ==> fresh(r.value) && fresh(r.value.services) && fresh(r.value.dag)
    ensures r.Some? ==> r.value.Valid() && r.value.did == did
    ensures r.Some? ==> r.value.View() == Bootstrap(did, deltas, derive).value
  {
    hide Retry, Apply, WithParents, WithoutParents, Document.Valid, FoundsAt;
    BootstrapIff(did, deltas, derive);
    var g := ClaimedGenesis(did, deltas, derive);
    if g.None? {
      return None;
    }
    var doc := new Document.Create(did, g.value.op.entry.key, g.value.signer, g.value.hash);
    MergeBatch(doc, WithParents(deltas));
    r := Some(doc);
  }

  // ── a node ──────────────────────────────────────────────────────────────────

  class Node {
    var docs: map<Did, Document>
    var seen: set<(Did, nat)>
    var wanted: set<Did>
    const replicateAll: bool

    constructor (replicateAll: bool)
      ensures Valid() && docs == map[] && seen == {} && wanted == {} && this.replicateAll == replicateAll
    {
      docs, seen, wanted := map[], {}, {};
      this.replicateAll := replicateAll;
    }

    predicate Wants(did: Did)
      reads this
    {
      replicateAll || did in wanted
    }

    /** Each document answers for its own DID and shares nothing with another. */
    ghost predicate Valid()
      reads this, docs.Values, (set d | d in docs :: docs[d].services), (set d | d in docs :: docs[d].dag)
    {
      && (forall d :: d in docs ==> docs[d].Valid() && docs[d].did == d)
      && (forall c, d :: c in docs && d in docs && c != d ==>
            docs[c] != docs[d] && docs[c].services != docs[d].services && docs[c].dag != docs[d].dag)
    }

    /** Route one message: what to broadcast, and what to merge. */
    method Handle(msg: SyncMessage) returns (outgoing: seq<SyncMessage>, deliver: Option<SyncMessage>)
      requires Valid()
      modifies this`seen
      ensures deliver == if msg.Deltas? then Some(msg) else None
      ensures seen == old(seen) + if msg.Announce? then {(msg.did, msg.digest)} else {}
      ensures msg.Announce? && ((msg.did, msg.digest) in old(seen)
                                || (msg.did !in docs && !replicateAll && msg.did !in wanted)) ==>
                outgoing == []
      ensures msg.Announce? && (msg.did, msg.digest) !in old(seen) && msg.did in docs ==>
                outgoing == [Request(msg.did, Sorted(Frontier(Held(docs[msg.did].log))))]
      ensures msg.Announce? && (msg.did, msg.digest) !in old(seen) && msg.did !in docs
              && (replicateAll || msg.did in wanted) ==>
                outgoing == [Request(msg.did, [])]
      ensures msg.Request? && msg.did in docs ==> Answers(Held(docs[msg.did].log), msg, outgoing)
      ensures (msg.Request? && msg.did !in docs) || msg.Deltas? ==> outgoing == []
    {
      hide Held, Sorted, Frontier, ListsExactly, ForPeer;
      outgoing, deliver := [], None;
      match msg {
        case Announce(did, digest) =>
          if (did, digest) in seen {
            assert seen + {(did, digest)} == seen;
            return;
          }
          seen := seen + {(did, digest)};
          if did in docs {
            var heads := docs[did].dag.FrontierList();
            AscendingUnique(heads, Sorted(Frontier(docs[did].dag.byHash)));
            outgoing := [Request(did, heads)];
          } else if Wants(did) {
            outgoing := [Request(did, [])];
          }
        case Request(did, frontier) =>
          if did in docs {
            var ds := DeltasForPeer(docs[did].dag, frontier);
            if ds.Some? {
              ListSize(docs[did].dag.byHash, ForPeer(docs[did].dag.byHash, Elements(frontier)), ds.value);
            }
            if ds.Some? && ds.value != [] {
              outgoing := [SyncMessage.Deltas(did, ds.value)];
            }
          }
        case Deltas(_, _) =>
          deliver := Some(msg);
      }
    }
  }

  lemma ListSize(s: History, c: set<Hash>, ds: seq<Delta>)
    requires ListsExactly(s, c, ds)
    ensures ds == [] <==> c == {}
  {
  }

  /**
   * A request is answered with exactly the deltas above the advertised frontier, or with silence when there are none.
   */
  ghost predicate Answers(s: History, msg: SyncMessage, outgoing: seq<SyncMessage>)
    requires msg.Request?
  {
    var c := ForPeer(s, Elements(msg.frontier));
    if c <= s.Keys && c != {} then
      |outgoing| == 1 && outgoing[0].Deltas? && outgoing[0].did == msg.did && ListsExactly(s, c, outgoing[0].deltas)
    else
      outgoing == []
  }

  /** Merge a delivered payload into the store. */
  method MergeInbound(node: Node, msg: SyncMessage, derive: Derivation) returns (outcome: MergeOutcome)
    requires node.Valid()
    modifies node`docs, (if msg.Deltas? && msg.did in node.docs
                         then {node.docs[msg.did], node.docs[msg.did].services, node.docs[msg.did].dag} else {})
    ensures node.Valid()
    ensures outcome.Noop? <==> !msg.Deltas?
    ensures msg.Deltas? && msg.did in old(node.docs) ==>
              outcome == Merged && node.docs == old(node.docs)
              && node.docs[msg.did].View() == Retry(old(node.docs[msg.did].View()), msg.deltas)
    ensures msg.Deltas? && msg.did !in old(node.docs) && !node.replicateAll && msg.did !in old(node.wanted) ==>
              outcome == IgnoredUnsolicited && node.docs == old(node.docs)
    ensures msg.Deltas? && msg.did !in old(node.docs) && (node.replicateAll || msg.did in old(node.wanted)) ==>
              match Bootstrap(msg.did, msg.deltas, derive)
              case None => outcome == BootstrapError && node.docs == old(node.docs)
              case Some(doc) =>
                && outcome == Bootstrapped(msg.did)
                && node.docs.Keys == old(node.docs).Keys + {msg.did}
                && (forall d :: d in old(node.docs) ==> node.docs[d] == old(node.docs[d]))
                && node.docs[msg.did].View() == doc
  {
    hide Retry, Bootstrap, Document.Valid, Document.View;
    if !msg.Deltas? {
      return Noop;
    }
    if msg.did !in node.docs {
      if !node.Wants(msg.did) {
        return IgnoredUnsolicited;
      }
      var r := GenesisBootstrap(msg.did, msg.deltas, derive);
      if r.None? {
        return BootstrapError;
      }
      node.docs := node.docs[msg.did := r.value];
      return Bootstrapped(msg.did);
    }
    MergeBatch(node.docs[msg.did], msg.deltas);
    outcome := Merged;
  }

  // ── a whole round between two nodes ─────────────────────────────────────────

  /** `b` hears an announcement, asks with its frontier, and merges what `a` answers. */
  method Round(a: Node, b: Node, announce: SyncMessage, derive: Derivation, ghost g: Delta)
    requires a != b && a.Valid() && b.Valid() && announce.Announce? && (announce.did, announce.digest) !in b.seen
    requires announce.did in a.docs && announce.did in b.docs
    requires Feeds(a.docs[announce.did].View(), b.docs[announce.did].View(), g, true)
    modifies a`seen, b`seen, b`docs, b.docs[announce.did], b.docs[announce.did].services, b.docs[announce.did].dag
    ensures b.Valid() && b.docs == old(b.docs)
    ensures Held(b.docs[announce.did].log) == old(Held(a.docs[announce.did].log) + Held(b.docs[announce.did].log))
  {
    hide Held, Feeds, Retry, Document.Valid, Sorted, Frontier, ForPeer, ListsExactly, Answers;
    ghost var x, y := a.docs[announce.did].View(), b.docs[announce.did].View();
    var asked, _ := b.Handle(announce);
    var answers, _ := a.Handle(asked[0]);
    AnswerIsWhole(x, y, g, asked[0], answers);
    if answers != [] {
      var _, deliver := b.Handle(answers[0]);
      var _ := MergeInbound(b, deliver.value, derive);
      ReconciliationClosesGap(x, y, g, answers[0].deltas);
    }
  }

  /** The answer to a sibling's frontier lists exactly what lies above it; silence means there was nothing to send. */
  lemma AnswerIsWhole(x: Doc, y: Doc, g: Delta, request: SyncMessage, answers: seq<SyncMessage>)
    requires Feeds(x, y, g, true) && request.Request? && Elements(request.frontier) == Frontier(Held(y.log))
    requires Answers(Held(x.log), request, answers)
    ensures answers != [] ==>
              && answers[0].Deltas? && answers[0].did == request.did
              && ListsExactly(Held(x.log), ForPeer(Held(x.log), Frontier(Held(y.log))), answers[0].deltas)
    ensures answers == [] ==> Held(y.log) == Held(x.log) + Held(y.log)
  {
    hide Held, Mirrored, AdmittedLog, LowerKeysFirst, AncestorClosed, ForPeer, Frontier, ListsExactly, WellIndexed;
    AnswerCovers(x, y, g, true);
    var s, t := Held(x.log), Held(y.log);
    if answers == [] {
      assert ForPeer(s, Frontier(t)) == {};
      forall h | h in s ensures h in t {
        assert h !in s.Keys - t.Keys;
      }
      assert s + t == t;
    }
  }

  /** `b` does not know the DID but wants it: it asks for everything and rebuilds the history and state of `a`. */
  method ColdRound(a: Node, b: Node, announce: SyncMessage, derive: Derivation, ghost key: PublicKey,
                   ghost text: string, ghost hash: Hash)
    requires a != b && a.Valid() && b.Valid() && announce.Announce? && (announce.did, announce.digest) !in b.seen
    requires announce.did in a.docs && announce.did !in b.docs && (b.replicateAll || announce.did in b.wanted)
    requires derive(key) == (announce.did, text, hash)
    requires var x := a.docs[announce.did].View();
             && Sound(x, Genesis(announce.did, key, text, hash), true) && Reflects(x.crdt, Held(x.log))
             && LowerKeysFirst(Held(x.log)) && Unambiguous(Held(x.log))
    modifies a`seen, b`seen, b`docs
    ensures b.Valid() && b.docs.Keys == old(b.docs).Keys + {announce.did}
    ensures forall d :: d in old(b.docs) ==> b.docs[d] == old(b.docs[d])
    ensures Held(b.docs[announce.did].log) == old(Held(a.docs[announce.did].log))
    ensures b.docs[announce.did].Fields() == old(a.docs[announce.did].Fields())
  {
    hide Held, Sound, Reflects, LowerKeysFirst, Unambiguous, Retry, Document.Valid, Sorted, Frontier, ForPeer,
         ListsExactly, Answers, WithParents, ClaimedGenesis;
    ghost var x := a.docs[announce.did].View();
    var asked, _ := b.Handle(announce);
    var answers, _ := a.Handle(asked[0]);
    FullAnswer(x, Genesis(announce.did, key, text, hash), asked[0], answers);
    var _, deliver := b.Handle(answers[0]);
    ColdStartIsRecognised(x, key, text, hash, answers[0].deltas, derive);
    ColdStartRebuilds(x, key, text, hash, answers[0].deltas);
    var _ := MergeInbound(b, deliver.value, derive);
  }

  lemma FullAnswer(x: Doc, g: Delta, request: SyncMessage, answers: seq<SyncMessage>)
    requires Sound(x, g, true) && request.Request? && request.frontier == [] && Answers(Held(x.log), request, answers)
    ensures answers != [] && answers[0].Deltas? && answers[0].did == request.did
    ensures ListsExactly(Held(x.log), Held(x.log).Keys, answers[0].deltas)
  {
    hide Sound, Held, Mirrored, AdmittedLog, AncestorClosed, ForPeer, ListsExactly;
    SoundIsMirrored(x, g, true);
    ElementsEmpty(request.frontier);
    EverythingIsSent(x.did, g, x.log, true);
  }
}
