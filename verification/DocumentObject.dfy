/** The replicated document as a mutable object: each method is one of the value operations. */
module DocumentObject {
  import opened Deltas
  import opened Histories
  import opened Dag
  import opened Admission
  import opened Causal
  import opened Registers
  import opened Orswots
  import opened VersionVectors
  import opened State
  import opened Documents
  import opened Convergence
  import opened Recon
  import opened Bundles
  import Replicas
  import Kahn

  class Document {
    var did: Did
    var keys: set<KeyEntry>
    var services: ServiceEndpoints
    var data: map<string, Register<Json>>
    var aliases: Register<set<string>>
    var active: Register<Option<KeyRef>>
    var credentials: set<string>
    var revokedKeys: set<string>
    var deactivated: bool
    var created: Option<nat>
    var updated: Option<nat>
    var log: seq<Delta>
    var dag: DeltaDag

    function Fields(): Crdt
      reads this, services
    {
      Crdt(keys, services.View(), data, aliases, active, credentials, revokedKeys, deactivated, created, updated)
    }

    function View(): Doc
      reads this, services
    {
      Doc(did, Fields(), log)
    }

    /** The DAG is the one the log rebuilds. */
    ghost predicate Valid()
      reads this, services, dag
    {
      dag.Valid() && dag.byHash == Held(log)
    }

    /** A document with the given value and fresh parts. */
    constructor FromValue(doc: Doc)
      ensures Valid() && View() == doc
      ensures fresh(services) && fresh(dag)
    {
      did, log := doc.did, doc.log;
      keys, data, aliases, active := doc.crdt.keys, doc.crdt.data, doc.crdt.aliases, doc.crdt.active;
      credentials, revokedKeys, deactivated := doc.crdt.credentials, doc.crdt.revokedKeys, doc.crdt.deactivated;
      created, updated := doc.crdt.created, doc.crdt.updated;
      services := new ServiceEndpoints(doc.crdt.services);
      dag := new DeltaDag();
      new;
      InsertEach(dag, log);
    }

    /** Load a serialised document: keys without a log are refused, everything else comes back with its DAG rebuilt. */
    static method Load(doc: Doc) returns (r: Option<Document>)
      ensures r.None? <==> doc.log == [] && doc.crdt.keys != {}
      ensures r.Some? ==> fresh(r.value) && r.value.Valid() && r.value.View() == doc
    {
      if doc.log == [] && doc.crdt.keys != {} {
        return None;
      }
      var loaded := new Document.FromValue(doc);
      r := Some(loaded);
    }

    /** Create a document from its first public key. */
    constructor Create(id: Did, key: PublicKey, text: string, hash: Hash)
      ensures Valid() && View() == NewDoc(id, Genesis(id, key, text, hash))
      ensures fresh(services) && fresh(dag)
    {
      did, log := id, [];
      keys, data, aliases, active := {}, map[], Fresh({}), Fresh(None);
      credentials, revokedKeys, deactivated := {}, {}, false;
      created, updated := Some(0), Some(0);
      services := new ServiceEndpoints(EMPTY);
      dag := new DeltaDag();
      new;
      hide Past, Referenced, Frontier;
      var g := Genesis(id, key, text, hash);
      ApplyOp(g);
      dag.Insert(g);
      HeldAppend(log, g);
      log := log + [g];
      assert log == [g];
    }

    /** Apply one operation to the field it addresses. */
    method ApplyOp(d: Delta)
      requires Valid()
      modifies this, services
      ensures Valid() && did == old(did) && log == old(log) && dag == old(dag) && services == old(services)
      ensures Fields() == Apply(old(Fields()), d, Held(log))
    {
      hide Past, Held, DeltaDag.Valid, ObserveAll, Observe, ObservedDots, Update, SetData, Touch;
      updated := Touch(updated, d.stamp.wall);
      match d.op {
        case AddServiceEndpoint(entry) =>
          AddService(entry, d.stamp);
        case RemoveServiceEndpoint(id) =>
          RemoveService(id, d.parents, d.stamp);
        case SetAlsoKnownAs(uris, _) =>
          aliases := Update(aliases, (d.stamp, uris));
        case SetDocumentData(field, value) =>
          data := SetData(data, field, (d.stamp, value));
        case RotateKey(rotation, ref) =>
          active := Update(active, (RotationMarker(rotation, ref.digest), Some(ref)));
        case _ =>
          ApplyFact(d.op);
      }
    }

    /** Record a key, a revocation or the deactivation: facts that are never taken back. */
    method ApplyFact(op: Op)
      modifies this`keys, this`credentials, this`revokedKeys, this`deactivated
      ensures keys == old(keys) + if op.AddVerificationMethod? then {op.entry} else {}
      ensures credentials == old(credentials) + if op.RevokeCredential? then {op.credential} else {}
      ensures revokedKeys == old(revokedKeys) + if op.RevokeVerificationMethod? then {op.keyId} else {}
      ensures deactivated == (old(deactivated) || op.Deactivate?)
    {
      match op {
        case AddVerificationMethod(entry) =>
          keys := keys + {entry};
        case RevokeCredential(id) =>
          credentials := credentials + {id};
        case RevokeVerificationMethod(id) =>
          revokedKeys := revokedKeys + {id};
        case Deactivate =>
          deactivated := true;
        case _ =>
      }
    }

    method AddService(entry: ServiceEntry, stamp: Stamp)
      requires Valid()
      modifies services
      ensures Valid() && services.View() == Add(old(services.View()), entry, stamp)
    {
      hide Held, DeltaDag.Valid, Observe;
      services.ApplyAdd(entry, stamp);
    }

    /** Cancel exactly the adds of `id` in the past of `parents`. */
    method RemoveService(id: string, parents: seq<Hash>, stamp: Stamp)
      requires Valid()
      modifies services
      ensures Valid()
      ensures services.View() == Remove(old(services.View()), ListOf(ObservedDots(Held(log), parents, id)), stamp)
    {
      hide Past, Held, DeltaDag.Valid, ObserveAll, Observe, ObservedDots;
      var observed := dag.ClosureCollect(parents, e => DotIfAdds(e, id));
      CollectedAreObserved(dag.byHash, parents, id, observed);
      RemoveBySet(services.View(), observed, ListOf(ObservedDots(dag.byHash, parents, id)), stamp);
      services.ApplyRemove(observed, stamp);
    }

    /** Validate and apply one delta, trusting its signature. */
    method Merge(d: Delta) returns (r: Result)
      requires Valid()
      modifies this, services, dag
      ensures Valid() && dag == old(dag) && services == old(services)
      ensures (View(), r) == Documents.Merge(old(View()), d)
    {
      hide VerifyCausal, Held, Apply, DeltaDag.Valid;
      r := Gate(did, d);
      if r != Ok {
        return;
      }
      if d.hash in dag.byHash {
        return Ok;
      }
      r := Admit(d);
      if r != Ok {
        return;
      }
      HeldAppend(log, d);
      ApplyOp(d);
      dag.Insert(d);
      log := log + [d];
    }

    /** The checks between the duplicate test and the state change. */
    method Admit(d: Delta) returns (r: Result)
      requires Valid()
      ensures r == Decide(View(), d)
    {
      hide VerifyCausal, Held, HasKeyDelta, HasRevokeDelta, HasDeactivateDelta, CanonicalParents, DeltaDag.Valid;
      if !CanonicalParents(d.parents) {
        return Err(DeltaRejected);
      }
      var verdict := Verify(d, dag);
      match verdict {
        case Unknown(missing) => return Err(DeltaPending(missing));
        case Valid =>
        case Invalid(reason) =>
          if !(reason == SignerNotAuthorised && d.parents != [] && !HasKeyDelta(dag.byHash, d.signer)) {
            return Err(Unauthorised);
          }
      }
      if deactivated && !HasDeactivateDelta(dag.byHash) {
        return Err(DeltaRejected);
      }
      if !HasKeyDelta(dag.byHash, d.signer) && keys != {} && !ContainsId(keys, d.signer) {
        return Err(Unauthorised);
      }
      if d.signer in revokedKeys && !HasRevokeDelta(dag.byHash, d.signer) {
        return Err(Unauthorised);
      }
      r := Ok;
    }

    /** Check the proof against the keys in state. */
    method VerifySignature(d: Delta) returns (ok: bool)
      ensures ok <==> SignatureOk(d, keys)
      ensures d.proof.Unsigned? ==> (ok <==> keys == {})
      ensures d.proof.Signed? && ok ==>
                exists e :: e in keys && e.id == d.signer && e.key in d.proof.verifiesUnder
      ensures d.proof.Signed? && !ok ==>
                forall e :: e in keys && e.id == d.signer && e.key in d.proof.verifiesUnder ==>
                  exists f :: f in keys && f.id == d.signer && f.key < e.key
    {
      match d.proof {
        case Unsigned =>
          ok := keys == {};
        case Signed(under) =>
          var key := LookUp(keys, d.signer);
          ok := key.Some? && key.value in under;
          if key.Some? {
            FirstKeyUnique(keys, d.signer, key.value);
          }
      }
    }

    /** The trust boundary for one inbound delta. */
    method MergeVerifiedDelta(d: Delta) returns (r: Result)
      requires Valid()
      modifies this, services, dag
      ensures Valid() && dag == old(dag) && services == old(services)
      ensures (View(), r) == MergeVerified(old(View()), d)
    {
      hide VerifyCausal, Held, SignatureOk, Documents.Merge, DeltaDag.Valid;
      if d.hash in dag.byHash {
        return Ok;
      }
      var verdict := Verify(d, dag);
      if verdict.Unknown? {
        return Err(DeltaPending(verdict.missing));
      }
      var ok := VerifySignature(d);
      if !ok {
        return Err(BadProof);
      }
      r := Merge(d);
    }

    /** Join the full state and history of a trusted replica. */
    method MergeState(other: Document) returns (r: Result)
      requires Valid() && other.Valid()
      requires other != this && other.services != services && other.dag != dag
      modifies this, services, dag
      ensures Valid() && dag == old(dag) && services == old(services)
      ensures (View(), r) == Replicas.MergeState(old(View()), other.View())
    {
      hide Held, DeltaDag.Valid, Replicas.AppendNew, JoinState;
      if other.did != did {
        return Err(DeltaRejected);
      }
      JoinFields(other);
      AbsorbLog(other.log);
      r := Ok;
    }

    /** Join every CRDT field with the other replica's. */
    method JoinFields(other: Document)
      requires Valid() && other.Valid()
      requires other != this && other.services != services && other.dag != dag
      modifies this, services
      ensures Valid() && dag == old(dag) && services == old(services) && did == old(did) && log == old(log)
      ensures Fields() == JoinState(old(Fields()), other.Fields())
    {
      hide Held, Orswots.Join, DeltaDag.Valid, JoinData, Registers.Join, Earliest, Latest;
      JoinServices(other.services);
      JoinPlain(other);
    }

    method JoinServices(other: ServiceEndpoints)
      requires Valid() && other != services
      modifies services
      ensures Valid() && services.View() == Orswots.Join(old(services.View()), other.View())
    {
      hide Held, JoinLive, JoinContext, DeltaDag.Valid;
      services.Merge(other);
    }

    method JoinPlain(other: Document)
      requires other != this
      modifies this
      ensures did == old(did) && log == old(log) && dag == old(dag) && services == old(services)
      ensures Fields() == JoinState(old(Fields()), other.Fields()).(services := services.View())
    {
      hide Orswots.Join, JoinData, Registers.Join, Earliest, Latest;
      JoinSets(other);
      JoinRegisters(other);
    }

    method JoinSets(other: Document)
      requires other != this
      modifies this`keys, this`credentials, this`revokedKeys, this`deactivated
      ensures keys == old(keys) + other.keys && credentials == old(credentials) + other.credentials
      ensures revokedKeys == old(revokedKeys) + other.revokedKeys
      ensures deactivated == (old(deactivated) || other.deactivated)
    {
      keys := keys + other.keys;
      credentials := credentials + other.credentials;
      revokedKeys := revokedKeys + other.revokedKeys;
      deactivated := deactivated || other.deactivated;
    }

    method JoinRegisters(other: Document)
      requires other != this
      modifies this`data, this`aliases, this`active, this`created, this`updated
      ensures data == JoinData(old(data), other.data)
      ensures aliases == Registers.Join(old(aliases), other.aliases)
      ensures active == Registers.Join(old(active), other.active)
      ensures created == Earliest(old(created), other.created)
      ensures updated == Latest(old(updated), other.updated)
    {
      hide JoinData, Registers.Join, Earliest, Latest;
      data := MergeData(data, other.data);
      aliases := Registers.Join(aliases, other.aliases);
      active := Registers.Join(active, other.active);
      created := Earliest(created, other.created);
      updated := Latest(updated, other.updated);
    }

    /** Take in the deltas whose hash is new, in log and DAG alike. */
    method AbsorbLog(ds: seq<Delta>)
      requires Valid()
      modifies this`log, dag
      ensures Valid() && log == Replicas.AppendNew(old(log), ds)
    {
      hide Held, DeltaDag.Valid, With;
      for i := 0 to |ds|
        invariant Valid() && log == Replicas.AppendNew(old(log), ds[..i])
        invariant services == old(services) && dag == old(dag) && services.View() == old(services.View())
      {
        assert ds[..i + 1][..|ds[..i + 1]| - 1] == ds[..i];
        if ds[i].hash !in dag.byHash {
          HeldAppend(log, ds[i]);
          dag.Insert(ds[i]);
          log := log + [ds[i]];
        }
      }
      assert ds[..|ds|] == ds;
    }

    /** Rebuilding from the log gives the same document with a valid DAG, whatever DAG it had. */
    method RebuildDag()
      modifies this`dag
      ensures Valid() && View() == old(View()) && fresh(dag)
    {
      dag := new DeltaDag();
      InsertEach(dag, log);
    }

    /** In every valid document the live DAG is already the rebuilt one. */
    method RebuildIsIdentity() returns (rebuilt: DeltaDag)
      requires Valid()
      ensures rebuilt.byHash == dag.byHash && rebuilt.referenced == dag.referenced && rebuilt.frontier == dag.frontier
    {
      hide Referenced, Frontier;
      rebuilt := new DeltaDag();
      InsertEach(rebuilt, log);
    }

    /** Re-derive authenticated state from a bundle, all or nothing. */
    method MergeVerifiedBundle(b: Bundle) returns (r: Result, applied: nat)
      requires Valid()
      modifies this
      ensures Valid() && (services == old(services) || fresh(services)) && (dag == old(dag) || fresh(dag))
      ensures (View(), r, applied) == Bundles.MergeVerifiedBundle(old(View()), b)
    {
      hide Held, DeltaDag.Valid, Replay, IndexOf, Kahn.KahnOrder, Checked, Bundles.MergeVerifiedBundle;
      var idx, order := CheckBundle(b);
      OrderIsListed(IndexOf(b.deltas));
      MergeBundleCases(View(), b);
      if order.None? {
        return Err(DeltaRejected), 0;
      }
      var working := Clone();
      r := working.ReplayBundle(idx, order.value);
      if r.Err? {
        return r, 0;
      }
      applied := |working.log| - |log|;
      Adopt(working);
    }

    /** The structural checks, and the order to replay in. */
    method CheckBundle(b: Bundle) returns (idx: History, order: Option<seq<Hash>>)
      requires Valid()
      ensures idx == IndexOf(b.deltas)
      ensures order == if Checked(Held(log), b) then Some(Kahn.KahnOrder(idx)) else None
    {
      hide Held, IndexOf, Dangles, Kahn.KahnOrder, DeltaDag.Valid;
      idx := BuildIndex(b.deltas);
      if b.target !in idx {
        return idx, None;
      }
      var dangling := FindDangling(b.deltas, idx, dag);
      if dangling {
        return idx, None;
      }
      order := Kahn.TopoOrder(idx);
    }

    method Clone() returns (copy: Document)
      requires Valid()
      ensures copy.Valid() && copy.View() == View()
      ensures fresh(copy) && fresh(copy.services) && fresh(copy.dag)
    {
      hide Held, DeltaDag.Valid;
      copy := new Document.FromValue(View());
    }

    /** Commit the working copy. */
    method Adopt(working: Document)
      requires working.Valid() && working != this
      modifies this
      ensures Valid() && View() == working.View()
      ensures services == working.services && dag == working.dag
    {
      hide Held, DeltaDag.Valid;
      AdoptSets(working);
      AdoptRegisters(working);
      did, log, services, dag := working.did, working.log, working.services, working.dag;
    }

    method AdoptSets(working: Document)
      requires working != this
      modifies this`keys, this`credentials, this`revokedKeys, this`deactivated
      ensures keys == working.keys && credentials == working.credentials
      ensures revokedKeys == working.revokedKeys && deactivated == working.deactivated
    {
      keys, credentials := working.keys, working.credentials;
      revokedKeys, deactivated := working.revokedKeys, working.deactivated;
    }

    method AdoptRegisters(working: Document)
      requires working != this
      modifies this`data, this`aliases, this`active, this`created, this`updated
      ensures data == working.data && aliases == working.aliases && active == working.active
      ensures created == working.created && updated == working.updated
    {
      data, aliases, active := working.data, working.aliases, working.active;
      created, updated := working.created, working.updated;
    }

    /** Replay in the given order until the first refusal. */
    method ReplayBundle(idx: History, order: seq<Hash>) returns (r: Result)
      requires Valid() && forall h :: h in order ==> h in idx
      modifies this, services, dag
      ensures Valid() && services == old(services) && dag == old(dag)
      ensures (View(), r) == Replay(old(View()), idx, order)
    {
      hide Held, DeltaDag.Valid, SignatureOk, Documents.Merge;
      r := Ok;
      for i := 0 to |order|
        invariant Valid() && services == old(services) && dag == old(dag)
        invariant forall h :: h in order[..i] ==> h in idx
        invariant r == Ok && (View(), r) == Replay(old(View()), idx, order[..i])
      {
        assert order[..i + 1][..|order[..i + 1]| - 1] == order[..i];
        assert order[i] in order;
        var d := idx[order[i]];
        r := ReplayDelta(d);
        ReplayNext(old(View()), idx, order, i);
        if r.Err? {
          ReplayStops(old(View()), idx, order, i + 1);
          return;
        }
      }
      assert order[..|order|] == order;
    }

    method ReplayDelta(d: Delta) returns (r: Result)
      requires Valid()
      modifies this, services, dag
      ensures Valid() && services == old(services) && dag == old(dag)
      ensures (View(), r) == ReplayOne(old(View()), d)
    {
      hide Held, DeltaDag.Valid, SignatureOk, Documents.Merge;
      if d.hash in dag.byHash {
        return Ok;
      }
      var ok := VerifySignature(d);
      if !ok {
        return Err(BadProof);
      }
      r := Merge(d);
    }
  }

  lemma ReplayNext(doc: Doc, idx: History, order: seq<Hash>, i: nat)
    requires i < |order| && forall h :: h in order ==> h in idx
    requires forall h :: h in order[..i] ==> h in idx
    ensures forall h :: h in order[..i + 1] ==> h in idx
    ensures Replay(doc, idx, order[..i]).1 == Ok ==>
              Replay(doc, idx, order[..i + 1]) == ReplayOne(Replay(doc, idx, order[..i]).0, idx[order[i]])
  {
    hide ReplayOne;
    assert order[..i + 1][..|order[..i + 1]| - 1] == order[..i];
  }

  lemma {:induction false} ReplayStops(doc: Doc, idx: History, order: seq<Hash>, i: nat)
    requires i <= |order| && forall h :: h in order ==> h in idx
    requires (forall h :: h in order[..i] ==> h in idx) && Replay(doc, idx, order[..i]).1.Err?
    ensures Replay(doc, idx, order) == Replay(doc, idx, order[..i])
    decreases |order| - i
  {
    hide ReplayOne;
    if i == |order| {
      assert order[..i] == order;
    } else {
      assert order[..i + 1][..|order[..i + 1]| - 1] == order[..i];
      ReplayStops(doc, idx, order, i + 1);
    }
  }

  /** The other map's registers are written into this one, field by field. */
  method MergeData(a: map<string, Register<Json>>, b: map<string, Register<Json>>)
    returns (r: map<string, Register<Json>>)
    ensures r == JoinData(a, b)
  {
    r := a;
    var rest := b.Keys;
    while rest != {}
      invariant rest <= b.Keys
      invariant r.Keys == a.Keys + (b.Keys - rest)
      invariant forall k :: k in r ==> r[k] == if k in rest then a[k] else JoinData(a, b)[k]
      decreases rest
    {
      var k :| k in rest;
      if k !in r {
        r := r[k := Fresh(Null)];
      }
      r := r[k := Registers.Join(r[k], b[k])];
      rest := rest - {k};
    }
  }

  function DotIfAdds(d: Delta, id: string): Option<Dot> {
    if AddsService(d, id) then Some(d.stamp) else None
  }

  lemma CollectedAreObserved(s: History, parents: seq<Hash>, id: string, out: seq<Dot>)
    requires forall t :: t in out <==> Yields(s, Past(s, Elements(parents)), e => DotIfAdds(e, id), t)
    ensures forall dot :: dot in out <==> dot in ObservedDots(s, parents, id)
  {
    hide Past, Elements;
  }

  lemma FirstKeyUnique(keys: set<KeyEntry>, id: string, key: PublicKey)
    requires IsFirstKey(keys, id, key)
    ensures forall k :: IsFirstKey(keys, id, k) <==> k == key
  {
  }

  /** The first entry with the id, in sorted order: the one with the least key. */
  method LookUp(keys: set<KeyEntry>, id: string) returns (r: Option<PublicKey>)
    ensures r.Some? ==> IsFirstKey(keys, id, r.value)
    ensures r.None? ==> !ContainsId(keys, id) && forall k :: !IsFirstKey(keys, id, k)
  {
    var rest := keys;
    r := None;
    while rest != {}
      invariant rest <= keys
      invariant r.Some? ==> IsFirstKey(keys - rest, id, r.value)
      invariant r.None? ==> !ContainsId(keys - rest, id)
      decreases rest
    {
      var e :| e in rest;
      if e.id == id && (r.None? || e.key < r.value) {
        r := Some(e.key);
      }
      rest := rest - {e};
    }
    assert keys - rest == keys;
  }

  method BuildIndex(ds: seq<Delta>) returns (idx: History)
    ensures idx == IndexOf(ds)
  {
    idx := map[];
    for i := 0 to |ds|
      invariant idx == IndexOf(ds[..i])
    {
      assert ds[..i + 1][..|ds[..i + 1]| - 1] == ds[..i];
      idx := idx[ds[i].hash := ds[i]];
    }
    assert ds[..|ds|] == ds;
  }

  method FindDangling(ds: seq<Delta>, idx: History, dag: DeltaDag) returns (dangling: bool)
    requires idx == IndexOf(ds)
    ensures dangling <==> Dangles(dag.byHash, ds)
  {
    for i := 0 to |ds|
      invariant forall d, p :: d in ds[..i] && p in d.parents ==> p in idx || p in dag.byHash
    {
      assert ds[..i + 1] == ds[..i] + [ds[i]];
      var parents := ds[i].parents;
      for j := 0 to |parents|
        invariant forall p :: p in parents[..j] ==> p in idx || p in dag.byHash
      {
        if parents[j] !in idx && parents[j] !in dag.byHash {
          assert ds[i] in ds && parents[j] in ds[i].parents;
          return true;
        }
        assert parents[..j + 1] == parents[..j] + [parents[j]];
      }
      assert parents[..|parents|] == parents;
    }
    assert ds[..|ds|] == ds;
    dangling := false;
  }
}
