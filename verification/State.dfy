/** The product of CRDTs, how one delta changes it, and its closed form over a history. */
module State {
  import opened Deltas
  import opened Histories
  import opened Dag
  import opened Registers
  import opened Orswots
  import opened VersionVectors

  datatype Crdt = Crdt(
    keys: set<KeyEntry>,
    services: Orswot,
    data: map<string, Register<Json>>,
    aliases: Register<set<string>>,
    active: Register<Option<KeyRef>>,
    credentials: set<string>,
    revokedKeys: set<string>,
    deactivated: bool,
    created: Option<nat>,
    updated: Option<nat>)

  /** The state before the creation operation. */
  const BLANK := Crdt({}, EMPTY, map[], Fresh({}), Fresh(None), {}, {}, false, Some(0), Some(0))

  /** (seq, key hash), ordered as the pair is. */
  function RotationMarker(rotation: nat, digest: nat): Stamp {
    Stamp(rotation, digest, 0)
  }

  function SetData(data: map<string, Register<Json>>, field: string, w: Write<Json>): map<string, Register<Json>> {
    data[field := Update(if field in data then data[field] else Fresh(Null), w)]
  }

  function Touch(updated: Option<nat>, wall: nat): Option<nat> {
    if updated.Some? && wall <= updated.value then updated else Some(wall)
  }

  /** The dots of the adds of `id` in the past of `parents`: what a remove observes. */
  ghost function ObservedDots(s: History, parents: seq<Hash>, id: string): set<Dot> {
    set h | h in Past(s, Elements(parents)) && h in s && AddsService(s[h], id) :: s[h].stamp
  }

  predicate AddsService(d: Delta, id: string) {
    d.op.AddServiceEndpoint? && d.op.service.id == id
  }

  ghost function ApplyServices(o: Orswot, d: Delta, s: History): Orswot {
    match d.op
    case AddServiceEndpoint(entry) => Add(o, entry, d.stamp)
    case RemoveServiceEndpoint(id) => Remove(o, ListOf(ObservedDots(s, d.parents, id)), d.stamp)
    case _ => o
  }

  /** What `d` does to every field but the service endpoints. */
  function ApplyPlain(c: Crdt, d: Delta): Crdt {
    var c := c.(updated := Touch(c.updated, d.stamp.wall));
    match d.op
    case AddVerificationMethod(entry) => c.(keys := c.keys + {entry})
    case SetAlsoKnownAs(uris, _) => c.(aliases := Update(c.aliases, (d.stamp, uris)))
    case SetDocumentData(field, value) => c.(data := SetData(c.data, field, (d.stamp, value)))
    case RotateKey(rotation, ref) => c.(active := Update(c.active, (RotationMarker(rotation, ref.digest), Some(ref))))
    case RevokeCredential(id) => c.(credentials := c.credentials + {id})
    case RevokeVerificationMethod(id) => c.(revokedKeys := c.revokedKeys + {id})
    case Deactivate => c.(deactivated := true)
    case _ => c
  }

  /** One delta applied to a replica holding `s`. */
  ghost function Apply(c: Crdt, d: Delta, s: History): Crdt {
    ApplyPlain(c, d).(services := ApplyServices(c.services, d, s))
  }

  function JoinData(a: map<string, Register<Json>>, b: map<string, Register<Json>>): map<string, Register<Json>> {
    map k | k in a.Keys + b.Keys ::
      if k in b then Registers.Join(if k in a then a[k] else Fresh(Null), b[k]) else a[k]
  }

  function Earliest(a: Option<nat>, b: Option<nat>): Option<nat> {
    if b.None? || (a.Some? && a.value <= b.value) then a else b
  }

  function Latest(a: Option<nat>, b: Option<nat>): Option<nat> {
    if b.None? || (a.Some? && b.value <= a.value) then a else b
  }

  function JoinState(a: Crdt, b: Crdt): Crdt {
    Crdt(a.keys + b.keys, Orswots.Join(a.services, b.services), JoinData(a.data, b.data),
         Registers.Join(a.aliases, b.aliases), Registers.Join(a.active, b.active),
         a.credentials + b.credentials, a.revokedKeys + b.revokedKeys, a.deactivated || b.deactivated,
         Earliest(a.created, b.created), Latest(a.updated, b.updated))
  }

  // ── the closed form ─────────────────────────────────────────────────────────

  /** What `f` extracts from the deltas of a history. */
  ghost function Image<T>(s: History, f: Delta -> Option<T>): set<T> {
    set h | h in s && f(s[h]).Some? :: f(s[h]).value
  }

  lemma ImageInsert<T>(s: History, d: Delta, f: Delta -> Option<T>)
    requires d.hash !in s
    ensures f(d).Some? ==> Image(s[d.hash := d], f) == Image(s, f) + {f(d).value}
    ensures f(d).None? ==> Image(s[d.hash := d], f) == Image(s, f)
  {
    var t := s[d.hash := d];
    forall x | x in Image(s, f) ensures x in Image(t, f) {
      var h :| h in s && f(s[h]).Some? && f(s[h]).value == x;
      assert h in t && t[h] == s[h];
    }
    assert f(t[d.hash]).Some? ==> f(d).value in Image(t, f);
  }

  lemma ImageUnion<T>(s: History, t: History, f: Delta -> Option<T>)
    requires Agree(s, t)
    ensures Image(s + t, f) == Image(s, f) + Image(t, f)
  {
    var u := s + t;
    forall x | x in Image(s, f) + Image(t, f) ensures x in Image(u, f) {
      if x in Image(s, f) {
        var h :| h in s && f(s[h]).Some? && f(s[h]).value == x;
        assert h in u && u[h] == s[h];
      } else {
        var h :| h in t && f(t[h]).Some? && f(t[h]).value == x;
        assert h in u && u[h] == t[h];
      }
    }
  }

  function KeyOf(d: Delta): Option<KeyEntry> {
    if d.op.AddVerificationMethod? then Some(d.op.entry) else None
  }

  function CredentialOf(d: Delta): Option<string> {
    if d.op.RevokeCredential? then Some(d.op.credential) else None
  }

  function RevokedKeyOf(d: Delta): Option<string> {
    if d.op.RevokeVerificationMethod? then Some(d.op.keyId) else None
  }

  function DeactivationOf(d: Delta): Option<bool> {
    if d.op.Deactivate? then Some(true) else None
  }

  function WallOf(d: Delta): Option<nat> {
    Some(d.stamp.wall)
  }

  function AliasesOf(d: Delta): Option<Write<set<string>>> {
    if d.op.SetAlsoKnownAs? then Some((d.stamp, d.op.uris)) else None
  }

  function RotationOf(d: Delta): Option<Write<Option<KeyRef>>> {
    if d.op.RotateKey? then Some((RotationMarker(d.op.rotation, d.op.keyRef.digest), Some(d.op.keyRef))) else None
  }

  function DataOf(d: Delta): Option<(string, Write<Json>)> {
    if d.op.SetDocumentData? then Some((d.op.field, (d.stamp, d.op.value))) else None
  }

  function ServiceDotOf(d: Delta): Option<Dot> {
    if IsService(d) then Some(d.stamp) else None
  }

  /** The writes to one field. */
  ghost function WritesTo(writes: set<(string, Write<Json>)>, field: string): set<Write<Json>> {
    set w | w in writes && w.0 == field :: w.1
  }

  /** Exactly the written fields are present, each holding a latest write. */
  ghost predicate DataReflects(data: map<string, Register<Json>>, writes: set<(string, Write<Json>)>) {
    && (forall k :: k in data <==> WritesTo(writes, k) != {})
    && (forall k :: k in data ==> Settles(data[k], Null, WritesTo(writes, k)))
  }

  ghost predicate IsGreatest(v: Option<nat>, walls: set<nat>) {
    v.Some? && v.value in walls && forall w :: w in walls ==> w <= v.value
  }

  /** Every field except the service endpoints is what the held deltas say. */
  ghost predicate PlainReflects(c: Crdt, s: History) {
    && c.keys == Image(s, KeyOf)
    && c.credentials == Image(s, CredentialOf)
    && c.revokedKeys == Image(s, RevokedKeyOf)
    && (c.deactivated <==> Image(s, DeactivationOf) != {})
    && DataReflects(c.data, Image(s, DataOf))
    && Settles(c.aliases, {}, Image(s, AliasesOf))
    && Settles(c.active, None, Image(s, RotationOf))
    && c.created == Some(0)
    && IsGreatest(c.updated, Image(s, WallOf))
  }

  /** Remove `r` names the service of add `h` and has `h` in its past. */
  ghost predicate Cancels(s: History, r: Hash, h: Hash)
    requires r in s && h in s
  {
    && s[r].op.RemoveServiceEndpoint?
    && AddsService(s[h], s[r].op.serviceId)
    && h in Past(s, Elements(s[r].parents))
  }

  ghost predicate Cancelled(s: History, h: Hash)
    requires h in s
  {
    exists r :: r in s && Cancels(s, r, h)
  }

  /** Add wins: an add is live unless a held remove of its id has it in its past. */
  ghost predicate LiveAdd(s: History, h: Hash) {
    && h in s
    && s[h].op.AddServiceEndpoint?
    && !Cancelled(s, h)
  }

  ghost predicate LiveReflects(live: map<Dot, ServiceEntry>, s: History) {
    && (forall h :: LiveAdd(s, h) ==> s[h].stamp in live && live[s[h].stamp] == s[h].op.service)
    && (forall dot :: dot in live ==> exists h :: LiveAdd(s, h) && s[h].stamp == dot)
  }

  ghost predicate ServicesReflect(o: Orswot, s: History) {
    LiveReflects(o.live, s) && VersionVectors.Tops(o.context, Image(s, ServiceDotOf))
  }

  ghost predicate Reflects(c: Crdt, s: History) {
    PlainReflects(c, s) && ServicesReflect(c.services, s)
  }

  /** Two deltas whose stamps decide between them: both adds, or both writes to one register. */
  predicate Contend(c: Delta, d: Delta) {
    || (c.op.AddServiceEndpoint? && d.op.AddServiceEndpoint?)
    || (c.op.SetDocumentData? && d.op.SetDocumentData? && c.op.field == d.op.field)
    || (c.op.SetAlsoKnownAs? && d.op.SetAlsoKnownAs?)
  }

  /** A stamp identifies its delta, among those that contend. */
  ghost predicate DistinctStamps(s: History) {
    forall g, h :: g in s && h in s && Contend(s[g], s[h]) && s[g].stamp == s[h].stamp ==> g == h
  }

  /** A digest identifies its key reference. */
  ghost predicate DistinctDigests(s: History) {
    forall g, h ::
      (g in s && h in s && s[g].op.RotateKey? && s[h].op.RotateKey? && s[g].op.keyRef.digest == s[h].op.keyRef.digest)
      ==> s[g].op.keyRef == s[h].op.keyRef
  }

  ghost predicate Unambiguous(s: History) {
    DistinctStamps(s) && DistinctDigests(s)
  }

  // ── one delta keeps the closed form ─────────────────────────────────────────

  lemma WritesToInsert(writes: set<(string, Write<Json>)>, field: string, w: Write<Json>, k: string)
    ensures WritesTo(writes + {(field, w)}, k) == if k == field then WritesTo(writes, k) + {w} else WritesTo(writes, k)
  {
    var more := writes + {(field, w)};
    assert (field, w) in more;
    assert forall v :: v in WritesTo(writes, k) ==> (k, v) in writes && (k, v) in more;
  }

  lemma WritesToUnion(a: set<(string, Write<Json>)>, b: set<(string, Write<Json>)>, k: string)
    ensures WritesTo(a + b, k) == WritesTo(a, k) + WritesTo(b, k)
  {
    assert forall v :: v in WritesTo(a, k) ==> (k, v) in a && (k, v) in a + b;
    assert forall v :: v in WritesTo(b, k) ==> (k, v) in b && (k, v) in a + b;
  }

  lemma DataStep(data: map<string, Register<Json>>, writes: set<(string, Write<Json>)>, field: string, w: Write<Json>)
    requires DataReflects(data, writes)
    ensures DataReflects(SetData(data, field, w), writes + {(field, w)})
  {
    hide Settles, WritesTo;
    var after := SetData(data, field, w);
    forall k
      ensures k in after <==> WritesTo(writes + {(field, w)}, k) != {}
      ensures k in after ==> Settles(after[k], Null, WritesTo(writes + {(field, w)}, k))
    {
      WritesToInsert(writes, field, w, k);
      if k == field {
        assert w in WritesTo(writes + {(field, w)}, k);
        UnwrittenSettles();
        SettlesUpdate(if k in data then data[k] else Fresh(Null), Null, WritesTo(writes, k), w);
      }
    }
  }

  lemma UnwrittenSettles()
    ensures Settles(Fresh(Null), Null, {})
  {
  }

  lemma PlainStep(c: Crdt, d: Delta, s: History)
    requires PlainReflects(c, s) && d.hash !in s
    ensures PlainReflects(ApplyPlain(c, d), s[d.hash := d])
  {
    hide Settles, Image, DataReflects;
    ImageInsert(s, d, KeyOf);
    ImageInsert(s, d, CredentialOf);
    ImageInsert(s, d, RevokedKeyOf);
    ImageInsert(s, d, DeactivationOf);
    ImageInsert(s, d, WallOf);
    ImageInsert(s, d, AliasesOf);
    ImageInsert(s, d, RotationOf);
    ImageInsert(s, d, DataOf);
    if d.op.SetDocumentData? {
      DataStep(c.data, Image(s, DataOf), d.op.field, (d.stamp, d.op.value));
    }
    if d.op.SetAlsoKnownAs? {
      SettlesUpdate(c.aliases, {}, Image(s, AliasesOf), AliasesOf(d).value);
    }
    if d.op.RotateKey? {
      SettlesUpdate(c.active, None, Image(s, RotationOf), RotationOf(d).value);
    }
  }

  /** Inserting `d` leaves every held delta's past as it was. */
  lemma InsertKeepsPasts(s: History, d: Delta, h: Hash)
    requires AncestorClosed(s) && d.hash !in s && h in s
    ensures Past(s[d.hash := d], Elements(s[h].parents)) == Past(s, Elements(s[h].parents))
    ensures Past(s, Elements(s[h].parents)) <= s.Keys
  {
    hide Past;
    HeldPastIsComplete(s, Elements(s[h].parents));
    PastGrows(s, s[d.hash := d], Elements(s[h].parents));
  }

  /** How one insertion changes which adds are live. */
  lemma LiveInsert(s: History, d: Delta, h: Hash)
    requires AncestorClosed(s) && d.hash !in s && Elements(d.parents) <= s.Keys
    ensures h != d.hash ==>
              (LiveAdd(s[d.hash := d], h) <==>
               LiveAdd(s, h) && !(d.op.RemoveServiceEndpoint? && AddsService(s[h], d.op.serviceId)
                 && h in Past(s, Elements(d.parents))))
    ensures LiveAdd(s[d.hash := d], d.hash) <==> d.op.AddServiceEndpoint?
  {
    hide Past, Elements;
    var t := s[d.hash := d];
    HeldPastIsComplete(s, Elements(d.parents));
    PastGrows(s, t, Elements(d.parents));
    forall r | r in s
      ensures h in s ==> (Cancels(t, r, h) <==> Cancels(s, r, h))
      ensures !Cancels(t, r, d.hash)
    {
      InsertKeepsPasts(s, d, r);
    }
    assert !Cancels(t, d.hash, d.hash);
    if h in s {
      if Cancelled(s, h) {
        var r :| r in s && Cancels(s, r, h);
        assert r in t && Cancels(t, r, h);
      }
      assert Cancels(t, d.hash, h) <==>
             d.op.RemoveServiceEndpoint? && AddsService(s[h], d.op.serviceId) && h in Past(s, Elements(d.parents));
    }
  }

  lemma LiveAddStep(live: map<Dot, ServiceEntry>, s: History, d: Delta)
    requires LiveReflects(live, s) && AncestorClosed(s) && d.hash !in s && Elements(d.parents) <= s.Keys
    requires d.op.AddServiceEndpoint? && DistinctStamps(s[d.hash := d])
    ensures LiveReflects(live[d.stamp := d.op.service], s[d.hash := d])
  {
    hide Elements, AncestorClosed, Cancelled;
    var t, after := s[d.hash := d], live[d.stamp := d.op.service];
    LiveInsert(s, d, d.hash);
    forall h: Hash | LiveAdd(t, h) ensures t[h].stamp in after && after[t[h].stamp] == t[h].op.service {
      LiveInsert(s, d, h);
      if h != d.hash {
        assert t[h].stamp != d.stamp;
      }
    }
    forall dot | dot in after ensures exists h: Hash :: LiveAdd(t, h) && t[h].stamp == dot {
      if dot == d.stamp {
        assert LiveAdd(t, d.hash) && t[d.hash].stamp == dot;
      } else {
        var h: Hash :| LiveAdd(s, h) && s[h].stamp == dot;
        LiveInsert(s, d, h);
        assert LiveAdd(t, h) && t[h].stamp == dot;
      }
    }
  }

  lemma LiveRemoveStep(live: map<Dot, ServiceEntry>, s: History, d: Delta)
    requires LiveReflects(live, s) && AncestorClosed(s) && d.hash !in s && Elements(d.parents) <= s.Keys
    requires d.op.RemoveServiceEndpoint? && DistinctStamps(s)
    ensures LiveReflects(live - ObservedDots(s, d.parents, d.op.serviceId), s[d.hash := d])
  {
    hide Elements, AncestorClosed, Cancelled, Past;
    var t, gone := s[d.hash := d], ObservedDots(s, d.parents, d.op.serviceId);
    var after := live - gone;
    LiveInsert(s, d, d.hash);
    forall h: Hash | LiveAdd(t, h) ensures t[h].stamp in after && after[t[h].stamp] == t[h].op.service {
      LiveInsert(s, d, h);
      forall g | g in Past(s, Elements(d.parents)) && g in s && AddsService(s[g], d.op.serviceId)
        ensures s[g].stamp != s[h].stamp
      {
      }
    }
    forall dot | dot in after ensures exists h: Hash :: LiveAdd(t, h) && t[h].stamp == dot {
      var h: Hash :| LiveAdd(s, h) && s[h].stamp == dot;
      LiveInsert(s, d, h);
      assert LiveAdd(t, h) && t[h].stamp == dot;
    }
  }

  lemma LiveKept(live: map<Dot, ServiceEntry>, s: History, d: Delta)
    requires LiveReflects(live, s) && AncestorClosed(s) && d.hash !in s && Elements(d.parents) <= s.Keys
    requires !IsService(d)
    ensures LiveReflects(live, s[d.hash := d])
  {
    hide Elements, AncestorClosed, Cancelled, Past;
    var t := s[d.hash := d];
    LiveInsert(s, d, d.hash);
    forall h: Hash | LiveAdd(t, h) ensures t[h].stamp in live && live[t[h].stamp] == t[h].op.service {
      LiveInsert(s, d, h);
    }
    forall dot | dot in live ensures exists h: Hash :: LiveAdd(t, h) && t[h].stamp == dot {
      var h: Hash :| LiveAdd(s, h) && s[h].stamp == dot;
      LiveInsert(s, d, h);
      assert LiveAdd(t, h) && t[h].stamp == dot;
    }
  }

  lemma ObservedAreKnown(s: History, parents: seq<Hash>, id: string)
    ensures ObservedDots(s, parents, id) <= Image(s, ServiceDotOf)
  {
    hide Past, Elements;
    forall dot | dot in ObservedDots(s, parents, id) ensures dot in Image(s, ServiceDotOf) {
      var h :| h in Past(s, Elements(parents)) && h in s && AddsService(s[h], id) && s[h].stamp == dot;
      assert ServiceDotOf(s[h]) == Some(dot);
    }
  }

  lemma ContextStep(o: Orswot, s: History, d: Delta)
    requires VersionVectors.Tops(o.context, Image(s, ServiceDotOf)) && d.hash !in s
    ensures VersionVectors.Tops(ApplyServices(o, d, s).context, Image(s[d.hash := d], ServiceDotOf))
  {
    hide Image, ObservedDots, VersionVectors.Tops, Observe, ObserveAll;
    ImageInsert(s, d, ServiceDotOf);
    var dots := Image(s, ServiceDotOf);
    if IsService(d) {
      TopsObserve(o.context, dots, d.stamp);
      if d.op.RemoveServiceEndpoint? {
        ObservedAreKnown(s, d.parents, d.op.serviceId);
        TopsObserveAll(Observe(o.context, d.stamp), dots + {d.stamp}, ListOf(ObservedDots(s, d.parents,
          d.op.serviceId)));
      }
    }
  }

  /** Applying a grounded delta keeps the state equal to the closed form of the held deltas. */
  lemma ApplyKeepsClosedForm(c: Crdt, d: Delta, s: History)
    requires Reflects(c, s) && AncestorClosed(s)
    requires d.hash !in s && Elements(d.parents) <= s.Keys
    requires DistinctStamps(s[d.hash := d])
    ensures Reflects(Apply(c, d, s), s[d.hash := d])
  {
    hide PlainReflects, Image, LiveReflects, AncestorClosed, Elements, ObservedDots, VersionVectors.Tops;
    PlainStep(c, d, s);
    PlainIgnoresServices(ApplyPlain(c, d), Apply(c, d, s), s[d.hash := d]);
    ContextStep(c.services, s, d);
    if d.op.AddServiceEndpoint? {
      LiveAddStep(c.services.live, s, d);
    } else if d.op.RemoveServiceEndpoint? {
      StampsOfPart(s, d);
      LiveRemoveStep(c.services.live, s, d);
      var dots := ObservedDots(s, d.parents, d.op.serviceId);
      assert (set x | x in ListOf(dots)) == dots;
    } else {
      LiveKept(c.services.live, s, d);
    }
  }

  lemma StampsOfPart(s: History, d: Delta)
    requires DistinctStamps(s[d.hash := d]) && d.hash !in s
    ensures DistinctStamps(s)
  {
    var t := s[d.hash := d];
    assert forall h :: h in s ==> h in t && t[h] == s[h];
  }

  lemma PlainIgnoresServices(c: Crdt, e: Crdt, s: History)
    requires PlainReflects(c, s) && e == c.(services := e.services)
    ensures PlainReflects(e, s)
  {
    hide Settles, Image, DataReflects, IsGreatest;
  }
}
