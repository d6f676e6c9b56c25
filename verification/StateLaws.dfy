/** The closed form is unique, and joining two states is replaying the union exactly when no dot is skipped. */
module StateLaws {
  import opened Deltas
  import opened Histories
  import opened Dag
  import opened Registers
  import opened Orswots
  import opened VersionVectors
  import opened State

  lemma AliasesAgree(s: History)
    requires DistinctStamps(s)
    ensures TopAgrees(Image(s, AliasesOf))
  {
    var writes := Image(s, AliasesOf);
    forall v, w | v in writes && w in writes && Registers.Tops(writes, v) && Registers.Tops(writes, w)
      ensures v.1 == w.1
    {
      var g :| g in s && AliasesOf(s[g]).Some? && AliasesOf(s[g]).value == v;
      var h :| h in s && AliasesOf(s[h]).Some? && AliasesOf(s[h]).value == w;
      assert !Before(v.0, w.0) && !Before(w.0, v.0);
    }
  }

  lemma RotationsAgree(s: History)
    requires DistinctDigests(s)
    ensures TopAgrees(Image(s, RotationOf))
  {
    var writes := Image(s, RotationOf);
    forall v, w | v in writes && w in writes && Registers.Tops(writes, v) && Registers.Tops(writes, w)
      ensures v.1 == w.1
    {
      var g :| g in s && RotationOf(s[g]).Some? && RotationOf(s[g]).value == v;
      var h :| h in s && RotationOf(s[h]).Some? && RotationOf(s[h]).value == w;
      assert !Before(v.0, w.0) && !Before(w.0, v.0);
    }
  }

  lemma FieldAgrees(s: History, k: string)
    requires DistinctStamps(s)
    ensures TopAgrees(WritesTo(Image(s, DataOf), k))
  {
    var writes := WritesTo(Image(s, DataOf), k);
    forall v, w | v in writes && w in writes && Registers.Tops(writes, v) && Registers.Tops(writes, w)
      ensures v.1 == w.1
    {
      assert (k, v) in Image(s, DataOf) && (k, w) in Image(s, DataOf);
      var g :| g in s && DataOf(s[g]).Some? && DataOf(s[g]).value == (k, v);
      var h :| h in s && DataOf(s[h]).Some? && DataOf(s[h]).value == (k, w);
      assert !Before(v.0, w.0) && !Before(w.0, v.0);
    }
  }

  lemma DataUnique(a: map<string, Register<Json>>, b: map<string, Register<Json>>, s: History)
    requires DistinctStamps(s) && DataReflects(a, Image(s, DataOf)) && DataReflects(b, Image(s, DataOf))
    ensures a == b
  {
    hide Settles, WritesTo, Image, TopAgrees;
    assert forall k :: k in a <==> k in b;
    forall k | k in a ensures a[k] == b[k] {
      FieldAgrees(s, k);
      SettlesUnique(a[k], b[k], Null, WritesTo(Image(s, DataOf), k));
    }
  }

  lemma LiveUnique(a: map<Dot, ServiceEntry>, b: map<Dot, ServiceEntry>, s: History)
    requires LiveReflects(a, s) && LiveReflects(b, s)
    ensures a == b
  {
    hide Cancelled;
    assert a.Keys == b.Keys;
  }

  // ── the closed form, said of the operations held ────────────────────────────

  /** The grow-only fields hold exactly what some held operation put in them. */
  lemma FactsMean(c: Crdt, s: History)
    requires PlainReflects(c, s)
    ensures forall e :: e in c.keys <==> exists h :: h in s && s[h].op.AddVerificationMethod? && s[h].op.entry == e
    ensures forall id :: id in c.credentials <==>
              exists h :: h in s && s[h].op.RevokeCredential? && s[h].op.credential == id
    ensures forall id :: id in c.revokedKeys <==>
              exists h :: h in s && s[h].op.RevokeVerificationMethod? && s[h].op.keyId == id
    ensures c.deactivated <==> exists h :: h in s && s[h].op.Deactivate?
    ensures c.updated.Some? && forall h :: h in s ==> s[h].stamp.wall <= c.updated.value
    ensures exists h :: h in s && s[h].stamp.wall == c.updated.value
  {
    hide Settles, DataReflects;
    forall h | h in s
      ensures s[h].op.AddVerificationMethod? ==> s[h].op.entry in Image(s, KeyOf)
      ensures s[h].op.RevokeCredential? ==> s[h].op.credential in Image(s, CredentialOf)
      ensures s[h].op.RevokeVerificationMethod? ==> s[h].op.keyId in Image(s, RevokedKeyOf)
      ensures s[h].op.Deactivate? ==> true in Image(s, DeactivationOf)
      ensures s[h].stamp.wall in Image(s, WallOf)
    {
      assert WallOf(s[h]).Some? && WallOf(s[h]).value == s[h].stamp.wall;
      assert KeyOf(s[h]).Some? <==> s[h].op.AddVerificationMethod?;
      assert CredentialOf(s[h]).Some? <==> s[h].op.RevokeCredential?;
      assert RevokedKeyOf(s[h]).Some? <==> s[h].op.RevokeVerificationMethod?;
      assert DeactivationOf(s[h]).Some? <==> s[h].op.Deactivate?;
    }
    if c.deactivated {
      var b :| b in Image(s, DeactivationOf);
    }
  }

  /** `s` holds a rotation to `ref` that no held rotation outranks: greatest sequence first, then greatest digest. */
  ghost predicate HighestRotation(s: History, ref: KeyRef) {
    exists h ::
      && h in s && s[h].op.RotateKey? && s[h].op.keyRef == ref
      && (forall k :: k in s && s[k].op.RotateKey? ==>
            s[k].op.rotation < s[h].op.rotation
            || (s[k].op.rotation == s[h].op.rotation && s[k].op.keyRef.digest <= ref.digest))
  }

  /** The highest rotation is active; a rotation of sequence and digest zero never is. */
  lemma HighestRotationIsActive(c: Crdt, s: History)
    requires PlainReflects(c, s)
    ensures c.active.val.Some? ==> HighestRotation(s, c.active.val.value)
    ensures c.active.val.Some? <==>
              exists h :: h in s && s[h].op.RotateKey? && (s[h].op.rotation > 0 || s[h].op.keyRef.digest > 0)
  {
    hide DataReflects, IsGreatest;
    var writes := Image(s, RotationOf);
    forall k | k in s && s[k].op.RotateKey?
      ensures (Stamp(s[k].op.rotation, s[k].op.keyRef.digest, 0), Some(s[k].op.keyRef)) in writes
    {
      assert RotationOf(s[k]).Some? && RotationOf(s[k]).value in writes;
    }
    if c.active != Fresh(None) {
      var h :| h in s && RotationOf(s[h]).Some? && RotationOf(s[h]).value == (c.active.marker, c.active.val);
      assert s[h].op.RotateKey? && s[h].op.keyRef == c.active.val.value;
    }
  }

  ghost predicate WritesField(s: History, field: string, h: Hash) {
    h in s && s[h].op.SetDocumentData? && s[h].op.field == field
  }

  /** Among the held writes to `field`, `h` is a latest one. */
  ghost predicate LatestWrite(s: History, field: string, h: Hash) {
    WritesField(s, field, h) && forall k :: WritesField(s, field, k) ==> !Before(s[h].stamp, s[k].stamp)
  }

  lemma WriteIsListed(s: History, field: string, h: Hash)
    requires WritesField(s, field, h)
    ensures (s[h].stamp, s[h].op.value) in WritesTo(Image(s, DataOf), field)
  {
    assert DataOf(s[h]).Some? && DataOf(s[h]).value in Image(s, DataOf);
  }

  lemma ListedIsWrite(s: History, field: string, w: Write<Json>) returns (h: Hash)
    requires w in WritesTo(Image(s, DataOf), field)
    ensures WritesField(s, field, h) && s[h].stamp == w.0 && s[h].op.value == w.1
  {
    assert (field, w) in Image(s, DataOf);
    h :| h in s && DataOf(s[h]).Some? && DataOf(s[h]).value == (field, w);
  }

  /** Each data field is there iff written, and shows a latest write above the zero stamp, or null if there is none. */
  lemma LatestDataShows(c: Crdt, s: History, field: string)
    requires PlainReflects(c, s)
    ensures field in c.data <==> exists h: Hash :: WritesField(s, field, h)
    ensures field in c.data ==>
              || (&& c.data[field] == Fresh(Null)
                  && forall h: Hash :: WritesField(s, field, h) ==> s[h].stamp == ZERO_STAMP)
              || (exists h: Hash :: && LatestWrite(s, field, h)
                                    && s[h].op.value == c.data[field].val && s[h].stamp != ZERO_STAMP)
  {
    hide IsGreatest, WritesTo, Image, WritesField;
    var writes := WritesTo(Image(s, DataOf), field);
    forall h: Hash | WritesField(s, field, h)
      ensures h in s && s[h].op.SetDocumentData? && (s[h].stamp, s[h].op.value) in writes
    {
      WritesAre(s, field, h);
      WriteIsListed(s, field, h);
    }
    if field in c.data {
      var w :| w in writes;
      var g := ListedIsWrite(s, field, w);
      var q := c.data[field];
      if q != Fresh(Null) {
        var h: Hash := ListedIsWrite(s, field, (q.marker, q.val));
        assert LatestWrite(s, field, h);
      }
    }
  }

  lemma WritesAre(s: History, field: string, h: Hash)
    requires WritesField(s, field, h)
    ensures h in s && s[h].op.SetDocumentData? && s[h].op.field == field
  {
  }

  /** The aliases are those of a latest alias write above the zero stamp, or empty if there is none. */
  lemma LatestAliasesShow(c: Crdt, s: History)
    requires PlainReflects(c, s)
    ensures || (c.aliases == Fresh({}) && forall h :: h in s && s[h].op.SetAlsoKnownAs? ==> s[h].stamp == ZERO_STAMP)
            || (exists h :: && h in s && s[h].op.SetAlsoKnownAs?
                            && s[h].op.uris == c.aliases.val && s[h].stamp != ZERO_STAMP
                            && forall k :: k in s && s[k].op.SetAlsoKnownAs? ==> !Before(s[h].stamp, s[k].stamp))
  {
    hide DataReflects, IsGreatest;
    var writes := Image(s, AliasesOf);
    forall h | h in s && s[h].op.SetAlsoKnownAs? ensures (s[h].stamp, s[h].op.uris) in writes {
      assert AliasesOf(s[h]).Some? && AliasesOf(s[h]).value in writes;
    }
    if c.aliases != Fresh({}) {
      var h :| h in s && AliasesOf(s[h]).Some? && AliasesOf(s[h]).value == (c.aliases.marker, c.aliases.val);
      assert s[h].op.SetAlsoKnownAs?;
    }
  }

  /**
   * Of two known creation times the join keeps the earlier, of two update times the later; an unknown one gives way.
   */
  lemma JoinTimes(a: Option<nat>, b: Option<nat>)
    ensures Earliest(a, b).Some? <==> a.Some? || b.Some?
    ensures Latest(a, b).Some? <==> a.Some? || b.Some?
    ensures Earliest(a, b) in {a, b} && Latest(a, b) in {a, b}
    ensures forall t :: t in {a, b} && t.Some? ==> Earliest(a, b).value <= t.value <= Latest(a, b).value
  {
  }

  lemma PlainUnique(c: Crdt, e: Crdt, s: History)
    requires PlainReflects(c, s) && PlainReflects(e, s) && Unambiguous(s)
    ensures c == e.(services := c.services)
  {
    hide Settles, Image, TopAgrees, DataReflects;
    AliasesAgree(s);
    SettlesUnique(c.aliases, e.aliases, {}, Image(s, AliasesOf));
    RotationsAgree(s);
    SettlesUnique(c.active, e.active, None, Image(s, RotationOf));
    DataUnique(c.data, e.data, s);
  }

  /** The state is a function of the held deltas. */
  lemma ClosedFormUnique(c: Crdt, e: Crdt, s: History)
    requires Reflects(c, s) && Reflects(e, s) && Unambiguous(s)
    ensures c == e
  {
    hide PlainReflects, Image, LiveReflects, VersionVectors.Tops;
    PlainUnique(c, e, s);
    LiveUnique(c.services.live, e.services.live, s);
    TopsUnique(c.services.context, e.services.context, Image(s, ServiceDotOf));
  }

  lemma DataJoin(a: map<string, Register<Json>>, b: map<string, Register<Json>>,
                 x: set<(string, Write<Json>)>, y: set<(string, Write<Json>)>)
    requires DataReflects(a, x) && DataReflects(b, y)
    ensures DataReflects(JoinData(a, b), x + y)
  {
    hide Settles, WritesTo;
    var j := JoinData(a, b);
    forall k
      ensures k in j <==> WritesTo(x + y, k) != {}
      ensures k in j ==> Settles(j[k], Null, WritesTo(x + y, k))
    {
      WritesToUnion(x, y, k);
      UnwrittenSettles();
      if k in b {
        SettlesJoin(if k in a then a[k] else Fresh(Null), b[k], Null, WritesTo(x, k), WritesTo(y, k));
      } else {
        assert WritesTo(x, k) + {} == WritesTo(x, k);
      }
    }
  }

  lemma PlainJoin(a: Crdt, b: Crdt, s: History, t: History)
    requires PlainReflects(a, s) && PlainReflects(b, t) && Agree(s, t)
    ensures PlainReflects(JoinState(a, b), s + t)
  {
    hide Settles, Image, DataReflects, Orswots.Join, Registers.Join, JoinData;
    ImageUnion(s, t, KeyOf);
    ImageUnion(s, t, CredentialOf);
    ImageUnion(s, t, RevokedKeyOf);
    ImageUnion(s, t, DeactivationOf);
    ImageUnion(s, t, WallOf);
    ImageUnion(s, t, AliasesOf);
    ImageUnion(s, t, RotationOf);
    ImageUnion(s, t, DataOf);
    DataJoin(a.data, b.data, Image(s, DataOf), Image(t, DataOf));
    SettlesJoin(a.aliases, b.aliases, {}, Image(s, AliasesOf), Image(t, AliasesOf));
    SettlesJoin(a.active, b.active, None, Image(s, RotationOf), Image(t, RotationOf));
  }

  /** No live add of `s` that `t` lacks is at or before a service stamp its node has in `t`. */
  ghost predicate GapFree(s: History, t: History) {
    forall h, r ::
      LiveAdd(s, h) && h !in t && r in t && IsService(t[r]) && t[r].stamp.node == s[h].stamp.node
      ==> Before(t[r].stamp, s[h].stamp)
  }

  /** Each node's service deltas are causally chained in stamp order. */
  ghost predicate ServiceChain(u: History) {
    forall g, h ::
      (g in u && h in u && g != h && IsService(u[g]) && IsService(u[h])
       && u[g].stamp.node == u[h].stamp.node && !Before(u[h].stamp, u[g].stamp))
      ==> g in Past(u, Elements(u[h].parents))
  }

  lemma CancelledInUnion(s: History, t: History, h: Hash)
    requires AncestorClosed(s) && AncestorClosed(t) && Agree(s, t) && h in s + t
    ensures Cancelled(s + t, h) <==> (h in s && Cancelled(s, h)) || (h in t && Cancelled(t, h))
  {
    hide Past;
    var u := s + t;
    UnionIsClosed(s, t);
    forall r | r in s ensures h in s ==> (Cancels(u, r, h) <==> Cancels(s, r, h)) {
      PartKeepsPast(s, u, r);
    }
    forall r | r in s && Cancels(u, r, h) ensures h in s {
      PartKeepsPast(s, u, r);
    }
    forall r | r in t ensures h in t ==> (Cancels(u, r, h) <==> Cancels(t, r, h)) {
      PartKeepsPast(t, u, r);
    }
    forall r | r in t && Cancels(u, r, h) ensures h in t {
      PartKeepsPast(t, u, r);
    }
  }

  lemma PartKeepsPast(s: History, u: History, r: Hash)
    requires AncestorClosed(s) && Extends(s, u) && r in s
    ensures Past(u, Elements(s[r].parents)) == Past(s, Elements(s[r].parents)) <= s.Keys
  {
    hide Past;
    HeldPastIsComplete(s, Elements(s[r].parents));
    PastGrows(s, u, Elements(s[r].parents));
  }

  /** Two sides whose service states are the closed forms of `s` and `t`. */
  ghost predicate Sides(o: Orswot, p: Orswot, s: History, t: History) {
    && ServicesReflect(o, s) && ServicesReflect(p, t)
    && AncestorClosed(s) && AncestorClosed(t) && Agree(s, t)
    && DistinctStamps(s + t)
  }

  lemma SeenBySide(p: Orswot, t: History, dot: Dot)
    requires ServicesReflect(p, t)
    ensures Seen(p.context, dot) <==>
              exists r :: r in t && IsService(t[r]) && t[r].stamp.node == dot.node && !Before(t[r].stamp, dot)
  {
    hide LiveReflects;
    if Seen(p.context, dot) {
      var top := p.context[dot.node];
      assert top in Image(t, ServiceDotOf);
      var r :| r in t && ServiceDotOf(t[r]).Some? && ServiceDotOf(t[r]).value == top;
      assert r in t && IsService(t[r]) && t[r].stamp.node == dot.node && !Before(t[r].stamp, dot);
    }
    forall r | r in t && IsService(t[r]) && t[r].stamp.node == dot.node && !Before(t[r].stamp, dot)
      ensures Seen(p.context, dot)
    {
      assert ServiceDotOf(t[r]) == Some(t[r].stamp);
      assert Seen(p.context, t[r].stamp);
    }
  }

  /** On the side of `t`, a live add of `s` is live, removed or unknown according to `t` itself. */
  lemma OtherSide(o: Orswot, p: Orswot, s: History, t: History, h: Hash)
    requires Sides(o, p, s, t) && h in s && s[h].op.AddServiceEndpoint?
    ensures h in t ==> (s[h].stamp in p.live <==> !Cancelled(t, h)) && Seen(p.context, s[h].stamp)
    ensures h !in t ==> s[h].stamp !in p.live
    ensures s[h].stamp in p.live ==> p.live[s[h].stamp] == s[h].op.service
  {
    hide Cancelled, VersionVectors.Tops, AncestorClosed;
    var u := s + t;
    assert forall g :: g in s ==> g in u && u[g] == s[g];
    assert forall g :: g in t ==> g in u && u[g] == t[g];
    if s[h].stamp in p.live {
      var g :| LiveAdd(t, g) && t[g].stamp == s[h].stamp;
      assert g == h;
    }
    if h in t {
      assert t[h].stamp.node == s[h].stamp.node && !Before(t[h].stamp, s[h].stamp);
      SeenBySide(p, t, s[h].stamp);
    }
  }

  lemma SidesSwap(o: Orswot, p: Orswot, s: History, t: History)
    requires Sides(o, p, s, t)
    ensures Sides(p, o, t, s) && s + t == t + s
  {
    hide ServicesReflect, AncestorClosed;
    assert s + t == t + s;
  }

  /** A live add of one side survives the join exactly when the union keeps it and no dot was skipped. */
  lemma KeptIff(o: Orswot, p: Orswot, s: History, t: History, h: Hash)
    requires Sides(o, p, s, t) && LiveAdd(s, h)
    ensures Kept(o, p, s[h].stamp) <==>
              if h in t then !Cancelled(t, h)
              else !exists r :: r in t && IsService(t[r]) && t[r].stamp.node == s[h].stamp.node
                                && !Before(t[r].stamp, s[h].stamp)
  {
    hide Cancelled, VersionVectors.Tops, AncestorClosed, Seen;
    OtherSide(o, p, s, t, h);
    SeenBySide(p, t, s[h].stamp);
  }

  lemma LiveInUnion(s: History, t: History, h: Hash)
    requires AncestorClosed(s) && AncestorClosed(t) && Agree(s, t)
    ensures LiveAdd(s + t, h) ==> LiveAdd(s, h) || LiveAdd(t, h)
    ensures LiveAdd(s, h) ==> (LiveAdd(s + t, h) <==> h !in t || !Cancelled(t, h))
  {
    hide Cancelled, AncestorClosed;
    if h in s + t {
      CancelledInUnion(s, t, h);
    }
  }

  /** Half of the join: the surviving dots of one side are live in the union, with the right entry. */
  lemma SurvivorsAreLive(o: Orswot, p: Orswot, s: History, t: History, dot: Dot)
    requires Sides(o, p, s, t) && Kept(o, p, dot)
    ensures exists h: Hash :: LiveAdd(s + t, h) && (s + t)[h].stamp == dot && (s + t)[h].op.service == o.live[dot]
    ensures dot in p.live ==> p.live[dot] == o.live[dot]
  {
    hide Cancelled, VersionVectors.Tops, AncestorClosed, Seen;
    var h: Hash :| LiveAdd(s, h) && s[h].stamp == dot;
    KeptIff(o, p, s, t, h);
    LiveInUnion(s, t, h);
    OtherSide(o, p, s, t, h);
    assert LiveAdd(s + t, h) && (s + t)[h] == s[h];
  }

  lemma LiveSurvives(o: Orswot, p: Orswot, s: History, t: History, h: Hash)
    requires Sides(o, p, s, t) && GapFree(s, t) && LiveAdd(s + t, h) && LiveAdd(s, h)
    ensures Kept(o, p, s[h].stamp) && o.live[s[h].stamp] == s[h].op.service
  {
    hide Cancelled, VersionVectors.Tops, AncestorClosed;
    KeptIff(o, p, s, t, h);
    LiveInUnion(s, t, h);
  }

  lemma JoinLiveReflects(o: Orswot, p: Orswot, s: History, t: History)
    requires Sides(o, p, s, t) && GapFree(s, t) && GapFree(t, s)
    ensures LiveReflects(JoinLive(o, p), s + t)
  {
    hide Cancelled, Sides, GapFree, Kept;
    var u, live := s + t, JoinLive(o, p);
    SidesSwap(o, p, s, t);
    forall dot | dot in live ensures exists h: Hash :: LiveAdd(u, h) && u[h].stamp == dot {
      if Kept(o, p, dot) {
        SurvivorsAreLive(o, p, s, t, dot);
      } else {
        SurvivorsAreLive(p, o, t, s, dot);
      }
    }
    forall h: Hash | LiveAdd(u, h) ensures u[h].stamp in live && live[u[h].stamp] == u[h].op.service {
      JoinKeepsLive(o, p, s, t, h);
    }
  }

  lemma JoinKeepsLive(o: Orswot, p: Orswot, s: History, t: History, h: Hash)
    requires Sides(o, p, s, t) && GapFree(s, t) && GapFree(t, s) && LiveAdd(s + t, h)
    ensures (s + t)[h].stamp in JoinLive(o, p) && JoinLive(o, p)[(s + t)[h].stamp] == (s + t)[h].op.service
  {
    hide Cancelled, ServicesReflect, GapFree, AncestorClosed;
    LiveInUnion(s, t, h);
    SidesSwap(o, p, s, t);
    if LiveAdd(s, h) {
      LiveSurvives(o, p, s, t, h);
      OtherSide(o, p, s, t, h);
    }
    if LiveAdd(t, h) {
      LiveSurvives(p, o, t, s, h);
      OtherSide(p, o, t, s, h);
    }
  }

  lemma SkippedDotIsLost(o: Orswot, p: Orswot, s: History, t: History)
    requires Sides(o, p, s, t) && LiveReflects(JoinLive(o, p), s + t)
    ensures GapFree(s, t)
  {
    hide Cancelled, VersionVectors.Tops, AncestorClosed, Seen;
    forall h, r | LiveAdd(s, h) && h !in t && r in t && IsService(t[r]) && t[r].stamp.node == s[h].stamp.node
      ensures Before(t[r].stamp, s[h].stamp)
    {
      LiveInUnion(s, t, h);
      assert (s + t)[h] == s[h];
      OtherSide(o, p, s, t, h);
      KeptIff(o, p, s, t, h);
    }
  }

  /** The state join of the endpoints is the replay of the union exactly when neither side skips a dot. */
  lemma ServiceJoinIff(o: Orswot, p: Orswot, s: History, t: History)
    requires Sides(o, p, s, t)
    ensures ServicesReflect(Orswots.Join(o, p), s + t) <==> GapFree(s, t) && GapFree(t, s)
  {
    hide LiveReflects, VersionVectors.Tops, GapFree, JoinLive, JoinContext, Image, AncestorClosed, DistinctStamps;
    ImageUnion(s, t, ServiceDotOf);
    TopsJoin(o.context, p.context, Image(s, ServiceDotOf), Image(t, ServiceDotOf));
    SidesSwap(o, p, s, t);
    if GapFree(s, t) && GapFree(t, s) {
      JoinLiveReflects(o, p, s, t);
    }
    if LiveReflects(JoinLive(o, p), s + t) {
      SkippedDotIsLost(o, p, s, t);
      LiveJoinCommutes(o, p, s, t);
      SkippedDotIsLost(p, o, t, s);
    }
  }

  lemma LiveJoinCommutes(o: Orswot, p: Orswot, s: History, t: History)
    requires Sides(o, p, s, t)
    ensures JoinLive(o, p) == JoinLive(p, o)
  {
    hide Sides, Kept, Cancelled;
    var a, b := JoinLive(o, p), JoinLive(p, o);
    SidesSwap(o, p, s, t);
    assert a.Keys == b.Keys;
    forall dot | dot in a ensures a[dot] == b[dot] {
      if Kept(o, p, dot) {
        SurvivorsAreLive(o, p, s, t, dot);
      }
      if Kept(p, o, dot) {
        SurvivorsAreLive(p, o, t, s, dot);
      }
      KeptIsLive(o, p, dot);
    }
  }

  lemma KeptIsLive(o: Orswot, p: Orswot, dot: Dot)
    ensures Kept(o, p, dot) ==> dot in o.live
    ensures Kept(p, o, dot) ==> dot in p.live
  {
  }

  /** A node that chains its service deltas in stamp order never leaves a gap. */
  lemma ChainIsGapFree(s: History, t: History)
    requires AncestorClosed(s) && AncestorClosed(t) && Agree(s, t) && ServiceChain(s + t)
    ensures GapFree(s, t)
  {
    hide Past, Cancelled;
    var u := s + t;
    UnionIsClosed(s, t);
    forall h, r | LiveAdd(s, h) && h !in t && r in t && IsService(t[r]) && t[r].stamp.node == s[h].stamp.node
      ensures Before(t[r].stamp, s[h].stamp)
    {
      PartKeepsPast(t, u, r);
    }
  }

  lemma ChainOfPart(s: History, u: History)
    requires AncestorClosed(s) && Extends(s, u) && ServiceChain(u)
    ensures ServiceChain(s)
  {
    hide Past, Elements, AncestorClosed;
    forall k, h |
      (k in s && h in s && k != h && IsService(s[k]) && IsService(s[h])
       && s[k].stamp.node == s[h].stamp.node && !Before(s[h].stamp, s[k].stamp))
      ensures k in Past(s, Elements(s[h].parents))
    {
      PartKeepsPast(s, u, h);
    }
  }

  /** Joining two closed-form states gives the closed form of the union, exactly when neither side skips a dot. */
  lemma JoinIsReplayIff(a: Crdt, b: Crdt, s: History, t: History)
    requires Reflects(a, s) && Reflects(b, t)
    requires AncestorClosed(s) && AncestorClosed(t) && Agree(s, t) && DistinctStamps(s + t)
    ensures Reflects(JoinState(a, b), s + t) <==> GapFree(s, t) && GapFree(t, s)
  {
    hide PlainReflects, ServicesReflect, GapFree, AncestorClosed, DistinctStamps;
    PlainJoin(a, b, s, t);
    ServiceJoinIff(a.services, b.services, s, t);
  }

  // ── the state join is a semilattice, gaps or not ────────────────────────────

  ghost predicate HasAdd(s: History, dot: Dot, entry: ServiceEntry) {
    exists h :: h in s && s[h].op.AddServiceEndpoint? && s[h].stamp == dot && s[h].op.service == entry
  }

  /** Every live dot has been witnessed, and carries the entry of a held add. */
  ghost predicate EntriesFrom(o: Orswot, s: History) {
    Witnessed(o) && forall dot :: dot in o.live ==> HasAdd(s, dot, o.live[dot])
  }

  /** A state drawn from the deltas of `s`: all that deltas and joins ever lead to, skipped dots included. */
  ghost predicate DrawnFrom(c: Crdt, s: History) {
    PlainReflects(c, s) && EntriesFrom(c.services, s)
  }

  /** Closed-form states are drawn from their history. */
  lemma ReflectedIsDrawn(c: Crdt, s: History)
    requires Reflects(c, s)
    ensures DrawnFrom(c, s)
  {
    hide Cancelled, PlainReflects;
    var o := c.services;
    forall dot | dot in o.live ensures Seen(o.context, dot) && HasAdd(s, dot, o.live[dot]) {
      var h: Hash :| LiveAdd(s, h) && s[h].stamp == dot;
      assert ServiceDotOf(s[h]).Some? && ServiceDotOf(s[h]).value in Image(s, ServiceDotOf);
    }
  }

  lemma EntriesGrow(o: Orswot, s: History, t: History)
    requires EntriesFrom(o, s) && Extends(s, t)
    ensures EntriesFrom(o, t)
  {
    hide Witnessed;
    forall dot | dot in o.live ensures HasAdd(t, dot, o.live[dot]) {
      var h :| h in s && s[h].op.AddServiceEndpoint? && s[h].stamp == dot && s[h].op.service == o.live[dot];
      assert h in t && t[h] == s[h];
    }
  }

  /** Applying any delta keeps a state drawn. */
  lemma ApplyKeepsDrawn(c: Crdt, d: Delta, s: History)
    requires DrawnFrom(c, s) && d.hash !in s
    ensures DrawnFrom(Apply(c, d, s), s[d.hash := d])
  {
    hide PlainReflects, EntriesFrom, ApplyServices;
    PlainStep(c, d, s);
    PlainIgnoresServices(ApplyPlain(c, d), Apply(c, d, s), s[d.hash := d]);
    ServicesKeepDrawn(c.services, d, s);
  }

  lemma ServicesKeepDrawn(o: Orswot, d: Delta, s: History)
    requires EntriesFrom(o, s) && d.hash !in s
    ensures EntriesFrom(ApplyServices(o, d, s), s[d.hash := d])
  {
    hide Witnessed, ObservedDots, HasAdd, Observe, ObserveAll;
    var t := s[d.hash := d];
    EntriesGrow(o, s, t);
    match d.op
    case AddServiceEndpoint(entry) =>
      AddWitnessed(o, entry, d.stamp);
      OwnAdd(t, d);
    case RemoveServiceEndpoint(id) =>
      RemoveWitnessed(o, ListOf(ObservedDots(s, d.parents, id)), d.stamp);
    case _ =>
  }

  lemma OwnAdd(t: History, d: Delta)
    requires d.hash in t && t[d.hash] == d && d.op.AddServiceEndpoint?
    ensures HasAdd(t, d.stamp, d.op.service)
  {
  }

  /** When stamps identify deltas, a dot names one entry on both sides. */
  lemma DrawnAgree(o: Orswot, p: Orswot, s: History, t: History, u: History)
    requires EntriesFrom(o, s) && EntriesFrom(p, t)
    requires Extends(s, u) && Extends(t, u) && DistinctStamps(u)
    ensures AgreeOnDots(o, p)
  {
    hide Witnessed;
    forall dot | dot in o.live && dot in p.live ensures o.live[dot] == p.live[dot] {
      var g :| g in s && s[g].op.AddServiceEndpoint? && s[g].stamp == dot && s[g].op.service == o.live[dot];
      var h :| h in t && t[h].op.AddServiceEndpoint? && t[h].stamp == dot && t[h].op.service == p.live[dot];
      assert u[g] == s[g] && u[h] == t[h];
    }
  }

  /** Joining keeps a state drawn, from the union. */
  lemma JoinKeepsDrawn(a: Crdt, b: Crdt, s: History, t: History)
    requires DrawnFrom(a, s) && DrawnFrom(b, t) && Agree(s, t)
    ensures DrawnFrom(JoinState(a, b), s + t)
  {
    hide PlainReflects, Witnessed, Orswots.Join, HasAdd, JoinData, Registers.Join;
    PlainJoin(a, b, s, t);
    EntriesGrow(a.services, s, s + t);
    EntriesGrow(b.services, t, s + t);
    JoinWitnessed(a.services, b.services);
    var o := Orswots.Join(a.services, b.services);
    forall dot | dot in o.live ensures HasAdd(s + t, dot, o.live[dot]) {
      JoinSource(a.services, b.services, dot);
    }
  }

  lemma JoinStateCommutes(a: Crdt, b: Crdt, s: History, t: History)
    requires DrawnFrom(a, s) && DrawnFrom(b, t) && Agree(s, t) && Unambiguous(s + t)
    ensures JoinState(a, b) == JoinState(b, a)
  {
    hide PlainReflects, DistinctStamps, DistinctDigests, Orswots.Join, Witnessed, HasAdd, AgreeOnDots, JoinData,
         Registers.Join;
    assert s + t == t + s;
    PlainJoin(a, b, s, t);
    PlainJoin(b, a, t, s);
    PlainUnique(JoinState(a, b), JoinState(b, a), s + t);
    DrawnAgree(a.services, b.services, s, t, s + t);
    Orswots.JoinCommutesIff(a.services, b.services);
  }

  lemma JoinStateAssociates(a: Crdt, b: Crdt, c: Crdt, s: History, t: History, r: History, u: History)
    requires DrawnFrom(a, s) && DrawnFrom(b, t) && DrawnFrom(c, r)
    requires u == s + t + r && Extends(s, u) && Extends(t, u) && Unambiguous(u)
    ensures JoinState(JoinState(a, b), c) == JoinState(a, JoinState(b, c))
  {
    hide PlainReflects, DistinctStamps, DistinctDigests, Orswots.Join, Witnessed, HasAdd, AgreeOnDots, JoinData,
         Registers.Join;
    Regroup(s, t, r, u);
    PlainJoin(a, b, s, t);
    PlainJoin(JoinState(a, b), c, s + t, r);
    PlainJoin(b, c, t, r);
    PlainJoin(a, JoinState(b, c), s, t + r);
    PlainUnique(JoinState(JoinState(a, b), c), JoinState(a, JoinState(b, c)), u);
    DrawnAgree(a.services, b.services, s, t, u);
    DrawnAgree(a.services, c.services, s, r, u);
    DrawnAgree(b.services, c.services, t, r, u);
    Orswots.JoinAssociates(a.services, b.services, c.services);
  }

  lemma Regroup(s: History, t: History, r: History, u: History)
    requires u == s + t + r && Extends(s, u) && Extends(t, u)
    ensures Extends(r, u) && u == s + (t + r)
    ensures Agree(s, t) && Agree(t, r) && Agree(s + t, r) && Agree(s, t + r)
  {
    assert (s + (t + r)).Keys == u.Keys;
  }

  lemma JoinStateIdempotent(a: Crdt)
    ensures JoinState(a, a) == a
  {
    hide Orswots.Join;
    Orswots.JoinIdempotent(a.services);
    assert JoinData(a.data, a.data) == a.data;
  }
}
