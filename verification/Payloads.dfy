/** The payload of a delta: what its content hash covers. Copies that differ only in signer, proof or size share it. */
module Payloads {
  import opened Deltas
  import opened Histories
  import opened Dag
  import opened Causal
  import opened State
  import opened Documents
  import opened Keys

  /** `d` without the parts its hash leaves out. */
  function Payload(d: Delta): Delta {
    d.(signer := "", proof := Unsigned, size := 0)
  }

  function PayloadsOf(s: History): History {
    map h | h in s :: Payload(s[h])
  }

  /** Deltas with one hash have one payload, within `ds` and against what is held. */
  ghost predicate OnePayload(s: History, ds: seq<Delta>) {
    && (forall d :: d in ds && d.hash in s ==> Payload(s[d.hash]) == Payload(d))
    && (forall c, d :: c in ds && d in ds && c.hash == d.hash ==> Payload(c) == Payload(d))
  }

  lemma PayloadsExtend(s: History, t: History)
    requires Extends(s, t)
    ensures Extends(PayloadsOf(s), PayloadsOf(t))
  {
  }

  lemma PayloadsWith(s: History, d: Delta)
    ensures PayloadsOf(With(s, d)) == With(PayloadsOf(s), Payload(d))
  {
  }

  /** A past follows parents alone, so payloads have the same pasts. */
  lemma PastOfPayloads(s: History, from: set<Hash>)
    ensures Past(PayloadsOf(s), from) == Past(s, from)
  {
    hide Past;
    var p := PayloadsOf(s);
    PastIsClosed(s, from);
    PastIsClosed(p, from);
    forall h, x | h in Past(p, from) && h in s && x in s[h].parents ensures x in Past(p, from) {
      assert p[h].parents == s[h].parents;
    }
    PastIsLeast(s, from, Past(p, from));
    PastIsLeast(p, from, Past(s, from));
  }

  lemma CompleteOfPayloads(s: History, from: set<Hash>)
    ensures Complete(PayloadsOf(s), from) <==> Complete(s, from)
  {
    hide Past;
    PastOfPayloads(s, from);
    assert PayloadsOf(s).Keys == s.Keys;
  }

  lemma FactsOfPayloads(s: History, from: set<Hash>, signer: string)
    ensures KeyAdded(PayloadsOf(s), from, signer) <==> KeyAdded(s, from, signer)
    ensures KeyRevoked(PayloadsOf(s), from, signer) <==> KeyRevoked(s, from, signer)
    ensures DeactivatedIn(PayloadsOf(s), from) <==> DeactivatedIn(s, from)
  {
    hide Past;
    PastOfPayloads(s, from);
    var p := PayloadsOf(s);
    assert forall h :: h in s ==> h in p && p[h].op == s[h].op;
  }

  /** The verdict on a delta looks at payloads only. */
  lemma VerdictOfPayloads(d: Delta, s: History)
    ensures VerifyCausal(d, PayloadsOf(s)) == VerifyCausal(d, s)
  {
    hide Past, KeyAdded, KeyRevoked, DeactivatedIn, Complete, Sorted;
    var from := Elements(d.parents);
    FactsOfPayloads(s, from, d.signer);
    CompleteOfPayloads(s, from);
    PastOfPayloads(s, from);
    assert PayloadsOf(s).Keys == s.Keys;
    if s != map[] {
      var h :| h in s;
      assert h in PayloadsOf(s);
    }
  }

  /** What a function extracts is the same, if it does not look at signer, proof or size. */
  lemma ImageOfPayloads<T>(s: History, f: Delta -> Option<T>)
    requires forall d :: f(Payload(d)) == f(d)
    ensures Image(PayloadsOf(s), f) == Image(s, f)
  {
    var p := PayloadsOf(s);
    forall x | x in Image(s, f) ensures x in Image(p, f) {
      var h :| h in s && f(s[h]).Some? && f(s[h]).value == x;
      assert h in p && p[h] == Payload(s[h]);
    }
    forall x | x in Image(p, f) ensures x in Image(s, f) {
      var h :| h in p && f(p[h]).Some? && f(p[h]).value == x;
      assert h in s && p[h] == Payload(s[h]);
    }
  }

  lemma AdmissibleOfPayloads(did: Did, d: Delta, s: History, verified: bool)
    ensures Admissible(did, d, PayloadsOf(s), verified) <==> Admissible(did, d, s, verified)
  {
    hide VerifyCausal, SignatureOk, LocalOk, Image;
    VerdictOfPayloads(d, s);
    ImageOfPayloads(s, KeyOf);
  }

  lemma KeysOfPayloads(s: History, t: History)
    ensures KeysSettled(PayloadsOf(s), PayloadsOf(t)) <==> KeysSettled(s, t)
    ensures LowerKeysFirst(PayloadsOf(s)) <==> LowerKeysFirst(s)
  {
    hide Image, Past, NoLowerKey;
    ImageOfPayloads(s, KeyOf);
    ImageOfPayloads(t, KeyOf);
    var p := PayloadsOf(s);
    forall g, h | g in s && h in s
      ensures KeyBelow(p[g], p[h]) <==> KeyBelow(s[g], s[h])
      ensures g in Past(p, Elements(p[h].parents)) <==> g in Past(s, Elements(s[h].parents))
    {
      PastOfPayloads(s, Elements(s[h].parents));
    }
  }

  lemma StateOfPayloads(c: Crdt, s: History)
    requires PlainReflects(c, s)
    ensures PlainReflects(c, PayloadsOf(s))
  {
    hide Image, DataReflects, Registers.Settles, IsGreatest;
    ImageOfPayloads(s, KeyOf);
    ImageOfPayloads(s, CredentialOf);
    ImageOfPayloads(s, RevokedKeyOf);
    ImageOfPayloads(s, DeactivationOf);
    ImageOfPayloads(s, WallOf);
    ImageOfPayloads(s, AliasesOf);
    ImageOfPayloads(s, RotationOf);
    ImageOfPayloads(s, DataOf);
  }

  lemma AmbiguityOfPayloads(s: History)
    ensures Unambiguous(PayloadsOf(s)) <==> Unambiguous(s)
    ensures DistinctStamps(PayloadsOf(s)) <==> DistinctStamps(s)
  {
    var p := PayloadsOf(s);
    assert forall h :: h in s ==> h in p && p[h].op == s[h].op && p[h].stamp == s[h].stamp;
    if DistinctStamps(p) {
      forall g, h | g in s && h in s && Contend(s[g], s[h]) && s[g].stamp == s[h].stamp ensures g == h {
        assert Contend(p[g], p[h]);
      }
    }
    if DistinctDigests(p) {
      forall g, h |
        && g in s && h in s && s[g].op.RotateKey? && s[h].op.RotateKey?
        && s[g].op.keyRef.digest == s[h].op.keyRef.digest
        ensures s[g].op.keyRef == s[h].op.keyRef
      {
        assert p[g].op.RotateKey? && p[h].op.RotateKey?;
      }
    }
  }
}
