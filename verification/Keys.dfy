/** Several keys under one id: when the key lookup, and with it every signature check, is stable. */
module Keys {
  import opened Deltas
  import opened Histories
  import opened Dag
  import opened Causal
  import opened State
  import opened StateLaws
  import opened Documents

  lemma KeysGrow(s: History, t: History)
    requires Extends(s, t)
    ensures Image(s, KeyOf) <= Image(t, KeyOf)
  {
    forall e | e in Image(s, KeyOf) ensures e in Image(t, KeyOf) {
      var h :| h in s && KeyOf(s[h]).Some? && KeyOf(s[h]).value == e;
      assert KeyOf(t[h]).Some? && KeyOf(t[h]).value == e;
    }
  }

  predicate HasKeyAtMost(keys: set<KeyEntry>, id: string, key: PublicKey) {
    exists e :: e in keys && e.id == id && e.key <= key
  }

  /** `more` holds no key below those `keys` knows under an id. */
  predicate NoLowerKey(keys: set<KeyEntry>, more: set<KeyEntry>) {
    forall e, f :: e in keys && f in more && e.id == f.id ==> HasKeyAtMost(keys, f.id, f.key)
  }

  /** Growing from `s` to `u` never changes which key comes first under a known id. */
  ghost predicate KeysSettled(s: History, u: History) {
    NoLowerKey(Image(s, KeyOf), Image(u, KeyOf))
  }

  /** Both introduce a key under one id, `c` the lower one. */
  predicate KeyBelow(c: Delta, d: Delta) {
    && c.op.AddVerificationMethod? && d.op.AddVerificationMethod?
    && c.op.entry.id == d.op.entry.id && c.op.entry.key < d.op.entry.key
  }

  /** A lower key under an id is in the past of every higher one. */
  ghost predicate LowerKeysFirst(u: History) {
    forall g, h :: g in u && h in u && KeyBelow(u[g], u[h]) ==> g in Past(u, Elements(u[h].parents))
  }

  /** No two entries share an id with different key material. */
  ghost predicate OneKeyPerId(s: History) {
    forall a, b :: a in Image(s, KeyOf) && b in Image(s, KeyOf) && a.id == b.id ==> a.key == b.key
  }

  /** One key per id is the simplest way to have lower keys first and every part settled. */
  lemma OneKeySuffices(s: History, u: History)
    requires OneKeyPerId(u) && Extends(s, u)
    ensures LowerKeysFirst(u) && KeysSettled(s, u)
  {
    hide Past;
    KeysGrow(s, u);
    forall g, h | g in u && h in u ensures !KeyBelow(u[g], u[h]) {
      assert KeyOf(u[g]).Some? ==> KeyOf(u[g]).value in Image(u, KeyOf);
      assert KeyOf(u[h]).Some? ==> KeyOf(u[h]).value in Image(u, KeyOf);
    }
  }

  /** An ancestor-closed part never learns of a lower key too late. */
  lemma ClosedIsSettled(s: History, u: History)
    requires AncestorClosed(s) && Extends(s, u) && LowerKeysFirst(u)
    ensures KeysSettled(s, u)
  {
    hide Past, Elements, AncestorClosed;
    forall e, f | e in Image(s, KeyOf) && f in Image(u, KeyOf) && e.id == f.id
      ensures HasKeyAtMost(Image(s, KeyOf), f.id, f.key)
    {
      var h :| h in s && KeyOf(s[h]).Some? && KeyOf(s[h]).value == e;
      var g :| g in u && KeyOf(u[g]).Some? && KeyOf(u[g]).value == f;
      if f.key < e.key {
        assert KeyBelow(u[g], u[h]);
        PartKeepsPast(s, u, h);
        assert g in s && KeyOf(s[g]).Some? && KeyOf(s[g]).value == f;
      }
    }
  }

  lemma LowerKeysOfPart(s: History, u: History)
    requires AncestorClosed(s) && Extends(s, u) && LowerKeysFirst(u)
    ensures LowerKeysFirst(s)
  {
    hide Past, Elements, AncestorClosed;
    forall g, h | g in s && h in s && KeyBelow(s[g], s[h]) ensures g in Past(s, Elements(s[h].parents)) {
      PartKeepsPast(s, u, h);
    }
  }

  lemma SettledPart(s: History, t: History, u: History)
    requires KeysSettled(s, u) && Extends(t, u)
    ensures KeysSettled(s, t)
  {
    hide Image, HasKeyAtMost;
    KeysGrow(t, u);
  }

  /** Taking in an admissible delta keeps keys settled: its past is held, lower keys included. */
  lemma SettledStep(d: Delta, s: History, u: History)
    requires KeysSettled(s, u) && LowerKeysFirst(u) && d.hash !in s && Extends(With(s, d), u)
    requires Complete(s, Elements(d.parents))
    ensures KeysSettled(With(s, d), u)
  {
    hide Past, Elements;
    var t := With(s, d);
    KeysGrow(s, t);
    assert u[d.hash] == t[d.hash] == d;
    PastGrows(s, u, Elements(d.parents));
    forall e, f | e in Image(t, KeyOf) && f in Image(u, KeyOf) && e.id == f.id
      ensures HasKeyAtMost(Image(t, KeyOf), f.id, f.key)
    {
      var h :| h in t && KeyOf(t[h]).Some? && KeyOf(t[h]).value == e;
      var g :| g in u && KeyOf(u[g]).Some? && KeyOf(u[g]).value == f;
      if h in s {
        assert KeyOf(s[h]).Some? && KeyOf(s[h]).value in Image(s, KeyOf);
        assert HasKeyAtMost(Image(s, KeyOf), f.id, f.key);
      } else if f.key < e.key {
        assert KeyBelow(u[g], u[d.hash]);
        assert g in s && t[g] == u[g] && KeyOf(t[g]).value in Image(t, KeyOf);
      }
    }
  }

  /** The key lookup answers alike before and after growth that brings no lower key. */
  lemma FirstKeyFixed(keys: set<KeyEntry>, more: set<KeyEntry>, id: string)
    requires ContainsId(keys, id) && keys <= more && NoLowerKey(keys, more)
    ensures forall key: PublicKey :: IsFirstKey(keys, id, key) <==> IsFirstKey(more, id, key)
  {
    var known :| known in keys && known.id == id;
    forall key: PublicKey | IsFirstKey(keys, id, key) ensures IsFirstKey(more, id, key) {
      forall e | e in more && e.id == id ensures key <= e.key {
        assert HasKeyAtMost(keys, id, e.key);
      }
    }
    forall key: PublicKey | IsFirstKey(more, id, key) ensures IsFirstKey(keys, id, key) {
      assert HasKeyAtMost(keys, id, key);
    }
  }

  /** `d` is checked alike against `keys` and `more`. */
  ghost predicate SameCheck(d: Delta, keys: set<KeyEntry>, more: set<KeyEntry>) {
    SignatureOk(d, keys) <==> SignatureOk(d, more)
  }

  /** Once a signer's key is known, its checks all survive growth exactly when no lower key arrives under its id. */
  lemma SignatureStableIff(keys: set<KeyEntry>, more: set<KeyEntry>, first: KeyEntry)
    requires first in keys && IsFirstKey(keys, first.id, first.key) && keys <= more
    ensures (forall d: Delta :: d.signer == first.id ==> SameCheck(d, keys, more)) <==>
            (forall f :: f in more && f.id == first.id ==> first.key <= f.key)
  {
    if f :| f in more && f.id == first.id && f.key < first.key {
      var d := Delta(0, "", ZERO_STAMP, Deactivate, [], first.id, Signed({first.key}), 0);
      LowerKeyTakesOver(keys, more, first, f, d);
      assert !SameCheck(d, keys, more);
    } else {
      assert forall key: PublicKey :: IsFirstKey(keys, first.id, key) <==> key == first.key;
      assert forall key: PublicKey :: IsFirstKey(more, first.id, key) <==> key == first.key;
      assert keys != {} && more != {};
    }
  }

  /** A lower key added under the id takes the signer's place: what verified before no longer does. */
  lemma LowerKeyTakesOver(keys: set<KeyEntry>, more: set<KeyEntry>, first: KeyEntry, lower: KeyEntry, d: Delta)
    requires first in keys && IsFirstKey(keys, first.id, first.key)
    requires lower in more && lower.id == first.id && lower.key < first.key
    requires d.signer == first.id && d.proof == Signed({first.key})
    ensures SignatureOk(d, keys) && !SignatureOk(d, more)
  {
  }

  /** Once the signer's key is in the past, growth does not change what the signature check says. */
  lemma SignatureFixed(d: Delta, s: History, t: History)
    requires VerifyCausal(d, s).Valid? && s != map[]
    requires Extends(s, t) && KeysSettled(s, t)
    ensures SignatureOk(d, Image(s, KeyOf)) <==> SignatureOk(d, Image(t, KeyOf))
  {
    hide VerifyCausal, NoLowerKey;
    KeysGrow(s, t);
    ValidHasKey(d, s);
    var h :| h in s && AddsKey(s[h], d.signer);
    assert KeyOf(s[h]).Some? && KeyOf(s[h]).value in Image(s, KeyOf);
    FirstKeyFixed(Image(s, KeyOf), Image(t, KeyOf), d.signer);
  }
}
