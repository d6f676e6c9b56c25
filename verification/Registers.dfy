/** Last-writer-wins registers, where a write must be strictly later to win. */
module Registers {
  import opened Deltas

  datatype Register<V> = Register(val: V, marker: Stamp)

  type Write<V> = (Stamp, V)

  function Update<V>(r: Register<V>, w: Write<V>): Register<V> {
    if Before(r.marker, w.0) then Register(w.1, w.0) else r
  }

  function Join<V>(r: Register<V>, other: Register<V>): Register<V> {
    Update(r, (other.marker, other.val))
  }

  function Fresh<V>(bottom: V): Register<V> {
    Register(bottom, ZERO_STAMP)
  }

  /** `r` is a latest write of `writes`, or untouched because no write is above the zero stamp. */
  ghost predicate Settles<V>(r: Register<V>, bottom: V, writes: set<Write<V>>) {
    && (r == Fresh(bottom) || ((r.marker, r.val) in writes && Before(ZERO_STAMP, r.marker)))
    && forall w :: w in writes ==> !Before(r.marker, w.0)
  }

  lemma SettlesUpdate<V>(r: Register<V>, bottom: V, writes: set<Write<V>>, w: Write<V>)
    requires Settles(r, bottom, writes)
    ensures Settles(Update(r, w), bottom, writes + {w})
  {
  }

  lemma SettlesJoin<V>(r: Register<V>, q: Register<V>, bottom: V, xs: set<Write<V>>, ys: set<Write<V>>)
    requires Settles(r, bottom, xs) && Settles(q, bottom, ys)
    ensures Settles(Join(r, q), bottom, xs + ys)
  {
  }

  /** The latest writes above the zero stamp carry one value. */
  ghost predicate TopAgrees<V(!new)>(writes: set<Write<V>>) {
    forall v, w :: v in writes && w in writes && Tops(writes, v) && Tops(writes, w) ==> v.1 == w.1
  }

  ghost predicate Tops<V(!new)>(writes: set<Write<V>>, w: Write<V>) {
    Before(ZERO_STAMP, w.0) && forall v :: v in writes ==> !Before(w.0, v.0)
  }

  lemma SettlesUnique<V(!new)>(r: Register<V>, q: Register<V>, bottom: V, writes: set<Write<V>>)
    requires Settles(r, bottom, writes) && Settles(q, bottom, writes)
    requires TopAgrees(writes)
    ensures r == q
  {
    if r != Fresh(bottom) && q != Fresh(bottom) {
      assert Tops(writes, (r.marker, r.val)) && Tops(writes, (q.marker, q.val));
    }
  }

  function WriteAll<V>(r: Register<V>, ws: seq<Write<V>>): Register<V> {
    if ws == [] then r else Update(WriteAll(r, ws[..|ws| - 1]), ws[|ws| - 1])
  }

  lemma {:induction false} WriteAllSettles<V>(bottom: V, ws: seq<Write<V>>)
    ensures Settles(WriteAll(Fresh(bottom), ws), bottom, set w | w in ws)
  {
    if ws != [] {
      var front, last := ws[..|ws| - 1], ws[|ws| - 1];
      assert ws == front + [last];
      WriteAllSettles(bottom, front);
      SettlesUpdate(WriteAll(Fresh(bottom), front), bottom, (set w | w in front), last);
      assert (set w | w in ws) == (set w | w in front) + {last};
    }
  }

  lemma {:induction false} WriteAllKeepsTop<V>(r: Register<V>, ws: seq<Write<V>>)
    requires forall w :: w in ws ==> !Before(r.marker, w.0)
    ensures WriteAll(r, ws) == r
  {
    if ws != [] {
      assert forall w :: w in ws[..|ws| - 1] ==> w in ws;
      WriteAllKeepsTop(r, ws[..|ws| - 1]);
    }
  }

  /** Writing in the opposite grouping: first write, then the rest. */
  lemma {:induction false} WriteAllFirst<V>(r: Register<V>, w: Write<V>, ws: seq<Write<V>>)
    ensures WriteAll(r, [w] + ws) == WriteAll(Update(r, w), ws)
  {
    if ws != [] {
      WriteAllFirst(r, w, ws[..|ws| - 1]);
      assert ([w] + ws)[..|[w] + ws| - 1] == [w] + ws[..|ws| - 1];
    } else {
      assert [w] + ws == [w] && [w][..0] == [];
      assert WriteAll(r, [w]) == Update(WriteAll(r, [w][..0]), w);
    }
  }

  ghost predicate OrderFree<V(!new)>(bottom: V, ws: seq<Write<V>>) {
    forall xs: seq<Write<V>> :: SameWrites(xs, ws) ==> WriteAll(Fresh(bottom), xs) == WriteAll(Fresh(bottom), ws)
  }

  ghost predicate SameWrites<V(!new)>(xs: seq<Write<V>>, ws: seq<Write<V>>) {
    (set w | w in xs) == (set w | w in ws)
  }

  /** A tie keeps the first writer, so delivery order is irrelevant exactly when the top writes agree. */
  lemma OrderFreeIff<V(!new)>(bottom: V, ws: seq<Write<V>>)
    ensures OrderFree(bottom, ws) <==> TopAgrees(set w | w in ws)
  {
    hide TopAgrees;
    var writes := set w | w in ws;
    if TopAgrees(writes) {
      forall xs: seq<Write<V>> | SameWrites(xs, ws)
        ensures WriteAll(Fresh(bottom), xs) == WriteAll(Fresh(bottom), ws)
      {
        WriteAllSettles(bottom, xs);
        WriteAllSettles(bottom, ws);
        SettlesUnique(WriteAll(Fresh(bottom), xs), WriteAll(Fresh(bottom), ws), bottom, writes);
      }
    }
    if OrderFree(bottom, ws) {
      OrderFreeNeedsAgreement(bottom, ws);
    }
  }

  lemma FirstTopWins<V(!new)>(bottom: V, w: Write<V>, ws: seq<Write<V>>)
    requires Tops((set x | x in ws), w)
    ensures WriteAll(Fresh(bottom), [w] + ws) == Register(w.1, w.0)
  {
    WriteAllFirst(Fresh(bottom), w, ws);
    assert forall x :: x in ws ==> x in (set x | x in ws);
    WriteAllKeepsTop(Register(w.1, w.0), ws);
  }

  lemma OrderFreeNeedsAgreement<V(!new)>(bottom: V, ws: seq<Write<V>>)
    requires OrderFree(bottom, ws)
    ensures TopAgrees(set w | w in ws)
  {
    var writes := set w | w in ws;
    forall v, w | v in writes && w in writes && Tops(writes, v) && Tops(writes, w) ensures v.1 == w.1 {
      FirstTopWins(bottom, v, ws);
      FirstTopWins(bottom, w, ws);
      assert SameWrites([v] + ws, ws) && SameWrites([w] + ws, ws);
    }
  }
}
