/** The delta DAG: a hash-indexed store with an incrementally maintained frontier. */
module Dag {
  import opened Deltas
  import opened Histories

  datatype ClosureQuery = Found | NotFound | Incomplete(missing: seq<Hash>)

  datatype Option<T> = None | Some(value: T)

  /** Where a depth-first traversal from `from` stands. */
  ghost predicate Exploring(s: History, from: set<Hash>, visited: set<Hash>, stack: seq<Hash>) {
    && from <= visited + Elements(stack)
    && visited + Elements(stack) <= Past(s, from)
    && forall h, p :: h in visited && h in s && p in s[h].parents ==> p in visited || p in stack
  }

  lemma ExploreStart(s: History, from: seq<Hash>)
    ensures Exploring(s, Elements(from), {}, from)
  {
    PastIsClosed(s, Elements(from));
  }

  /** Popping a hash seen before loses nothing. */
  lemma ExploreSkip(s: History, from: set<Hash>, visited: set<Hash>, stack: seq<Hash>, h: Hash)
    requires Exploring(s, from, visited, stack + [h]) && h in visited
    ensures Exploring(s, from, visited, stack)
  {
    assert Elements(stack + [h]) == Elements(stack) + {h};
    assert forall p :: p in stack + [h] ==> p in stack || p == h;
  }

  /** Visiting a hash and pushing its parents keeps the traversal on course. */
  lemma ExploreVisit(s: History, from: set<Hash>, visited: set<Hash>, stack: seq<Hash>, h: Hash, next: seq<Hash>)
    requires Exploring(s, from, visited, stack + [h])
    requires h !in s ==> next == stack
    requires h in s ==> Elements(stack) + (Elements(s[h].parents) - (visited + {h})) <= Elements(next)
    requires h in s ==> Elements(next) <= Elements(stack) + Elements(s[h].parents)
    ensures Exploring(s, from, visited + {h}, next)
  {
    hide Past;
    PastIsClosed(s, from);
    ElementsAppend(stack, h);
    assert Elements(stack) <= Elements(next);
    assert h in Past(s, from);
    assert h in s ==> Elements(s[h].parents) <= Past(s, from);
    assert Elements(next) <= Past(s, from);
    forall g, p | g in visited + {h} && g in s && p in s[g].parents ensures p in visited + {h} || p in next {
      if g in visited {
        assert p in visited || p in stack + [h];
        assert p in stack ==> p in Elements(stack);
      } else {
        assert p in Elements(s[h].parents);
        assert p in Elements(next) || p in visited + {h};
      }
    }
  }

  /** The hash about to be visited shrinks what is left to visit. */
  lemma ExploreProgress(s: History, from: set<Hash>, visited: set<Hash>, stack: seq<Hash>, h: Hash)
    requires Exploring(s, from, visited, stack + [h]) && h !in visited
    ensures h in Past(s, from)
    ensures |Past(s, from) - (visited + {h})| < |Past(s, from) - visited|
  {
    hide Past;
    assert h in Elements(stack + [h]);
    assert Past(s, from) - (visited + {h}) == (Past(s, from) - visited) - {h};
  }

  lemma ExploreDone(s: History, from: set<Hash>, visited: set<Hash>)
    requires Exploring(s, from, visited, [])
    ensures visited == Past(s, from)
  {
    PastIsLeast(s, from, visited);
  }

  /** `missing` lists the visited hashes that are not held. */
  ghost predicate Absent(s: History, visited: set<Hash>, missing: seq<Hash>) {
    Elements(missing) == visited - s.Keys
  }

  lemma AbsentStart(s: History)
    ensures Absent(s, {}, [])
  {
  }

  lemma AbsentStep(s: History, visited: set<Hash>, missing: seq<Hash>, h: Hash)
    requires Absent(s, visited, missing)
    ensures Absent(s, visited + {h}, if h in s then missing else missing + [h])
  {
    ElementsAppend(missing, h);
  }

  lemma AbsentDone(s: History, visited: set<Hash>, missing: seq<Hash>)
    requires Absent(s, visited, missing)
    ensures missing == [] <==> visited <= s.Keys
    ensures SortDedup(missing) == Sorted(visited - s.Keys)
  {
    SortDedupIsSorted(missing);
    ElementsEmpty(missing);
    assert forall h :: h in visited && h !in s ==> h in visited - s.Keys;
  }

  /** Push the parents that have not been visited. */
  method PushParents(stack: seq<Hash>, parents: seq<Hash>, visited: set<Hash>) returns (next: seq<Hash>)
    ensures Elements(next) == Elements(stack) + (Elements(parents) - visited)
  {
    next := stack;
    for i := 0 to |parents|
      invariant Elements(next) == Elements(stack) + (Elements(parents[..i]) - visited)
    {
      assert Elements(parents[..i + 1]) == Elements(parents[..i]) + {parents[i]};
      if parents[i] !in visited {
        assert Elements(next + [parents[i]]) == Elements(next) + {parents[i]};
        next := next + [parents[i]];
      }
    }
    assert parents[..|parents|] == parents;
  }

  /** The history after inserting `d`: a hash already held keeps its delta. */
  function With(s: History, d: Delta): History {
    if d.hash in s then s else s[d.hash := d]
  }

  class DeltaDag {
    var byHash: History
    var referenced: set<Hash>
    var frontier: set<Hash>

    /** The two derived indexes are what the held deltas make them. */
    ghost predicate Valid()
      reads this
    {
      && WellIndexed(byHash)
      && referenced == Referenced(byHash)
      && frontier == Frontier(byHash)
    }

    constructor ()
      ensures Valid() && byHash == map[]
    {
      byHash, referenced, frontier := map[], {}, {};
    }

    method Insert(d: Delta)
      requires Valid()
      modifies this
      ensures Valid() && byHash == With(old(byHash), d)
    {
      if d.hash in byHash {
        return;
      }
      for i := 0 to |d.parents|
        invariant byHash == old(byHash)
        invariant referenced == old(referenced) + Elements(d.parents[..i])
        invariant frontier == old(frontier) - Elements(d.parents[..i])
      {
        assert Elements(d.parents[..i + 1]) == Elements(d.parents[..i]) + {d.parents[i]};
        referenced := referenced + {d.parents[i]};
        frontier := frontier - {d.parents[i]};
      }
      assert d.parents[..|d.parents|] == d.parents;
      if d.hash !in referenced {
        frontier := frontier + {d.hash};
      }
      byHash := byHash[d.hash := d];
      ReferencedGrows(old(byHash), d);
    }

    method FrontierList() returns (heads: seq<Hash>)
      requires Valid()
      ensures Ascending(heads) && Elements(heads) == Frontier(byHash)
    {
      heads := SortSet(frontier);
    }

    /** Hashes named as a parent but not held. */
    method IncompleteAncestors() returns (missing: seq<Hash>)
      requires Valid()
      ensures Ascending(missing) && Elements(missing) == Referenced(byHash) - byHash.Keys
      ensures missing == [] <==> AncestorClosed(byHash)
    {
      missing := SortSet(referenced - byHash.Keys);
      assert missing != [] ==> missing[0] in Elements(missing);
      assert missing == [] ==> forall p :: p in referenced && p !in byHash ==> p in Elements(missing);
      assert AncestorClosed(byHash) ==> referenced <= byHash.Keys;
      assert referenced <= byHash.Keys ==> AncestorClosed(byHash) by {
        assert forall h, p :: h in byHash && p in byHash[h].parents ==> p in Referenced(byHash);
      }
    }

    /** Search the closure of `parents`; a match is decisive even when hashes are missing. */
    method ClosureFind(parents: seq<Hash>, pred: Delta -> bool) returns (q: ClosureQuery)
      ensures q.Found? <==> Matches(byHash, Past(byHash, Elements(parents)), pred)
      ensures q.NotFound? <==>
                && Complete(byHash, Elements(parents))
                && !Matches(byHash, Past(byHash, Elements(parents)), pred)
      ensures q.Incomplete? ==> q.missing == Sorted(Past(byHash, Elements(parents)) - byHash.Keys)
    {
      hide Exploring, Past, Elements, Sorted, Absent;
      var s := byHash;
      var stack, visited, missing: seq<Hash> := parents, {}, [];
      ghost var from := Elements(parents);
      ExploreStart(s, parents);
      AbsentStart(s);
      while stack != []
        invariant Exploring(s, from, visited, stack)
        invariant Absent(s, visited, missing)
        invariant !Matches(s, visited, pred)
        decreases |Past(s, from) - visited|, |stack|
      {
        var rest, h := stack[..|stack| - 1], stack[|stack| - 1];
        SplitLast(stack);
        if h in visited {
          ExploreSkip(s, from, visited, rest, h);
          stack := rest;
        } else {
          ExploreProgress(s, from, visited, rest, h);
          AbsentStep(s, visited, missing, h);
          if h in s {
            if pred(s[h]) {
              return Found;
            }
            stack := PushParents(rest, s[h].parents, visited + {h});
          } else {
            missing := missing + [h];
            stack := rest;
          }
          ExploreVisit(s, from, visited, rest, h, stack);
          visited := visited + {h};
        }
      }
      ExploreDone(s, from, visited);
      AbsentDone(s, visited, missing);
      q := if missing == [] then NotFound else Incomplete(SortDedup(missing));
    }

    /** Gather every `Some` that `f` gives on the held part of the closure. */
    method ClosureCollect<T(!new)>(parents: seq<Hash>, f: Delta -> Option<T>) returns (out: seq<T>)
      ensures forall t :: t in out <==> Yields(byHash, Past(byHash, Elements(parents)), f, t)
    {
      hide Exploring, Past, Yields;
      var s := byHash;
      var stack, visited := parents, {};
      out := [];
      assert forall t :: !Yields(s, visited, f, t) by { YieldsNothing(s, f); }
      ghost var from := Elements(parents);
      ExploreStart(s, parents);
      while stack != []
        invariant Exploring(s, from, visited, stack)
        invariant forall t :: t in out <==> Yields(s, visited, f, t)
        decreases |Past(s, from) - visited|, |stack|
      {
        var rest, h := stack[..|stack| - 1], stack[|stack| - 1];
        SplitLast(stack);
        if h in visited {
          ExploreSkip(s, from, visited, rest, h);
          stack := rest;
        } else {
          ExploreProgress(s, from, visited, rest, h);
          YieldsGrows(s, visited, h, f);
          stack := rest;
          if h in s {
            var found := f(s[h]);
            if found.Some? {
              assert forall t :: found == Some(t) <==> t == found.value;
              out := out + [found.value];
            }
            assert forall t :: t in out <==> Yields(s, visited, f, t) || found == Some(t);
            stack := PushParents(rest, s[h].parents, visited + {h});
          }
          ExploreVisit(s, from, visited, rest, h, stack);
          visited := visited + {h};
        }
      }
      ExploreDone(s, from, visited);
    }
  }

  /** `pred` holds on some held member of `c`. */
  ghost predicate Matches(s: History, c: set<Hash>, pred: Delta -> bool) {
    exists h :: h in c && h in s && pred(s[h])
  }

  /** `f` gives `t` on some held member of `c`. */
  ghost predicate Yields<T(!new)>(s: History, c: set<Hash>, f: Delta -> Option<T>, t: T) {
    exists h :: h in c && h in s && f(s[h]) == Some(t)
  }

  lemma YieldsNothing<T(!new)>(s: History, f: Delta -> Option<T>)
    ensures forall t :: !Yields(s, {}, f, t)
  {
  }

  lemma YieldsGrows<T(!new)>(s: History, c: set<Hash>, h: Hash, f: Delta -> Option<T>)
    ensures forall t :: Yields(s, c + {h}, f, t) <==> Yields(s, c, f, t) || (h in s && f(s[h]) == Some(t))
  {
    forall t ensures Yields(s, c + {h}, f, t) <==> Yields(s, c, f, t) || (h in s && f(s[h]) == Some(t)) {
      if Yields(s, c, f, t) {
        var g :| g in c && g in s && f(s[g]) == Some(t);
        assert g in c + {h};
      }
      if h in s && f(s[h]) == Some(t) {
        assert h in c + {h};
      }
    }
  }

  lemma ReferencedGrows(s: History, d: Delta)
    requires d.hash !in s
    ensures Referenced(s[d.hash := d]) == Referenced(s) + Elements(d.parents)
  {
    var t := s[d.hash := d];
    forall p | p in Referenced(s) + Elements(d.parents) ensures p in Referenced(t) {
      if p in Referenced(s) {
        var h :| h in s && p in s[h].parents;
        assert h in t && t[h] == s[h];
      } else {
        assert p in t[d.hash].parents;
      }
    }
  }

  /** List a set in ascending order. */
  method SortSet(s: set<Hash>) returns (r: seq<Hash>)
    ensures r == Sorted(s)
  {
    var rest := s;
    r := [];
    while rest != {}
      invariant Ascending(r) && Elements(r) == s - rest && rest <= s
      decreases rest
    {
      var h :| h in rest;
      r := InsertSorted(r, h);
      rest := rest - {h};
    }
    AscendingUnique(r, Sorted(s));
  }

  /** The history an insertion sequence leaves behind. */
  function InsertAll(s: History, ds: seq<Delta>): History {
    if ds == [] then s else With(InsertAll(s, ds[..|ds| - 1]), ds[|ds| - 1])
  }

  ghost predicate CollisionFree(ds: seq<Delta>) {
    forall c, d :: c in ds && d in ds && c.hash == d.hash ==> c == d
  }

  /** `t` is `s` with the deltas of `ds` inserted. */
  ghost predicate Inserted(s: History, ds: seq<Delta>, t: History) {
    && Extends(s, t)
    && t.Keys == s.Keys + (set d | d in ds :: d.hash)
    && (forall d :: d in ds && d.hash !in s ==> t[d.hash] == d)
  }

  lemma InsertedOne(s: History, ds: seq<Delta>, t: History, d: Delta)
    requires Inserted(s, ds, t) && CollisionFree(ds + [d])
    ensures Inserted(s, ds + [d], With(t, d))
  {
    forall e | e in ds && e.hash !in s ensures With(t, d)[e.hash] == e {
      assert e in ds + [d];
    }
    if d.hash in t && d.hash !in s {
      var e :| e in ds && e.hash == d.hash;
      assert e in ds + [d] && d in ds + [d];
    }
  }

  /** What an insertion sequence leaves behind, delta by delta. */
  lemma {:induction false} InsertAllHolds(s: History, ds: seq<Delta>)
    requires CollisionFree(ds)
    ensures Inserted(s, ds, InsertAll(s, ds))
    ensures WellIndexed(s) ==> WellIndexed(InsertAll(s, ds))
  {
    if ds != [] {
      hide Inserted;
      SplitLast(ds);
      InsertAllHolds(s, ds[..|ds| - 1]);
      InsertedOne(s, ds[..|ds| - 1], InsertAll(s, ds[..|ds| - 1]), ds[|ds| - 1]);
    }
  }

  /** Insertion order and repetition leave no trace: only the set inserted matters. */
  lemma InsertOrderIrrelevant(s: History, ds: seq<Delta>, es: seq<Delta>)
    requires CollisionFree(ds) && forall d :: d in ds <==> d in es
    ensures InsertAll(s, ds) == InsertAll(s, es)
  {
    hide InsertAll;
    InsertAllHolds(s, ds);
    InsertAllHolds(s, es);
    var a, b := InsertAll(s, ds), InsertAll(s, es);
    assert a.Keys == b.Keys;
    forall h | h in a ensures a[h] == b[h] {
      if h !in s {
        var d :| d in ds && d.hash == h;
      }
    }
  }
}
