/** Causal admission: the verdict on a delta is a function of its own past. */
module Causal {
  import opened Deltas
  import opened Histories
  import opened Admission
  import opened Dag

  /** Some held delta in the past of `from` introduces, revokes or deactivates. */
  ghost predicate KeyAdded(s: History, from: set<Hash>, signer: string) {
    exists h :: h in Past(s, from) && h in s && AddsKey(s[h], signer)
  }

  ghost predicate KeyRevoked(s: History, from: set<Hash>, signer: string) {
    exists h :: h in Past(s, from) && h in s && RevokesKey(s[h], signer)
  }

  ghost predicate DeactivatedIn(s: History, from: set<Hash>) {
    exists h :: h in Past(s, from) && h in s && s[h].op.Deactivate?
  }

  ghost function VerifyCausal(d: Delta, s: History): AdmissionResult {
    if d.parents == [] then
      if s != map[] then Invalid(SignerNotAuthorised)
      else if AddsKey(d, d.signer) then Valid
      else if d.op.AddVerificationMethod? then Invalid(SignerNotAuthorised)
      else Invalid(GenesisOpNotAllowed)
    else
      VerifyPast(d.signer, s, Elements(d.parents))
  }

  ghost function VerifyPast(signer: string, s: History, from: set<Hash>): AdmissionResult {
    if KeyRevoked(s, from, signer) then Invalid(Revoked)
    else if DeactivatedIn(s, from) then Invalid(Deactivated)
    else if !Complete(s, from) then Unknown(Sorted(Past(s, from) - s.Keys))
    else if KeyAdded(s, from, signer) then Valid
    else Invalid(SignerNotAuthorised)
  }

  datatype ClosureFacts = ClosureFacts(signerAdded: bool, revoked: bool, deactivated: bool, missing: seq<Hash>)

  ghost predicate FactsOf(s: History, signer: string, c: set<Hash>, f: ClosureFacts) {
    && (f.signerAdded <==> Matches(s, c, d => AddsKey(d, signer)))
    && (f.revoked <==> Matches(s, c, d => RevokesKey(d, signer)))
    && (f.deactivated <==> Matches(s, c, (d: Delta) => d.op.Deactivate?))
    && Absent(s, c, f.missing)
  }

  function Note(f: ClosureFacts, d: Delta, signer: string): ClosureFacts {
    f.(signerAdded := f.signerAdded || AddsKey(d, signer),
       revoked := f.revoked || RevokesKey(d, signer),
       deactivated := f.deactivated || d.op.Deactivate?)
  }

  lemma MatchesGrows(s: History, c: set<Hash>, h: Hash, pred: Delta -> bool)
    ensures Matches(s, c + {h}, pred) <==> Matches(s, c, pred) || (h in s && pred(s[h]))
  {
    if Matches(s, c, pred) {
      var g :| g in c && g in s && pred(s[g]);
      assert g in c + {h};
    }
    if h in s && pred(s[h]) {
      assert h in c + {h};
    }
  }

  lemma FactsStep(s: History, signer: string, c: set<Hash>, f: ClosureFacts, h: Hash)
    requires FactsOf(s, signer, c, f)
    ensures h in s ==> FactsOf(s, signer, c + {h}, Note(f, s[h], signer))
    ensures h !in s ==> FactsOf(s, signer, c + {h}, f.(missing := f.missing + [h]))
  {
    hide Matches, Absent;
    AbsentStep(s, c, f.missing, h);
    MatchesGrows(s, c, h, d => AddsKey(d, signer));
    MatchesGrows(s, c, h, d => RevokesKey(d, signer));
    MatchesGrows(s, c, h, (d: Delta) => d.op.Deactivate?);
  }

  /** One depth-first pass collecting every authorisation fact about `signer`. */
  method ScanClosure(dag: DeltaDag, parents: seq<Hash>, signer: string) returns (facts: ClosureFacts)
    ensures facts.signerAdded <==> KeyAdded(dag.byHash, Elements(parents), signer)
    ensures facts.revoked <==> KeyRevoked(dag.byHash, Elements(parents), signer)
    ensures facts.deactivated <==> DeactivatedIn(dag.byHash, Elements(parents))
    ensures facts.missing == [] <==> Complete(dag.byHash, Elements(parents))
    ensures facts.missing == Sorted(Past(dag.byHash, Elements(parents)) - dag.byHash.Keys)
  {
    hide Exploring, Past, Elements, FactsOf;
    var s := dag.byHash;
    var stack, visited := parents, {};
    facts := ClosureFacts(false, false, false, []);
    ghost var from := Elements(parents);
    ExploreStart(s, parents);
    FactsStart(s, signer);
    while stack != []
      invariant Exploring(s, from, visited, stack)
      invariant FactsOf(s, signer, visited, facts)
      decreases |Past(s, from) - visited|, |stack|
    {
      var rest, h := stack[..|stack| - 1], stack[|stack| - 1];
      SplitLast(stack);
      if h in visited {
        ExploreSkip(s, from, visited, rest, h);
        stack := rest;
      } else {
        ExploreProgress(s, from, visited, rest, h);
        FactsStep(s, signer, visited, facts, h);
        if h in s {
          facts := Note(facts, s[h], signer);
          stack := PushParents(rest, s[h].parents, visited + {h});
        } else {
          facts := facts.(missing := facts.missing + [h]);
          stack := rest;
        }
        ExploreVisit(s, from, visited, rest, h, stack);
        visited := visited + {h};
      }
    }
    ExploreDone(s, from, visited);
    FactsDone(s, signer, from, facts);
    facts := facts.(missing := SortDedup(facts.missing));
  }

  lemma FactsStart(s: History, signer: string)
    ensures FactsOf(s, signer, {}, ClosureFacts(false, false, false, []))
  {
  }

  lemma FactsDone(s: History, signer: string, from: set<Hash>, f: ClosureFacts)
    requires FactsOf(s, signer, Past(s, from), f)
    ensures f.signerAdded <==> KeyAdded(s, from, signer)
    ensures f.revoked <==> KeyRevoked(s, from, signer)
    ensures f.deactivated <==> DeactivatedIn(s, from)
    ensures SortDedup(f.missing) == [] <==> Complete(s, from)
    ensures SortDedup(f.missing) == Sorted(Past(s, from) - s.Keys)
  {
    hide Past;
    AbsentDone(s, Past(s, from), f.missing);
    ElementsEmpty(f.missing);
    ElementsEmpty(SortDedup(f.missing));
  }

  /** The decision as the code takes it, from one scan. */
  method Verify(d: Delta, dag: DeltaDag) returns (r: AdmissionResult)
    ensures r == VerifyCausal(d, dag.byHash)
  {
    hide Past, Elements, KeyAdded, KeyRevoked, DeactivatedIn, Complete;
    if d.parents == [] {
      if |dag.byHash| != 0 {
        return Invalid(SignerNotAuthorised);
      }
      if d.op.AddVerificationMethod? {
        return if d.op.entry.id == d.signer then Valid else Invalid(SignerNotAuthorised);
      }
      return Invalid(GenesisOpNotAllowed);
    }
    var facts := ScanClosure(dag, d.parents, d.signer);
    if facts.revoked {
      r := Invalid(Revoked);
    } else if facts.deactivated {
      r := Invalid(Deactivated);
    } else if facts.missing != [] {
      r := Unknown(facts.missing);
    } else if !facts.signerAdded {
      r := Invalid(SignerNotAuthorised);
    } else {
      r := Valid;
    }
  }

  /** The three separate closure queries the one-pass scan replaces. */
  method VerifyByQueries(d: Delta, dag: DeltaDag) returns (r: AdmissionResult)
    requires d.parents != []
    ensures r == VerifyCausal(d, dag.byHash)
  {
    hide Past, Elements;
    var revoked := dag.ClosureFind(d.parents, e => RevokesKey(e, d.signer));
    if revoked.Found? {
      return Invalid(Revoked);
    }
    var deactivated := dag.ClosureFind(d.parents, (e: Delta) => e.op.Deactivate?);
    if deactivated.Found? {
      return Invalid(Deactivated);
    }
    if revoked.Incomplete? {
      return Unknown(revoked.missing);
    }
    var added := dag.ClosureFind(d.parents, e => AddsKey(e, d.signer));
    r := if added.Found? then Valid else Invalid(SignerNotAuthorised);
  }

  /** Whatever one past shows, every growing history shows too. */
  lemma FactsGrow(s: History, t: History, from: set<Hash>, signer: string)
    requires Extends(s, t)
    ensures KeyAdded(s, from, signer) ==> KeyAdded(t, from, signer)
    ensures KeyRevoked(s, from, signer) ==> KeyRevoked(t, from, signer)
    ensures DeactivatedIn(s, from) ==> DeactivatedIn(t, from)
  {
    hide Past;
    PastGrows(s, t, from);
  }

  /** The verdict on a delta with parents, said of the operations in its past. */
  lemma VerdictMeans(d: Delta, s: History)
    requires d.parents != []
    ensures var past, r := Past(s, Elements(d.parents)), VerifyCausal(d, s);
            var revoked :=
              exists h :: h in past && h in s && s[h].op.RevokeVerificationMethod? && s[h].op.keyId == d.signer;
            var off := exists h :: h in past && h in s && s[h].op.Deactivate?;
            var known :=
              exists h :: h in past && h in s && s[h].op.AddVerificationMethod? && s[h].op.entry.id == d.signer;
            && (r == Invalid(Revoked) <==> revoked)
            && (r == Invalid(Deactivated) <==> !revoked && off)
            && (r.Unknown? <==> !revoked && !off && !(past <= s.Keys))
            && (r.Valid? <==> !revoked && !off && past <= s.Keys && known)
            && (r == Invalid(SignerNotAuthorised) <==> !revoked && !off && past <= s.Keys && !known)
            && (r.Unknown? ==> Ascending(r.missing) && Elements(r.missing) == past - s.Keys && r.missing != [])
  {
    hide Past;
    var from := Elements(d.parents);
    var past := Past(s, from);
    assert KeyRevoked(s, from, d.signer) <==>
           exists h :: h in past && h in s && s[h].op.RevokeVerificationMethod? && s[h].op.keyId == d.signer;
    assert KeyAdded(s, from, d.signer) <==>
           exists h :: h in past && h in s && s[h].op.AddVerificationMethod? && s[h].op.entry.id == d.signer;
    ElementsEmpty(Sorted(past - s.Keys));
    if !(past <= s.Keys) {
      var h :| h in past && h !in s;
      assert h in Elements(Sorted(past - s.Keys));
    }
  }

  /** The verdict on a parentless delta: only an empty store takes one, and only if it introduces its own signer. */
  lemma RootVerdictMeans(d: Delta, s: History)
    requires d.parents == []
    ensures VerifyCausal(d, s).Valid? <==> s == map[] && d.op.AddVerificationMethod? && d.op.entry.id == d.signer
    ensures VerifyCausal(d, s) == Invalid(GenesisOpNotAllowed) <==> s == map[] && !d.op.AddVerificationMethod?
    ensures VerifyCausal(d, s) == Invalid(SignerNotAuthorised) <==>
              s != map[] || (d.op.AddVerificationMethod? && d.op.entry.id != d.signer)
  {
  }

  /** A past wholly held gives the same facts in every larger history. */
  lemma CompleteFactsFixed(s: History, t: History, from: set<Hash>, signer: string)
    requires Extends(s, t) && Complete(s, from)
    ensures KeyAdded(s, from, signer) <==> KeyAdded(t, from, signer)
    ensures KeyRevoked(s, from, signer) <==> KeyRevoked(t, from, signer)
    ensures DeactivatedIn(s, from) <==> DeactivatedIn(t, from)
    ensures Complete(t, from)
  {
    hide Past;
    PastGrows(s, t, from);
  }

  /** Admission is monotone for every delta with a parent. */
  lemma AdmissionMonotone(d: Delta, s: History, t: History)
    requires Extends(s, t) && d.parents != []
    ensures VerifyCausal(d, s).Valid? ==> VerifyCausal(d, t).Valid?
    ensures VerifyCausal(d, s).Invalid? ==> VerifyCausal(d, t).Invalid?
    ensures Complete(s, Elements(d.parents)) ==> VerifyCausal(d, t) == VerifyCausal(d, s)
    ensures Complete(s, Elements(d.parents)) ==> !VerifyCausal(d, s).Unknown?
    ensures VerifyCausal(d, s).Unknown? ==>
              Ascending(VerifyCausal(d, s).missing)
                && Elements(VerifyCausal(d, s).missing) == Past(s, Elements(d.parents)) - s.Keys
    ensures VerifyCausal(d, s) == Invalid(Revoked) ==> VerifyCausal(d, t) == Invalid(Revoked)
    ensures Compare(VerifyCausal(d, s), VerifyCausal(d, t)) in {Less, Equal}  // verdicts only climb
  {
    hide Past, Complete, KeyAdded, KeyRevoked, DeactivatedIn, Elements;
    var from := Elements(d.parents);
    FactsGrow(s, t, from, d.signer);
    if Complete(s, from) {
      CompleteFactsFixed(s, t, from, d.signer);
    }
  }

  /** On a parentless delta the verdict falls from valid to invalid as soon as anything is held. */
  lemma ParentlessNotMonotone(d: Delta, s: History)
    requires d.parents == [] && s != map[]
    ensures VerifyCausal(d, s) == Invalid(SignerNotAuthorised)
    ensures VerifyCausal(d, map[]).Valid? <==> AddsKey(d, d.signer)
  {
  }

  /**
   * A refusal stays a refusal, but its reason may sharpen: deactivation gives way to a revocation found later, and to
   * nothing else.
   */
  lemma ReasonMaySharpen(d: Delta, s: History, t: History)
    requires Extends(s, t) && d.parents != [] && VerifyCausal(d, s) == Invalid(Deactivated)
    ensures VerifyCausal(d, t) ==
            if KeyRevoked(t, Elements(d.parents), d.signer) then Invalid(Revoked) else Invalid(Deactivated)
    ensures Complete(s, Elements(d.parents)) ==> VerifyCausal(d, t) == Invalid(Deactivated)
  {
    hide Past, Complete, KeyAdded, KeyRevoked, DeactivatedIn, Elements;
    FactsGrow(s, t, Elements(d.parents), d.signer);
    if Complete(s, Elements(d.parents)) {
      CompleteFactsFixed(s, t, Elements(d.parents), d.signer);
    }
  }
}
