/** What a role grants that roleNeedsUpdate leaves alone, whatever strings are in it: never more than the desired
    role, and exactly as much if and only if it is free of what deceives the comparison. */
module Grants {
  import opened Objects
  import opened Text
  import opened Drift

  // ---------------------------------------------------------------- one list of strings

  ghost predicate NoRepeats<T>(s: seq<T>) {
    forall i, j | 0 <= i < j < |s| :: s[i] != s[j]
  }

  ghost predicate Clear(list: seq<string>) {
    Plain(list) && NoRepeats(list) && "*" !in list
  }

  lemma SortKeepsMembers(list: seq<string>, x: string)
    ensures |Sort(list)| == |list| && (x in Sort(list) <==> x in list)
  {
    SortSorts(list);
    assert |Sort(list)| == |multiset(Sort(list))| == |list|;
    SameMembers(Sort(list), list, x);
  }

  lemma SameJoinSameAtoms(current: seq<string>, desired: seq<string>)
    requires Plain(desired) && current != [] && Join(Sort(current), ',') == Join(Sort(desired), ',')
    ensures Atoms(Sort(current), ',') == Sort(desired)
  {
    SortKeepsMembers(current, "");
    SortKeepsPlain(desired);
    SplitAfterJoin(Sort(desired), ',');
    SplitOfJoin(Sort(current), ',');
  }

  /** A list that joins to the same string as a plain one names nothing else. */
  lemma JoinedNamesNoMore(current: seq<string>, desired: seq<string>, x: string)
    requires Plain(desired) && Join(Sort(current), ',') == Join(Sort(desired), ',')
    requires x in current && ',' !in x
    ensures x in desired
  {
    SameJoinSameAtoms(current, desired);
    SortKeepsMembers(current, x);
    SortKeepsMembers(desired, x);
    AtomsCount(Sort(current), ',');
  }

  /** And if it is not plain itself it misses something. */
  lemma JoinedMisses(current: seq<string>, desired: seq<string>) returns (x: string)
    requires Clear(desired) && Join(Sort(current), ',') == Join(Sort(desired), ',')
    requires !Plain(current) && FreeOf(current, '|')
    ensures x in desired && x !in current
  {
    if current == [] {
      x := desired[0];
    } else {
      SameJoinSameAtoms(current, desired);
      AtomsCount(Sort(current), ',');
      SortKeepsMembers(current, "");
      SortKeepsMembers(desired, "");
      if FreeOf(Sort(current), ',') {
        forall i | 0 <= i < |current| ensures ',' !in current[i] {
          SortKeepsMembers(current, current[i]);
        }
        assert false;
      }
      ElementsAtMost(current);
      DistinctElements(desired);
      if Elements(desired) <= Elements(current) {
        SubsetSize(Elements(desired), Elements(current));
      }
      x :| x in Elements(desired) && x !in Elements(current);
    }
  }

  lemma SubsetSize<T>(a: set<T>, b: set<T>)
    requires a <= b
    ensures |a| <= |b|
  {
    assert b == a + (b - a);
  }

  // ---------------------------------------------------------------- one rule

  lemma SameFormSameJoins(current: Rule, desired: Rule)
    requires PlainRule(desired) && NormalForm(current) == NormalForm(desired)
    ensures Join(Sort(current.apiGroups), ',') == Join(Sort(desired.apiGroups), ',')
    ensures Join(Sort(current.resources), ',') == Join(Sort(desired.resources), ',')
    ensures Join(Sort(current.verbs), ',') == Join(Sort(desired.verbs), ',')
    ensures FreeOf(current.apiGroups, '|') && FreeOf(current.resources, '|') && FreeOf(current.verbs, '|')
  {
    hide Split, Join, Sort;
    var g, r, v := Join(Sort(current.apiGroups), ','), Join(Sort(current.resources), ','), Join(Sort(current.verbs), ',');
    NormalFormSplits(desired);
    SplitAppend(g, r + ['|'] + v, '|');
    SplitAppend(r, v, '|');
    assert NormalForm(current) == g + ['|'] + (r + ['|'] + v);
    var gs, rs, vs := Split(g, '|'), Split(r, '|'), Split(v, '|');
    var all := gs + (rs + vs);
    assert |all| == 3;
    assert all[0] == gs[0] && all[1] == rs[0] && all[2] == vs[0];
    OnePartIff(g, '|');
    OnePartIff(r, '|');
    OnePartIff(v, '|');
    JoinHidesNoBars(current.apiGroups);
    JoinHidesNoBars(current.resources);
    JoinHidesNoBars(current.verbs);
  }

  lemma JoinHidesNoBars(list: seq<string>)
    requires '|' !in Join(Sort(list), ',')
    ensures FreeOf(list, '|')
  {
    JoinHasAll(Sort(list), ',', '|');
    forall i | 0 <= i < |list| ensures '|' !in list[i] {
      SortKeepsMembers(list, list[i]);
    }
  }

  /** A request as there are any: no group, resource or verb has a comma in its name. */
  predicate Real(a: Access) { ',' !in a.apiGroup && ',' !in a.resource && ',' !in a.verb }

  lemma CoversNoMore(current: seq<string>, desired: seq<string>, x: string)
    requires Plain(desired) && Join(Sort(current), ',') == Join(Sort(desired), ',')
    requires Covers(current, x) && ',' !in x
    ensures Covers(desired, x)
  {
    if "*" in current {
      JoinedNamesNoMore(current, desired, "*");
    } else {
      JoinedNamesNoMore(current, desired, x);
    }
  }

  lemma RuleAllowsNoMore(current: Rule, desired: Rule, a: Access)
    requires PlainRule(desired) && desired.resourceNames == [] && NormalForm(current) == NormalForm(desired)
    requires Real(a) && RuleAllows(current, a)
    ensures RuleAllows(desired, a)
  {
    SameFormSameJoins(current, desired);
    CoversNoMore(current.apiGroups, desired.apiGroups, a.apiGroup);
    CoversNoMore(current.resources, desired.resources, a.resource);
    CoversNoMore(current.verbs, desired.verbs, a.verb);
  }

  // ---------------------------------------------------------------- whole roles

  ghost predicate PlainRules(rules: seq<Rule>) {
    forall i | 0 <= i < |rules| :: PlainRule(rules[i]) && rules[i].resourceNames == []
  }

  /** A role that is left alone never grants more than the desired one, whatever is written in it. */
  lemma AcceptedGrantsNoMore(current: seq<Rule>, desired: seq<Rule>, a: Access)
    requires PlainRules(desired) && RulesKept(current, desired)
    requires Real(a) && Allows(current, a)
    ensures Allows(desired, a)
  {
    hide PlainRule, NormalForm, RuleAllows;
    var i :| 0 <= i < |current| && RuleAllows(current[i], a);
    var j := Counterpart(current, desired, i);
    RuleAllowsNoMore(current[i], desired[j], a);
  }

  lemma Counterpart(current: seq<Rule>, desired: seq<Rule>, i: nat) returns (j: nat)
    requires NormalForms(current) <= NormalForms(desired) && i < |current|
    ensures j < |desired| && NormalForm(current[i]) == NormalForm(desired[j])
  {
    hide NormalForm;
    assert NormalForm(current[i]) in NormalForms(desired);
    j :| 0 <= j < |desired| && NormalForm(desired[j]) == NormalForm(current[i]);
  }

  ghost predicate ClearRule(rule: Rule) {
    Clear(rule.apiGroups) && Clear(rule.resources) && Clear(rule.verbs) && rule.resourceNames == []
  }

  ghost predicate Disjoint(a: seq<string>, b: seq<string>) { forall x | x in a :: x !in b }

  /** The rules name no triple of group, resource and verb twice, not even one rule by itself. */
  ghost predicate Irredundant(rules: seq<Rule>) {
    && (forall i | 0 <= i < |rules| :: ClearRule(rules[i]))
    && (forall i, j | 0 <= i < |rules| && 0 <= j < |rules| && i != j ::
          Disjoint(rules[i].apiGroups, rules[j].apiGroups) || Disjoint(rules[i].resources, rules[j].resources)
          || Disjoint(rules[i].verbs, rules[j].verbs))
  }

  lemma OnlyOneAllows(rules: seq<Rule>, i: nat, j: nat, a: Access)
    requires Irredundant(rules) && i < |rules| && j < |rules| && RuleAllows(rules[i], a) && RuleAllows(rules[j], a)
    ensures i == j
  {
    assert ClearRule(rules[i]) && ClearRule(rules[j]);
  }

  lemma FormsDiffer(rules: seq<Rule>, i: nat, j: nat)
    requires Irredundant(rules) && i < |rules| && j < |rules| && NormalForm(rules[i]) == NormalForm(rules[j])
    ensures i == j
  {
    var a := Access(rules[i].apiGroups[0], rules[i].resources[0], rules[i].verbs[0], "");
    assert ClearRule(rules[i]) && ClearRule(rules[j]);
    hide NormalForm;
    RuleAllowsNoMore(rules[i], rules[j], a);
    OnlyOneAllows(rules, i, j, a);
  }

  function Forms(rules: seq<Rule>): (forms: seq<string>)
    ensures |forms| == |rules| && forall i | 0 <= i < |rules| :: forms[i] == NormalForm(rules[i])
  {
    seq(|rules|, i requires 0 <= i < |rules| => NormalForm(rules[i]))
  }

  lemma FormsAreNormalForms(rules: seq<Rule>)
    ensures Elements(Forms(rules)) == NormalForms(rules)
  {
    hide NormalForm;
    forall x | x in NormalForms(rules) ensures x in Elements(Forms(rules)) {
      var i :| 0 <= i < |rules| && NormalForm(rules[i]) == x;
      assert Forms(rules)[i] == x;
    }
  }

  lemma {:induction false} ManyElementsDiffer<T>(s: seq<T>, i: nat, j: nat)
    requires |Elements(s)| == |s| && i < j < |s|
    ensures s[i] != s[j]
  {
    var rest := s[..j] + s[j+1..];
    ElementsAtMost(rest);
    if s[i] == s[j] {
      assert rest[i] == s[j];
      forall x | x in s ensures x in rest {
        var k :| 0 <= k < |s| && s[k] == x;
        if k < j { assert rest[k] == x; } else if k > j { assert rest[k-1] == x; }
      }
      SubsetSize(Elements(s), Elements(rest));
    }
  }

  /** As many rules as an irredundant role, and the same normal forms: no form occurs twice. */
  lemma AcceptedFormsDiffer(current: seq<Rule>, desired: seq<Rule>, i: nat, k: nat)
    requires Irredundant(desired) && RulesKept(current, desired)
    requires i < |current| && k < |current| && NormalForm(current[i]) == NormalForm(current[k])
    ensures i == k
  {
    hide NormalForm, Irredundant;
    FormsAreNormalForms(current);
    FormsAreNormalForms(desired);
    forall m, n | 0 <= m < n < |desired| ensures Forms(desired)[m] != Forms(desired)[n] {
      if NormalForm(desired[m]) == NormalForm(desired[n]) { FormsDiffer(desired, m, n); }
    }
    DistinctElements(Forms(desired));
    if i < k {
      ManyElementsDiffer(Forms(current), i, k);
    } else if k < i {
      ManyElementsDiffer(Forms(current), k, i);
    }
  }

  /** What a rule with separators, an empty list or resource names does not allow any more. */
  lemma Lost(current: Rule, desired: Rule) returns (a: Access)
    requires ClearRule(desired) && NormalForm(current) == NormalForm(desired)
    requires !(PlainRule(current) && current.resourceNames == [])
    ensures Real(a) && RuleAllows(desired, a) && !RuleAllows(current, a)
  {
    hide NormalForm, Join, Sort;
    SameFormSameJoins(current, desired);
    a := Access(desired.apiGroups[0], desired.resources[0], desired.verbs[0], "");
    if !Plain(current.apiGroups) {
      var x := JoinedMisses(current.apiGroups, desired.apiGroups);
      a := a.(apiGroup := x);
      MissesIsUncovered(current.apiGroups, desired.apiGroups, x);
    } else if !Plain(current.resources) {
      var x := JoinedMisses(current.resources, desired.resources);
      a := a.(resource := x);
      MissesIsUncovered(current.resources, desired.resources, x);
    } else if !Plain(current.verbs) {
      var x := JoinedMisses(current.verbs, desired.verbs);
      a := a.(verb := x);
      MissesIsUncovered(current.verbs, desired.verbs, x);
    } else {
      var x := FreshString(Elements(current.resourceNames));
      a := a.(name := x);
      assert forall n | n in current.resourceNames :: n in Elements(current.resourceNames);
    }
  }

  lemma MissesIsUncovered(current: seq<string>, desired: seq<string>, x: string)
    requires Clear(desired) && Join(Sort(current), ',') == Join(Sort(desired), ',') && x in desired && x !in current
    ensures !Covers(current, x) && ',' !in x
  {
    if "*" in current { JoinedNamesNoMore(current, desired, "*"); }
  }

  /** A role that is left alone, in comparison with an irredundant desired one, grants the same if and only if
      it has no separators, no empty lists and no resource names. */
  lemma AcceptedGrantsSameIff(current: seq<Rule>, desired: seq<Rule>)
    requires Irredundant(desired) && RulesKept(current, desired)
    ensures SameGrants(current, desired) <==> PlainRules(current)
  {
    assert PlainRules(desired) by { assert forall i | 0 <= i < |desired| :: ClearRule(desired[i]); }
    if PlainRules(current) {
      RoleLeftAloneGrantsTheSame(current, desired);
    } else {
      var i :| 0 <= i < |current| && !(PlainRule(current[i]) && current[i].resourceNames == []);
      hide NormalForm, RuleAllows, PlainRule, Irredundant, PlainRules, ClearRule;
      LossIsNotMadeUpFor(current, desired, i);
    }
  }

  lemma LossIsNotMadeUpFor(current: seq<Rule>, desired: seq<Rule>, i: nat)
    requires Irredundant(desired) && PlainRules(desired) && RulesKept(current, desired)
    requires i < |current| && !(PlainRule(current[i]) && current[i].resourceNames == [])
    ensures exists a :: Real(a) && Allows(desired, a) && !Allows(current, a)
  {
    var j := Counterpart(current, desired, i);
    assert ClearRule(desired[j]);
    hide NormalForm, RuleAllows, PlainRule, ClearRule, Irredundant;
    var a := Lost(current[i], desired[j]);
    if Allows(current, a) {
      var k :| 0 <= k < |current| && RuleAllows(current[k], a);
      var l := Counterpart(current, desired, k);
      RuleAllowsNoMore(current[k], desired[l], a);
      OnlyOneAllows(desired, j, l, a);
      AcceptedFormsDiffer(current, desired, i, k);
    }
  }
}
