/** The per-kind drift deciders of internal/reconciler/tenant_reconciler.go, lines 211-489 and
    671-691: the loops, what they compute, and what their answers mean. */
module Drift {
  import opened Objects
  import opened Text

  // ---------------------------------------------------------------- maps: labels, annotations, quantities

  /** A Go map read: a missing key yields the zero value. */
  function Lookup<V>(m: map<string, V>, k: string, zero: V): V {
    if k in m then m[k] else zero
  }

  predicate MapKept<V(==)>(current: map<string, V>, desired: map<string, V>, zero: V) {
    && |current| == |desired|
    && forall k | k in desired :: Lookup(current, k, zero) == desired[k]
  }

  method MapDiffers<V(==)>(current: map<string, V>, desired: map<string, V>, zero: V) returns (differs: bool)
    ensures differs <==> !MapKept(current, desired, zero)
  {
    if |current| != |desired| {
      return true;
    }
    var todo := desired.Keys;
    while todo != {}
      invariant todo <= desired.Keys
      invariant forall k | k in desired.Keys - todo :: Lookup(current, k, zero) == desired[k]
      decreases todo
    {
      var k :| k in todo;
      if Lookup(current, k, zero) != desired[k] {
        return true;
      }
      todo := todo - {k};
    }
    return false;
  }

  lemma SubsetWithinBound<T>(a: set<T>, b: set<T>)
    requires a <= b && |b| <= |a|
    ensures a == b
  {
    assert |b - a| == |b| - |a|;
    assert b == a + (b - a);
  }

  lemma MapComparisonExact<V>(current: map<string, V>, desired: map<string, V>, zero: V)
    requires zero !in desired.Values
    ensures MapKept(current, desired, zero) <==> current == desired
  {
    if MapKept(current, desired, zero) {
      forall k | k in desired ensures k in current && current[k] == desired[k] {
        assert desired[k] in desired.Values;
      }
      SubsetWithinBound(desired.Keys, current.Keys);
    }
  }

  /** A string longer than every member of a finite set is outside it. */
  lemma {:induction false} FreshString(s: set<string>) returns (longer: string)
    ensures forall x | x in s :: |x| < |longer|
  {
    if s == {} {
      longer := "x";
    } else {
      var x :| x in s;
      var f := FreshString(s - {x});
      longer := f + x + "x";
    }
  }

  /** Length plus lookup decides equality for every current map exactly when no desired value is
      the zero value: otherwise an impostor with another key in its place is accepted. */
  lemma MapComparisonIsEqualityIff<V(!new)>(desired: map<string, V>, zero: V)
    ensures (forall current: map<string, V> :: MapKept(current, desired, zero) ==> current == desired)
            <==> zero !in desired.Values
  {
    if zero !in desired.Values {
      forall current: map<string, V> | MapKept(current, desired, zero) ensures current == desired {
        MapComparisonExact(current, desired, zero);
      }
    } else {
      var k :| k in desired && desired[k] == zero;
      var other := FreshString(desired.Keys);
      var rest := desired - {k};
      var impostor := rest[other := zero];
      assert |rest| == |desired| - 1 by { assert rest.Keys == desired.Keys - {k}; }
      assert other !in desired;
      assert |impostor| == |desired| by { assert impostor.Keys == rest.Keys + {other}; }
      assert MapKept(impostor, desired, zero);
      assert k !in impostor;
    }
  }

  // ---------------------------------------------------------------- owner references

  function FirstWithUid(refs: seq<OwnerRef>, uid: string): seq<OwnerRef> {
    if refs == [] then [] else if refs[0].uid == uid then [refs[0]] else FirstWithUid(refs[1..], uid)
  }

  predicate OwnersKept(current: seq<OwnerRef>, desired: seq<OwnerRef>) {
    && |current| == |desired|
    && forall i | 0 <= i < |desired| :: FirstWithUid(current, desired[i].uid) == [desired[i]]
  }

  lemma {:induction false} FirstWithUidSkips(refs: seq<OwnerRef>, uid: string, n: nat)
    requires n <= |refs| && forall i | 0 <= i < n :: refs[i].uid != uid
    ensures FirstWithUid(refs, uid) == FirstWithUid(refs[n..], uid)
  {
    if n > 0 {
      FirstWithUidSkips(refs[1..], uid, n-1);
      assert refs[1..][n-1..] == refs[n..];
    }
  }

  method OwnersDiffer(current: seq<OwnerRef>, desired: seq<OwnerRef>) returns (differs: bool)
    ensures differs <==> !OwnersKept(current, desired)
  {
    if |current| != |desired| {
      return true;
    }
    for d := 0 to |desired|
      invariant forall i | 0 <= i < d :: FirstWithUid(current, desired[i].uid) == [desired[i]]
    {
      var found := false;
      var c := 0;
      while c < |current| && !found
        invariant c <= |current|
        invariant !found ==> forall i | 0 <= i < c :: current[i].uid != desired[d].uid
        invariant found ==> FirstWithUid(current, desired[d].uid) == [desired[d]]
      {
        FirstWithUidSkips(current, desired[d].uid, c);
        if current[c].uid == desired[d].uid {
          found := true;
          if current[c].apiVersion != desired[d].apiVersion || current[c].kind != desired[d].kind ||
             current[c].name != desired[d].name {
            return true;
          }
        }
        c := c + 1;
      }
      if !found {
        FirstWithUidSkips(current, desired[d].uid, |current|);
        return true;
      }
    }
    return false;
  }

  ghost predicate DistinctUids(refs: seq<OwnerRef>) {
    forall i, j | 0 <= i < j < |refs| :: refs[i].uid != refs[j].uid
  }

  ghost function Elements<T>(s: seq<T>): set<T> { set x | x in s }

  lemma {:induction false} DistinctElements<T>(s: seq<T>)
    requires forall i, j | 0 <= i < j < |s| :: s[i] != s[j]
    ensures |Elements(s)| == |s|
  {
    if s != [] {
      DistinctElements(s[1..]);
      assert s == [s[0]] + s[1..];
      assert Elements(s) == {s[0]} + Elements(s[1..]);
    }
  }

  lemma FirstWithUidFinds(refs: seq<OwnerRef>, r: OwnerRef)
    requires DistinctUids(refs)
    ensures FirstWithUid(refs, r.uid) == [r] <==> r in refs
  {
    if forall i | 0 <= i < |refs| :: refs[i].uid != r.uid {
      FirstWithUidSkips(refs, r.uid, |refs|);
    } else {
      var n :| 0 <= n < |refs| && refs[n].uid == r.uid;
      FirstWithUidSkips(refs, r.uid, n);
      assert FirstWithUid(refs, r.uid) == [refs[n]];
    }
  }

  /** Found by UID and equal lengths: exactly the same references, when UIDs are distinct in each list. */
  lemma OwnerComparisonExact(current: seq<OwnerRef>, desired: seq<OwnerRef>)
    requires DistinctUids(current) && DistinctUids(desired)
    ensures OwnersKept(current, desired) <==> Elements(current) == Elements(desired)
  {
    DistinctElements(current);
    DistinctElements(desired);
    forall i | 0 <= i < |desired|
      ensures FirstWithUid(current, desired[i].uid) == [desired[i]] <==> desired[i] in current
    {
      FirstWithUidFinds(current, desired[i]);
    }
    assert forall i | 0 <= i < |desired| :: desired[i] in Elements(desired);
    if OwnersKept(current, desired) {
      SubsetWithinBound(Elements(desired), Elements(current));
    }
  }

  predicate MetaKept(current: Meta, desired: Meta) {
    && MapKept(current.annotations, desired.annotations, "")
    && OwnersKept(current.owners, desired.owners)
    && MapKept(current.labels, desired.labels, "")
  }

  method MetaDiffers(current: Meta, desired: Meta) returns (differs: bool)
    ensures differs <==> !MetaKept(current, desired)
  {
    differs := MapDiffers(current.annotations, desired.annotations, "");
    if differs { return; }
    differs := OwnersDiffer(current.owners, desired.owners);
    if differs { return; }
    differs := MapDiffers(current.labels, desired.labels, "");
  }

  // ---------------------------------------------------------------- roles

  /** One string per rule, whatever the order of its groups, resources and verbs.  The resource
      names of a rule do not enter it. */
  function NormalForm(rule: Rule): string {
    Join(Sort(rule.apiGroups), ',') + "|" + Join(Sort(rule.resources), ',') + "|" + Join(Sort(rule.verbs), ',')
  }

  ghost function NormalForms(rules: seq<Rule>): set<string> {
    set i | 0 <= i < |rules| :: NormalForm(rules[i])
  }

  ghost predicate RulesKept(current: seq<Rule>, desired: seq<Rule>) {
    |current| == |desired| && NormalForms(current) == NormalForms(desired)
  }

  method RulesDiffer(current: seq<Rule>, desired: seq<Rule>) returns (differs: bool)
    ensures differs <==> !RulesKept(current, desired)
  {
    if |current| != |desired| {
      return true;
    }
    var currentRules: set<string> := {};
    for i := 0 to |current|
      invariant currentRules == set j | 0 <= j < i :: NormalForm(current[j])
    {
      currentRules := currentRules + {NormalForm(current[i])};
    }
    var desiredRules: set<string> := {};
    for i := 0 to |desired|
      invariant desiredRules == set j | 0 <= j < i :: NormalForm(desired[j])
    {
      desiredRules := desiredRules + {NormalForm(desired[i])};
    }
    differs := !(desiredRules <= currentRules) || !(currentRules <= desiredRules);
  }

  /** What a rule says once order is forgotten. */
  datatype Shape = Shape(apiGroups: multiset<string>, resources: multiset<string>, verbs: multiset<string>)

  ghost function ShapeOf(rule: Rule): Shape {
    Shape(multiset(rule.apiGroups), multiset(rule.resources), multiset(rule.verbs))
  }

  ghost predicate Plain(list: seq<string>) {
    list != [] && FreeOf(list, ',') && FreeOf(list, '|')
  }

  ghost predicate PlainRule(rule: Rule) {
    Plain(rule.apiGroups) && Plain(rule.resources) && Plain(rule.verbs)
  }

  lemma SortKeepsPlain(list: seq<string>)
    requires Plain(list)
    ensures Plain(Sort(list))
  {
    SortSorts(list);
    var sorted := Sort(list);
    assert |sorted| == |multiset(sorted)| == |list|;
    forall i | 0 <= i < |sorted| ensures ',' !in sorted[i] && '|' !in sorted[i] {
      assert sorted[i] in multiset(list);
    }
  }

  lemma NormalFormSplits(rule: Rule)
    requires PlainRule(rule)
    ensures Split(NormalForm(rule), '|')
            == [Join(Sort(rule.apiGroups), ','), Join(Sort(rule.resources), ','), Join(Sort(rule.verbs), ',')]
  {
    SortKeepsPlain(rule.apiGroups);
    SortKeepsPlain(rule.resources);
    SortKeepsPlain(rule.verbs);
    var g, r, v := Join(Sort(rule.apiGroups), ','), Join(Sort(rule.resources), ','), Join(Sort(rule.verbs), ',');
    JoinKeepsOut(Sort(rule.apiGroups), ',', '|');
    JoinKeepsOut(Sort(rule.resources), ',', '|');
    JoinKeepsOut(Sort(rule.verbs), ',', '|');
    SplitAppend(g, r + ['|'] + v, '|');
    SplitAppend(r, v, '|');
    SplitWhole(g, '|');
    SplitWhole(r, '|');
    SplitWhole(v, '|');
    assert NormalForm(rule) == g + ['|'] + (r + ['|'] + v);
  }

  /** Equal normal forms mean equal lists up to order -- and nothing less. */
  lemma NormalFormExact(a: Rule, b: Rule)
    requires PlainRule(a) && PlainRule(b)
    ensures NormalForm(a) == NormalForm(b) <==> ShapeOf(a) == ShapeOf(b)
  {
    SameShapeSameForm(a, b);
    if NormalForm(a) == NormalForm(b) {
      NormalFormSplits(a);
      NormalFormSplits(b);
      PlainListsFromJoin(a.apiGroups, b.apiGroups);
      PlainListsFromJoin(a.resources, b.resources);
      PlainListsFromJoin(a.verbs, b.verbs);
    }
  }

  lemma PlainListsFromJoin(a: seq<string>, b: seq<string>)
    requires Plain(a) && Plain(b) && Join(Sort(a), ',') == Join(Sort(b), ',')
    ensures multiset(a) == multiset(b)
  {
    SortKeepsPlain(a);
    SortKeepsPlain(b);
    JoinInjective(Sort(a), Sort(b), ',');
    SortForgetsOrder(a, b);
  }

  lemma SameShapeSameForm(a: Rule, b: Rule)
    ensures ShapeOf(a) == ShapeOf(b) ==> NormalForm(a) == NormalForm(b)
  {
    SortForgetsOrder(a.apiGroups, b.apiGroups);
    SortForgetsOrder(a.resources, b.resources);
    SortForgetsOrder(a.verbs, b.verbs);
  }

  // ---------------------------------------------------------------- what a role grants

  /** An access request: `resource` is "pods" or, with a subresource, "pods/log". */
  datatype Access = Access(apiGroup: string, resource: string, verb: string, name: string)

  predicate Covers(list: seq<string>, x: string) { "*" in list || x in list }

  predicate RuleAllows(rule: Rule, a: Access) {
    && Covers(rule.apiGroups, a.apiGroup)
    && Covers(rule.resources, a.resource)
    && Covers(rule.verbs, a.verb)
    && (rule.resourceNames == [] || a.name in rule.resourceNames)
  }

  predicate Allows(rules: seq<Rule>, a: Access) {
    exists i | 0 <= i < |rules| :: RuleAllows(rules[i], a)
  }

  ghost predicate SameGrants(current: seq<Rule>, desired: seq<Rule>) {
    forall a: Access :: Allows(current, a) <==> Allows(desired, a)
  }

  lemma SameMembers(a: seq<string>, b: seq<string>, x: string)
    requires multiset(a) == multiset(b)
    ensures x in a <==> x in b
  {
    assert x in a <==> x in multiset(a);
    assert x in b <==> x in multiset(b);
  }

  lemma SameShapeSameTargets(a: Rule, b: Rule, req: Access)
    requires ShapeOf(a) == ShapeOf(b) && Elements(a.resourceNames) == Elements(b.resourceNames)
    ensures RuleAllows(a, req) <==> RuleAllows(b, req)
  {
    forall x: string ensures (x in a.apiGroups <==> x in b.apiGroups) && (x in a.resources <==> x in b.resources)
                             && (x in a.verbs <==> x in b.verbs) {
      SameMembers(a.apiGroups, b.apiGroups, x);
      SameMembers(a.resources, b.resources, x);
      SameMembers(a.verbs, b.verbs, x);
    }
    assert forall x :: x in a.resourceNames <==> x in Elements(a.resourceNames);
    assert forall x :: x in b.resourceNames <==> x in Elements(b.resourceNames);
    assert a.resourceNames == [] <==> Elements(a.resourceNames) == {} by {
      if a.resourceNames != [] { assert a.resourceNames[0] in Elements(a.resourceNames); }
    }
    assert b.resourceNames == [] <==> Elements(b.resourceNames) == {} by {
      if b.resourceNames != [] { assert b.resourceNames[0] in Elements(b.resourceNames); }
    }
  }

  lemma GrantsCarryOver(from: seq<Rule>, to: seq<Rule>, req: Access)
    requires forall i | 0 <= i < |from| :: PlainRule(from[i]) && from[i].resourceNames == []
    requires forall i | 0 <= i < |to| :: PlainRule(to[i]) && to[i].resourceNames == []
    requires NormalForms(from) <= NormalForms(to) && Allows(from, req)
    ensures Allows(to, req)
  {
    var i :| 0 <= i < |from| && RuleAllows(from[i], req);
    assert NormalForm(from[i]) in NormalForms(to);
    var j :| 0 <= j < |to| && NormalForm(to[j]) == NormalForm(from[i]);
    NormalFormExact(from[i], to[j]);
    SameShapeSameTargets(from[i], to[j], req);
  }

  /** A role left alone grants exactly what the desired role grants, when the strings are free of
      the separators, no list is empty and no rule is narrowed to resource names. */
  lemma RoleLeftAloneGrantsTheSame(current: seq<Rule>, desired: seq<Rule>)
    requires forall i | 0 <= i < |current| :: PlainRule(current[i]) && current[i].resourceNames == []
    requires forall i | 0 <= i < |desired| :: PlainRule(desired[i]) && desired[i].resourceNames == []
    requires RulesKept(current, desired)
    ensures SameGrants(current, desired)
  {
    forall a: Access ensures Allows(current, a) <==> Allows(desired, a) {
      if Allows(current, a) { GrantsCarryOver(current, desired, a); }
      if Allows(desired, a) { GrantsCarryOver(desired, current, a); }
    }
  }

  /** The part the normal form drops: two plain rules with one normal form grant the same exactly
      when they name the same resources (none at all counting as a list of its own). */
  lemma ResourceNamesAreTheGap(a: Rule, b: Rule)
    requires PlainRule(a) && PlainRule(b) && NormalForm(a) == NormalForm(b)
    ensures SameGrants([a], [b]) <==> Elements(a.resourceNames) == Elements(b.resourceNames)
  {
    NormalFormExact(a, b);
    if Elements(a.resourceNames) == Elements(b.resourceNames) {
      forall req: Access ensures Allows([a], req) <==> Allows([b], req) {
        SameShapeSameTargets(a, b, req);
        assert Allows([a], req) <==> RuleAllows([a][0], req);
        assert Allows([b], req) <==> RuleAllows([b][0], req);
      }
    } else {
      var name := TellingName(a.resourceNames, b.resourceNames);
      var req := Access(a.apiGroups[0], a.resources[0], a.verbs[0], name);
      SameMembers(a.apiGroups, b.apiGroups, req.apiGroup);
      SameMembers(a.resources, b.resources, req.resource);
      SameMembers(a.verbs, b.verbs, req.verb);
      assert Allows([a], req) <==> RuleAllows([a][0], req);
      assert Allows([b], req) <==> RuleAllows([b][0], req);
      assert Allows([a], req) != Allows([b], req);
    }
  }

  lemma TellingName(a: seq<string>, b: seq<string>) returns (name: string)
    requires Elements(a) != Elements(b)
    ensures (a == [] || name in a) != (b == [] || name in b)
  {
    if a == [] || b == [] {
      name := FreshString(Elements(a) + Elements(b));
      assert forall x | x in a :: x in Elements(a);
      assert forall x | x in b :: x in Elements(b);
    } else {
      name :| (name in Elements(a)) != (name in Elements(b));
    }
  }

  /** A comma or an empty list is enough to deceive the comparison. */
  lemma SeparatorsDeceive()
    ensures var joined := Rule([""], ["pods,secrets"], ["get"], []);
            var split := Rule([""], ["pods", "secrets"], ["get"], []);
            RulesKept([joined], [split]) && !SameGrants([joined], [split])
    ensures var none := Rule([], ["pods"], ["get"], []);
            var core := Rule([""], ["pods"], ["get"], []);
            RulesKept([none], [core]) && !SameGrants([none], [core])
  {
    var joined, split := Rule([""], ["pods,secrets"], ["get"], []), Rule([""], ["pods", "secrets"], ["get"], []);
    assert Before("pods", "secrets");
    assert Sort(["secrets"]) == ["secrets"];
    assert ["pods", "secrets"][1..] == ["secrets"];
    assert Sort(["pods", "secrets"]) == ["pods", "secrets"];
    assert Join(["pods", "secrets"], ',') == "pods" + [','] + "secrets" == "pods,secrets";
    assert NormalForm(joined) == NormalForm(split);
    SingleRuleKept(joined, split);
    var pods := Access("", "pods", "get", "");
    assert RuleAllows([split][0], pods) && Allows([split], pods) && !Allows([joined], pods);

    var none, core := Rule([], ["pods"], ["get"], []), Rule([""], ["pods"], ["get"], []);
    assert Join(Sort([]), ',') == "" == Join(Sort([""]), ',');
    SingleRuleKept(none, core);
    assert RuleAllows([core][0], pods) && Allows([core], pods) && !Allows([none], pods);
  }

  lemma SingleRuleKept(a: Rule, b: Rule)
    requires NormalForm(a) == NormalForm(b)
    ensures RulesKept([a], [b])
  {
    assert [a][0] == a && [b][0] == b;
    assert NormalForms([a]) == {NormalForm(a)} && NormalForms([b]) == {NormalForm(b)};
  }

  ghost function Shapes(rules: seq<Rule>): multiset<Shape> {
    if rules == [] then multiset{} else multiset{ShapeOf(rules[0])} + Shapes(rules[1..])
  }

  lemma {:induction false} ShapesMembers(rules: seq<Rule>, s: Shape)
    ensures s in Shapes(rules) <==> exists i :: 0 <= i < |rules| && ShapeOf(rules[i]) == s
  {
    if rules != [] {
      hide ShapeOf;
      var rest := rules[1..];
      ShapesMembers(rest, s);
      assert s in Shapes(rules) <==> ShapeOf(rules[0]) == s || s in Shapes(rest);
      if s in Shapes(rest) {
        var i :| 0 <= i < |rest| && ShapeOf(rest[i]) == s;
        assert rules[i+1] == rest[i];
      }
      if i :| 0 < i < |rules| && ShapeOf(rules[i]) == s {
        assert rest[i-1] == rules[i];
      }
    }
  }

  lemma {:induction false} ShapesCount(rules: seq<Rule>)
    ensures |Shapes(rules)| == |rules|
  {
    if rules != [] {
      hide ShapeOf;
      ShapesCount(rules[1..]);
    }
  }

  /** Permuting the rules, and the strings inside each, never triggers an update. */
  lemma {:induction false} PermutingNeverTriggers(current: seq<Rule>, desired: seq<Rule>)
    requires Shapes(current) == Shapes(desired)
    ensures RulesKept(current, desired)
  {
    ShapesCount(current);
    ShapesCount(desired);
    SameShapesSameForms(current, desired);
    SameShapesSameForms(desired, current);
  }

  lemma SameShapesSameForms(a: seq<Rule>, b: seq<Rule>)
    requires Shapes(a) == Shapes(b)
    ensures NormalForms(a) <= NormalForms(b)
  {
    forall i | 0 <= i < |a| ensures NormalForm(a[i]) in NormalForms(b) {
      ShapesMembers(a, ShapeOf(a[i]));
      ShapesMembers(b, ShapeOf(a[i]));
      var j :| 0 <= j < |b| && ShapeOf(b[j]) == ShapeOf(a[i]);
      SameShapeSameForm(a[i], b[j]);
    }
  }

  // ---------------------------------------------------------------- role bindings

  function SubjectKey(s: Subject): string { s.kind + "|" + s.apiGroup + "|" + s.name }

  ghost function SubjectKeys(subjects: seq<Subject>): set<string> {
    set i | 0 <= i < |subjects| :: SubjectKey(subjects[i])
  }

  ghost predicate SubjectsKept(current: seq<Subject>, desired: seq<Subject>) {
    |current| == |desired| && SubjectKeys(desired) <= SubjectKeys(current)
  }

  method SubjectsDiffer(current: seq<Subject>, desired: seq<Subject>) returns (differs: bool)
    ensures differs <==> !SubjectsKept(current, desired)
  {
    if |current| != |desired| {
      return true;
    }
    var currentSubjects: set<string> := {};
    for i := 0 to |current|
      invariant currentSubjects == set j | 0 <= j < i :: SubjectKey(current[j])
    {
      currentSubjects := currentSubjects + {SubjectKey(current[i])};
    }
    for i := 0 to |desired|
      invariant forall j | 0 <= j < i :: SubjectKey(desired[j]) in currentSubjects
    {
      if SubjectKey(desired[i]) !in currentSubjects {
        assert SubjectKey(desired[i]) in SubjectKeys(desired);
        return true;
      }
    }
    return false;
  }

  ghost predicate NoBars(s: Subject) { '|' !in s.kind && '|' !in s.apiGroup }

  lemma SubjectKeyInjective(s: Subject, t: Subject)
    requires NoBars(s) && NoBars(t) && SubjectKey(s) == SubjectKey(t)
    ensures s == t
  {
    SubjectKeySplits(s);
    SubjectKeySplits(t);
    JoinAfterSplit(s.name, '|');
    JoinAfterSplit(t.name, '|');
    assert Split(SubjectKey(s), '|')[2..] == Split(s.name, '|');
    assert Split(SubjectKey(t), '|')[2..] == Split(t.name, '|');
    assert Split(SubjectKey(s), '|')[0] == s.kind && Split(SubjectKey(t), '|')[0] == t.kind;
    assert Split(SubjectKey(s), '|')[1] == s.apiGroup && Split(SubjectKey(t), '|')[1] == t.apiGroup;
  }

  lemma SubjectKeySplits(s: Subject)
    requires NoBars(s)
    ensures Split(SubjectKey(s), '|') == [s.kind, s.apiGroup] + Split(s.name, '|')
  {
    hide Split;
    var rest := s.apiGroup + ['|'] + s.name;
    assert SubjectKey(s) == s.kind + ['|'] + rest;
    SplitAppend(s.kind, rest, '|');
    SplitAppend(s.apiGroup, s.name, '|');
    SplitWhole(s.kind, '|');
    SplitWhole(s.apiGroup, '|');
  }

  /** When the desired subjects are distinct, accepted means as many, and the same ones. */
  lemma SubjectComparisonExact(current: seq<Subject>, desired: seq<Subject>)
    requires forall i | 0 <= i < |current| :: NoBars(current[i])
    requires forall i | 0 <= i < |desired| :: NoBars(desired[i])
    requires forall i, j | 0 <= i < j < |desired| :: desired[i] != desired[j]
    ensures SubjectsKept(current, desired)
            <==> |current| == |desired| && Elements(current) == Elements(desired)
  {
    assert forall i | 0 <= i < |desired| :: desired[i] in Elements(desired);
    if SubjectsKept(current, desired) {
      forall d | d in Elements(desired) ensures d in Elements(current) {
        var i :| 0 <= i < |desired| && desired[i] == d;
        assert SubjectKey(desired[i]) in SubjectKeys(current);
        var j :| 0 <= j < |current| && SubjectKey(current[j]) == SubjectKey(d);
        SubjectKeyInjective(current[j], d);
      }
      DistinctElements(desired);
      ElementsAtMost(current);
      SubsetWithinBound(Elements(desired), Elements(current));
    }
  }

  lemma {:induction false} ElementsAtMost<T>(s: seq<T>)
    ensures |Elements(s)| <= |s|
  {
    if s != [] {
      ElementsAtMost(s[1..]);
      assert s == [s[0]] + s[1..];
      assert Elements(s) == {s[0]} + Elements(s[1..]);
    }
  }

  // ---------------------------------------------------------------- limit ranges

  predicate LimitsKept(current: seq<LimitItem>, desired: seq<LimitItem>) {
    && |current| == |desired|
    && forall i | 0 <= i < |desired| :: MapKept(current[i].default, desired[i].default, 0)
  }

  method LimitsDiffer(current: seq<LimitItem>, desired: seq<LimitItem>) returns (differs: bool)
    ensures differs <==> !LimitsKept(current, desired)
  {
    if |current| != |desired| {
      return true;
    }
    for i := 0 to |desired|
      invariant forall j | 0 <= j < i :: MapKept(current[j].default, desired[j].default, 0)
    {
      differs := MapDiffers(current[i].default, desired[i].default, 0);
      if differs { return; }
    }
    return false;
  }

  // ---------------------------------------------------------------- the decision by kind

  /** Is the current object left alone?  A network policy is compared by lengths only, and both it
      and a limit range without their metadata. */
  ghost predicate Kept(current: Object, desired: Object)
    requires current.Kind() == desired.Kind()
  {
    match desired
    case Namespace(_) => MetaKept(current.meta, desired.meta)
    case ResourceQuota(_, _) => MapKept(current.hard, desired.hard, 0) && MetaKept(current.meta, desired.meta)
    case Role(_, _) => MetaKept(current.meta, desired.meta) && RulesKept(current.rules, desired.rules)
    case RoleBinding(_, _, _) =>
      && SubjectsKept(current.subjects, desired.subjects)
      && MetaKept(current.meta, desired.meta)
      && current.roleRef == desired.roleRef
    case NetworkPolicy(_, _, _, _) =>
      && |current.policyTypes| == |desired.policyTypes|
      && |current.ingress| == |desired.ingress|
      && |current.egress| == |desired.egress|
    case LimitRange(_, _) => LimitsKept(current.limits, desired.limits)
  }

  method NeedsUpdate(current: Object, desired: Object) returns (needed: bool)
    requires current.Kind() == desired.Kind()
    ensures needed <==> !Kept(current, desired)
  {
    match desired
    case Namespace(_) =>
      needed := MetaDiffers(current.meta, desired.meta);
    case ResourceQuota(_, _) =>
      needed := MapDiffers(current.hard, desired.hard, 0);
      if needed { return; }
      needed := MetaDiffers(current.meta, desired.meta);
    case Role(_, _) =>
      needed := MetaDiffers(current.meta, desired.meta);
      if needed { return; }
      needed := RulesDiffer(current.rules, desired.rules);
    case RoleBinding(_, _, _) =>
      needed := SubjectsDiffer(current.subjects, desired.subjects);
      if needed { return; }
      needed := MetaDiffers(current.meta, desired.meta);
      if needed { return; }
      needed := current.roleRef != desired.roleRef;
    case NetworkPolicy(_, _, _, _) =>
      needed := |current.policyTypes| != |desired.policyTypes| || |current.ingress| != |desired.ingress|
                || |current.egress| != |desired.egress|;
    case LimitRange(_, _) =>
      needed := LimitsDiffer(current.limits, desired.limits);
  }

  /** What was just written is left alone by the next look at it. */
  lemma WrittenIsKept(o: Object)
    requires DistinctUids(o.meta.owners)
    ensures Kept(o, o)
  {
    forall i | 0 <= i < |o.meta.owners|
      ensures FirstWithUid(o.meta.owners, o.meta.owners[i].uid) == [o.meta.owners[i]]
    {
      FirstWithUidFinds(o.meta.owners, o.meta.owners[i]);
    }
  }

  // ---------------------------------------------------------------- what the decision means, kind by kind

  ghost predicate SameMeta(a: Meta, b: Meta) {
    a.labels == b.labels && a.annotations == b.annotations && Elements(a.owners) == Elements(b.owners)
  }

  /** Metadata on which the loops decide equality: no empty values desired, and distinct UIDs. */
  ghost predicate Tellable(current: Meta, desired: Meta) {
    && "" !in desired.labels.Values && "" !in desired.annotations.Values
    && DistinctUids(current.owners) && DistinctUids(desired.owners)
  }

  lemma MetaComparisonExact(current: Meta, desired: Meta)
    requires Tellable(current, desired)
    ensures MetaKept(current, desired) <==> SameMeta(current, desired)
  {
    MapComparisonExact(current.labels, desired.labels, "");
    MapComparisonExact(current.annotations, desired.annotations, "");
    OwnerComparisonExact(current.owners, desired.owners);
  }

  /** A namespace is left alone exactly when its metadata is as desired. */
  lemma NamespaceComparisonExact(current: Object, desired: Object)
    requires current.Namespace? && desired.Namespace? && Tellable(current.meta, desired.meta)
    ensures Kept(current, desired) <==> SameMeta(current.meta, desired.meta)
  {
    MetaComparisonExact(current.meta, desired.meta);
  }

  /** A quota is left alone exactly when limits and metadata are as desired. */
  lemma QuotaComparisonExact(current: Object, desired: Object)
    requires current.ResourceQuota? && desired.ResourceQuota? && Tellable(current.meta, desired.meta)
    requires 0 !in desired.hard.Values
    ensures Kept(current, desired) <==> current.hard == desired.hard && SameMeta(current.meta, desired.meta)
  {
    MetaComparisonExact(current.meta, desired.meta);
    MapComparisonExact(current.hard, desired.hard, 0);
  }

  ghost function ShapeSet(rules: seq<Rule>): set<Shape> { set i | 0 <= i < |rules| :: ShapeOf(rules[i]) }

  lemma SameFormsSameShapes(a: seq<Rule>, b: seq<Rule>)
    requires forall i | 0 <= i < |a| :: PlainRule(a[i])
    requires forall i | 0 <= i < |b| :: PlainRule(b[i])
    ensures NormalForms(a) <= NormalForms(b) <==> ShapeSet(a) <= ShapeSet(b)
  {
    hide NormalForm, ShapeOf, PlainRule;
    forall i, j | 0 <= i < |a| && 0 <= j < |b|
      ensures NormalForm(a[i]) == NormalForm(b[j]) <==> ShapeOf(a[i]) == ShapeOf(b[j])
    {
      NormalFormExact(a[i], b[j]);
    }
    if NormalForms(a) <= NormalForms(b) {
      forall i | 0 <= i < |a| ensures ShapeOf(a[i]) in ShapeSet(b) {
        assert NormalForm(a[i]) in NormalForms(b);
      }
    }
    if ShapeSet(a) <= ShapeSet(b) {
      forall i | 0 <= i < |a| ensures NormalForm(a[i]) in NormalForms(b) {
        assert ShapeOf(a[i]) in ShapeSet(b);
      }
    }
  }

  /** A role of plain rules is left alone exactly when it has as many rules, the same ones up to the order of
      rules and strings -- and up to resource names -- and the desired metadata. */
  lemma RoleComparisonExact(current: Object, desired: Object)
    requires current.Role? && desired.Role? && Tellable(current.meta, desired.meta)
    requires forall i | 0 <= i < |current.rules| :: PlainRule(current.rules[i])
    requires forall i | 0 <= i < |desired.rules| :: PlainRule(desired.rules[i])
    ensures Kept(current, desired) <==>
              && |current.rules| == |desired.rules| && ShapeSet(current.rules) == ShapeSet(desired.rules)
              && SameMeta(current.meta, desired.meta)
  {
    hide NormalForms, ShapeSet, PlainRule, MetaKept, SameMeta;
    MetaComparisonExact(current.meta, desired.meta);
    SameFormsSameShapes(current.rules, desired.rules);
    SameFormsSameShapes(desired.rules, current.rules);
  }

  /** A binding is left alone exactly when it binds as many and the same subjects to the same role, with the
      desired metadata. */
  lemma BindingComparisonExact(current: Object, desired: Object)
    requires current.RoleBinding? && desired.RoleBinding? && Tellable(current.meta, desired.meta)
    requires forall i | 0 <= i < |current.subjects| :: NoBars(current.subjects[i])
    requires forall i | 0 <= i < |desired.subjects| :: NoBars(desired.subjects[i])
    requires forall i, j | 0 <= i < j < |desired.subjects| :: desired.subjects[i] != desired.subjects[j]
    ensures Kept(current, desired) <==>
              && |current.subjects| == |desired.subjects| && Elements(current.subjects) == Elements(desired.subjects)
              && current.roleRef == desired.roleRef
              && SameMeta(current.meta, desired.meta)
  {
    MetaComparisonExact(current.meta, desired.meta);
    SubjectComparisonExact(current.subjects, desired.subjects);
  }

  // ---------------------------------------------------------------- what the decision does not see

  /** For a network policy, accepted means equal only when there is nothing to compare. */
  lemma NetworkPolicyDriftUnseenIff(desired: Object)
    requires desired.NetworkPolicy?
    ensures (forall current: Object | current.NetworkPolicy? && Kept(current, desired) ::
               current.policyTypes == desired.policyTypes && current.ingress == desired.ingress
               && current.egress == desired.egress)
            <==> desired.policyTypes == [] && desired.ingress == [] && desired.egress == []
  {
    var a := desired.(policyTypes := Changed(desired.policyTypes));
    var b := desired.(ingress := ChangedTraffic(desired.ingress));
    var c := desired.(egress := ChangedTraffic(desired.egress));
    assert Kept(a, desired) && Kept(b, desired) && Kept(c, desired);
  }

  /** As many elements, but another first one. */
  function Changed(s: seq<string>): (r: seq<string>)
    ensures |r| == |s| && (s != [] ==> r != s)
  {
    if s == [] then []
    else
      var other := s[0] + "!";
      assert |other| != |s[0]| && s[0 := other][0] == other;
      s[0 := other]
  }

  function ChangedTraffic(s: seq<Traffic>): (r: seq<Traffic>)
    ensures |r| == |s| && (s != [] ==> r != s)
  {
    if s == [] then []
    else
      var other := Traffic(s[0].peers, s[0].ports + [Port("TCP", 0)]);
      assert |other.ports| != |s[0].ports| && s[0 := other][0] == other;
      s[0 := other]
  }

  /** For a limit range, exactly the default limits of each item are looked at. */
  lemma LimitRangeSeesDefaultsOnly(current: Object, desired: Object)
    requires current.LimitRange? && desired.LimitRange?
    requires forall i | 0 <= i < |desired.limits| :: 0 !in desired.limits[i].default.Values
    ensures Kept(current, desired) <==>
              && |current.limits| == |desired.limits|
              && forall i | 0 <= i < |desired.limits| :: current.limits[i].default == desired.limits[i].default
  {
    if |current.limits| == |desired.limits| {
      forall i | 0 <= i < |desired.limits|
        ensures MapKept(current.limits[i].default, desired.limits[i].default, 0)
                <==> current.limits[i].default == desired.limits[i].default
      {
        MapComparisonExact(current.limits[i].default, desired.limits[i].default, 0);
      }
    }
  }
}
