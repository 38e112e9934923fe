/** cmd/webhook/main.go: which namespaces the webhook looks at, how it reads the tenant back out of the
    name the reconciler printed, and what its JSON Patch does to a pod.  Patches are applied by section
    4.1 of RFC 6902, pointers read by sections 3 and 4 of RFC 6901; array elements are never addressed. */
module Admission {
  import opened Text
  import opened Tenants
  import opened Reconciler

  // ---------------------------------------------------------------- JSON and its patches

  datatype Json =
    | Null
    | Bool(b: bool)
    | Num(n: real)
    | Str(s: string)
    | Arr(items: seq<Json>)
    | Obj(fields: map<string, Json>)

  /** "~1" stands for a slash and "~0" for a tilde. */
  function Unescape(token: string): string {
    if |token| >= 2 && token[0] == '~' && token[1] == '1' then ['/'] + Unescape(token[2..])
    else if |token| >= 2 && token[0] == '~' && token[1] == '0' then ['~'] + Unescape(token[2..])
    else if token == "" then "" else [token[0]] + Unescape(token[1..])
  }

  function UnescapeAll(tokens: seq<string>): seq<string> {
    if tokens == [] then [] else [Unescape(tokens[0])] + UnescapeAll(tokens[1..])
  }

  /** The reference tokens of a pointer; every pointer but the empty one starts with a slash. */
  function Tokens(pointer: string): Option<seq<string>> {
    if pointer == "" then Some([])
    else if pointer[0] != '/' then None
    else Some(UnescapeAll(Split(pointer[1..], '/')))
  }

  /** The add operation: the parent must exist; an existing member is replaced. */
  function Add(doc: Json, tokens: seq<string>, value: Json): Option<Json> {
    if tokens == [] then Some(value)
    else if !doc.Obj? then None
    else if |tokens| == 1 then Some(Obj(doc.fields[tokens[0] := value]))
    else if tokens[0] !in doc.fields then None
    else
      match Add(doc.fields[tokens[0]], tokens[1..], value)
      case None => None
      case Some(child) => Some(Obj(doc.fields[tokens[0] := child]))
  }

  datatype AddOp = AddOp(path: string, value: Json)

  function ApplyOp(doc: Json, op: AddOp): Option<Json> {
    match Tokens(op.path)
    case None => None
    case Some(tokens) => Add(doc, tokens, op.value)
  }

  function Apply(doc: Json, ops: seq<AddOp>): Option<Json>
    decreases |ops|
  {
    if ops == [] then Some(doc)
    else
      match ApplyOp(doc, ops[0])
      case None => None
      case Some(next) => Apply(next, ops[1..])
  }

  // ---------------------------------------------------------------- the handler

  datatype Handler = ValidatePod | MutatePod | Health

  /** The mux: exact paths. */
  function Route(path: string): Option<Handler> {
    if path == "/validate-pod" then Some(ValidatePod)
    else if path == "/mutate-pod" then Some(MutatePod)
    else if path == "/healthz" then Some(Health)
    else None
  }

  const SYSTEM_NAMESPACES := {"kube-system", "kube-public", "kube-node-lease", "default", "k8s-mtp"}
  const PREFIX := "tenant-"

  predicate ShouldValidateNamespace(ns: string) {
    ns !in SYSTEM_NAMESPACES && PREFIX <= ns
  }

  const LABELS := "/" + "metadata" + "/" + "labels"
  const NAME_LABEL := LABELS + "/" + ("tenant.k8s-mtp.io" + "~1" + "name")
  const TIER_LABEL := LABELS + "/" + ("tenant.k8s-mtp.io" + "~1" + "tier")

  /** Left alone, patched, or lost to an index out of range. */
  datatype Answer = Unpatched | Patched(ops: seq<AddOp>) | Panicked

  function Mutate(ns: string): Answer {
    if !ShouldValidateNamespace(ns) then Unpatched
    else
      var parts := Split(ns, '-');
      if |parts| < 3 then Panicked
      else Patched([AddOp(LABELS, Obj(map[])), AddOp(NAME_LABEL, Str(parts[1])), AddOp(TIER_LABEL, Str(parts[2]))])
  }

  // ---------------------------------------------------------------- printing and splitting namespaces

  lemma PrintedSplits(name: string, spec: string)
    ensures Split("tenant-" + name + "-" + spec, '-') == ["tenant"] + Split(name, '-') + Split(spec, '-')
  {
    var ns, rest := "tenant-" + name + "-" + spec, name + ['-'] + spec;
    assert "tenant-" == "tenant" + ['-'];
    assert ns == "tenant" + ['-'] + rest;
    hide Split;
    SplitAppend("tenant", rest, '-');
    SplitAppend(name, spec, '-');
    SplitWhole("tenant", '-');
  }

  /** Namespaces without the prefix are left alone, and the handler panics exactly on a tenant namespace
      without a second hyphen. */
  lemma MutatePanicsIff(ns: string)
    ensures Mutate(ns).Unpatched? <==> !("tenant-" <= ns)
    ensures Mutate(ns).Panicked? <==> "tenant-" <= ns && '-' !in ns[7..]
  {
    assert forall s | s in SYSTEM_NAMESPACES :: s[0] != 't';
    if PREFIX <= ns {
      var rest := ns[|PREFIX|..];
      assert PREFIX == "tenant" + ['-'];
      assert ns == "tenant" + ['-'] + rest;
      SplitAppend("tenant", rest, '-');
      SplitWhole("tenant", '-');
      OnePartIff(rest, '-');
    }
  }

  /** What the two labels of a pod carry in a namespace the reconciler built, for all names: the first part of
      the metadata name, and its second part if there is one, else the first part of the spec name.  So they
      are metadata name and spec name exactly when neither has a hyphen, and the tier is never among them. */
  lemma LabelsOfBuiltNamespaces(t: Tenant)
    ensures '-' in t.name ==> |Split(t.name, '-')| >= 2
    ensures Mutate(NamespaceOf(t)) ==
              Patched([AddOp(LABELS, Obj(map[])),
                       AddOp(NAME_LABEL, Str(Split(t.name, '-')[0])),
                       AddOp(TIER_LABEL, Str(if '-' in t.name then Split(t.name, '-')[1] else Split(t.spec.name, '-')[0]))])
    ensures var ops := Mutate(NamespaceOf(t)).ops;
            (ops[1].value == Str(t.name) && ops[2].value == Str(t.spec.name)) <==> '-' !in t.name && '-' !in t.spec.name
  {
    var ns := NamespaceOf(t);
    assert ns == "tenant-" + t.name + "-" + t.spec.name;
    PrintedSplits(t.name, t.spec.name);
    OnePartIff(t.name, '-');
    OnePartIff(t.spec.name, '-');
    assert PREFIX <= ns && ns[0] == 't';
    assert forall s | s in SYSTEM_NAMESPACES :: s[0] != 't';
    hide Split;
    var parts, name, spec := Split(ns, '-'), Split(t.name, '-'), Split(t.spec.name, '-');
    assert parts == ["tenant"] + name + spec;
    assert parts[1] == name[0];
    assert parts[2] == if |name| >= 2 then name[1] else spec[0];
  }

  /** Different tenants get different namespaces when all metadata names, or all spec names, are
      hyphen-free. */
  lemma NamespacesDiffer(a: Tenant, b: Tenant)
    requires ('-' !in a.name && '-' !in b.name) || ('-' !in a.spec.name && '-' !in b.spec.name)
    ensures NamespaceOf(a) == NamespaceOf(b) <==> a.name == b.name && a.spec.name == b.spec.name
  {
    hide Split, Join;
    if NamespaceOf(a) == NamespaceOf(b) {
      PrintedSplits(a.name, a.spec.name);
      PrintedSplits(b.name, b.spec.name);
      var an, as_, bn, bs := Split(a.name, '-'), Split(a.spec.name, '-'), Split(b.name, '-'), Split(b.spec.name, '-');
      assert (["tenant"] + an + as_)[1..] == an + as_;
      assert (["tenant"] + bn + bs)[1..] == bn + bs;
      if '-' !in a.name && '-' !in b.name {
        SplitWhole(a.name, '-');
        SplitWhole(b.name, '-');
      } else {
        SplitWhole(a.spec.name, '-');
        SplitWhole(b.spec.name, '-');
      }
      SameTail(an, as_, bn, bs);
      JoinAfterSplit(a.name, '-');
      JoinAfterSplit(b.name, '-');
      JoinAfterSplit(a.spec.name, '-');
      JoinAfterSplit(b.spec.name, '-');
    }
  }

  lemma SameTail<T>(a: seq<T>, b: seq<T>, c: seq<T>, d: seq<T>)
    requires a + b == c + d && (|a| == |c| || |b| == |d|)
    ensures a == c && b == d
  {
    assert |a| == |c|;
    assert (a + b)[..|a|] == a && (c + d)[..|c|] == c;
    assert (a + b)[|a|..] == b && (c + d)[|c|..] == d;
  }

  /** The namespace identifies its tenant among all tenants exactly when neither name has a hyphen: any hyphen
      can move from one name to the other. */
  lemma NamespaceIdentifiesTenantIff(a: Tenant)
    ensures (forall b: Tenant :: NamespaceOf(b) == NamespaceOf(a) ==> b.name == a.name && b.spec.name == a.spec.name)
            <==> '-' !in a.name && '-' !in a.spec.name
  {
    if '-' in a.name {
      var i :| 0 <= i < |a.name| && a.name[i] == '-';
      var b := a.(name := a.name[..i], spec := a.spec.(name := a.name[i+1..] + "-" + a.spec.name));
      assert a.name == b.name + "-" + a.name[i+1..];
      assert NamespaceOf(b) == NamespaceOf(a) && |b.name| < |a.name|;
    } else if '-' in a.spec.name {
      var i :| 0 <= i < |a.spec.name| && a.spec.name[i] == '-';
      var b := a.(name := a.name + "-" + a.spec.name[..i], spec := a.spec.(name := a.spec.name[i+1..]));
      assert a.spec.name == a.spec.name[..i] + "-" + b.spec.name;
      assert NamespaceOf(b) == NamespaceOf(a) && |b.name| > |a.name|;
    } else {
      forall b: Tenant | NamespaceOf(b) == NamespaceOf(a) ensures b.name == a.name && b.spec.name == a.spec.name {
        HyphenFreeIsAlone(a, b);
      }
    }
  }

  lemma HyphenFreeIsAlone(a: Tenant, b: Tenant)
    requires '-' !in a.name && '-' !in a.spec.name && NamespaceOf(b) == NamespaceOf(a)
    ensures b.name == a.name && b.spec.name == a.spec.name
  {
    hide Split;
    PrintedSplits(a.name, a.spec.name);
    PrintedSplits(b.name, b.spec.name);
    SplitWhole(a.name, '-');
    SplitWhole(a.spec.name, '-');
    OnePartIff(b.name, '-');
    OnePartIff(b.spec.name, '-');
    var bn, bs := Split(b.name, '-'), Split(b.spec.name, '-');
    assert ["tenant"] + [a.name] + [a.spec.name] == ["tenant"] + bn + bs;
    assert |bn| + |bs| == 2;
    assert (["tenant"] + bn + bs)[1] == bn[0] && (["tenant"] + bn + bs)[2] == bs[0];
  }

  /** For example. */
  lemma HyphensCollide(a: Tenant, b: Tenant)
    requires a.name == "a-b" && a.spec.name == "c" && b.name == "a" && b.spec.name == "b-c"
    ensures NamespaceOf(a) == NamespaceOf(b)
  {
    assert NamespaceOf(a) == "tenant-a-b-c";
    assert NamespaceOf(b) == "tenant-a-b-c";
  }

  // ---------------------------------------------------------------- what the patch does

  predicate HasMetadata(pod: Json) {
    pod.Obj? && "metadata" in pod.fields && pod.fields["metadata"].Obj?
  }

  function TenantLabels(name: string, tier: string): Json {
    Obj(map["tenant.k8s-mtp.io" + "/" + "name" := Str(name), "tenant.k8s-mtp.io" + "/" + "tier" := Str(tier)])
  }

  /** The pod with these labels instead of whatever labels it had, and otherwise the same. */
  function Relabelled(pod: Json, labels: Json): Json
    requires HasMetadata(pod)
  {
    Obj(pod.fields["metadata" := Obj(pod.fields["metadata"].fields["labels" := labels])])
  }

  lemma {:induction false} UnescapeWhole(s: string)
    requires '~' !in s
    ensures Unescape(s) == s
  {
    if s != "" { UnescapeWhole(s[1..]); }
  }

  lemma {:induction false} UnescapeSlash(a: string, b: string)
    requires '~' !in a && '~' !in b
    ensures Unescape(a + "~1" + b) == a + "/" + b
  {
    var s := a + "~1" + b;
    if a == "" {
      assert s[0] == '~' && s[1] == '1' && s[2..] == b;
      UnescapeWhole(b);
    } else {
      UnescapeSlash(a[1..], b);
      assert s[0] == a[0] && s[1..] == a[1..] + "~1" + b;
      assert a == [a[0]] + a[1..];
      assert [a[0]] + (a[1..] + "/" + b) == a + "/" + b;
    }
  }

  lemma PointerTokens(parts: seq<string>)
    requires parts != [] && FreeOf(parts, '/')
    ensures Tokens("/" + Join(parts, '/')) == Some(UnescapeAll(parts))
  {
    hide Join, Split, UnescapeAll;
    SplitAfterJoin(parts, '/');
    assert ("/" + Join(parts, '/'))[1..] == Join(parts, '/');
  }

  lemma TwoParts(a: string, b: string)
    ensures UnescapeAll([a, b]) == [Unescape(a), Unescape(b)]
    ensures "/" + Join([a, b], '/') == "/" + a + "/" + b
  {
    hide Unescape;
    assert [a, b][1..] == [b] && [b][1..] == [];
    assert UnescapeAll([b]) == [Unescape(b)];
  }

  lemma ThreeParts(a: string, b: string, c: string)
    ensures UnescapeAll([a, b, c]) == [Unescape(a), Unescape(b), Unescape(c)]
    ensures "/" + Join([a, b, c], '/') == ("/" + a + "/" + b) + "/" + c
  {
    hide Unescape;
    assert [a, b, c][1..] == [b, c];
    TwoParts(b, c);
    assert Join([b, c], '/') == b + ['/'] + c by { assert [b, c][1..] == [c]; }
  }

  lemma LabelsTokens()
    ensures Tokens(LABELS) == Some(["metadata", "labels"])
  {
    var metadata, labels := "metadata", "labels";
    assert '~' !in metadata && '~' !in labels && FreeOf([metadata, labels], '/');
    hide Tokens, Unescape;
    TwoParts(metadata, labels);
    UnescapeWhole(metadata);
    UnescapeWhole(labels);
    PointerTokens([metadata, labels]);
  }

  lemma LabelTokens(metadata: string, labels: string, domain: string, last: string)
    requires FreeOf([metadata, labels, domain, last], '~') && FreeOf([metadata, labels, domain, last], '/')
    ensures Tokens("/" + metadata + "/" + labels + "/" + (domain + "~1" + last))
            == Some([metadata, labels, domain + "/" + last])
  {
    var all, third := [metadata, labels, domain, last], domain + "~1" + last;
    assert '~' !in all[0] && '~' !in all[1] && '~' !in all[2] && '~' !in all[3];
    assert '/' !in all[0] && '/' !in all[1] && '/' !in all[2] && '/' !in all[3];
    hide Tokens, Unescape;
    UnescapeSlash(domain, last);
    UnescapeWhole(metadata);
    UnescapeWhole(labels);
    ThreeParts(metadata, labels, third);
    PointerTokens([metadata, labels, third]);
  }

  lemma PathTokens()
    ensures Tokens(LABELS) == Some(["metadata", "labels"])
    ensures Tokens(NAME_LABEL) == Some(["metadata", "labels", "tenant.k8s-mtp.io" + "/" + "name"])
    ensures Tokens(TIER_LABEL) == Some(["metadata", "labels", "tenant.k8s-mtp.io" + "/" + "tier"])
  {
    hide Tokens;
    LabelsTokens();
    LabelTokens("metadata", "labels", "tenant.k8s-mtp.io", "name");
    LabelTokens("metadata", "labels", "tenant.k8s-mtp.io", "tier");
  }

  lemma AddLabels(pod: Json, labels: Json)
    ensures Add(pod, ["metadata", "labels"], labels)
            == if HasMetadata(pod) then Some(Relabelled(pod, labels)) else None
  {
    assert ["metadata", "labels"][1..] == ["labels"];
  }

  lemma AddLabel(pod: Json, labels: map<string, Json>, key: string, value: Json)
    requires HasMetadata(pod)
    ensures Add(Relabelled(pod, Obj(labels)), ["metadata", "labels", key], value)
            == Some(Relabelled(pod, Obj(labels[key := value])))
  {
    var path, meta := ["metadata", "labels", key], pod.fields["metadata"].fields;
    var before, after := Obj(labels), Obj(labels[key := value]);
    assert path[1..] == ["labels", key] && ["labels", key][1..] == [key];
    assert Add(before, [key], value) == Some(after);
    assert meta["labels" := before]["labels" := after] == meta["labels" := after];
    assert Add(Obj(meta["labels" := before]), ["labels", key], value) == Some(Obj(meta["labels" := after]));
    var one, two := Obj(meta["labels" := before]), Obj(meta["labels" := after]);
    assert pod.fields["metadata" := one]["metadata" := two] == pod.fields["metadata" := two];
  }

  lemma ApplyStep(doc: Json, op: AddOp, rest: seq<AddOp>)
    ensures Apply(doc, [op] + rest) ==
            match ApplyOp(doc, op) case None => None case Some(next) => Apply(next, rest)
  {
    assert ([op] + rest)[1..] == rest;
  }

  lemma ApplyThree(doc: Json, a: AddOp, b: AddOp, c: AddOp)
    ensures Apply(doc, [a, b, c]) ==
            match ApplyOp(doc, a)
            case None => None
            case Some(one) =>
              match ApplyOp(one, b)
              case None => None
              case Some(two) => ApplyOp(two, c)
  {
    hide ApplyOp;
    assert [a, b, c] == [a] + [b, c] && [b, c] == [b] + [c] && [c] == [c] + [];
    ApplyStep(doc, a, [b, c]);
    if ApplyOp(doc, a).Some? {
      var one := ApplyOp(doc, a).value;
      ApplyStep(one, b, [c]);
      if ApplyOp(one, b).Some? { ApplyStep(ApplyOp(one, b).value, c, []); }
    }
  }

  lemma PatchRelabels(ns: string, pod: Json)
    requires Mutate(ns).Patched?
    ensures var parts := Split(ns, '-');
            |parts| >= 3
            && Apply(pod, Mutate(ns).ops)
               == if HasMetadata(pod) then Some(Relabelled(pod, TenantLabels(parts[1], parts[2]))) else None
  {
    var parts := Split(ns, '-');
    var name, tier := Str(parts[1]), Str(parts[2]);
    hide Split, Tokens, Add, Relabelled;
    PathTokens();
    ApplyThree(pod, AddOp(LABELS, Obj(map[])), AddOp(NAME_LABEL, name), AddOp(TIER_LABEL, tier));
    AddLabels(pod, Obj(map[]));
    if HasMetadata(pod) {
      var nameKey, tierKey := "tenant.k8s-mtp.io" + "/" + "name", "tenant.k8s-mtp.io" + "/" + "tier";
      AddLabel(pod, map[], nameKey, name);
      AddLabel(pod, map[][nameKey := name], tierKey, tier);
    }
  }

  /** The patch applies exactly to documents with a metadata object; it leaves the two tenant labels and
      no other label, changes nothing else, and applying it twice is applying it once. */
  lemma PatchSetsTenantLabels(ns: string, pod: Json)
    requires Mutate(ns).Patched?
    ensures Apply(pod, Mutate(ns).ops).Some? <==> HasMetadata(pod)
    ensures HasMetadata(pod) ==>
              var patched := Apply(pod, Mutate(ns).ops).value;
              && |Split(ns, '-')| >= 3
              && HasMetadata(patched)
              && patched.fields["metadata"].fields.Keys == pod.fields["metadata"].fields.Keys + {"labels"}
              && patched.fields["metadata"].fields["labels"]
                 == Obj(map["tenant.k8s-mtp.io/name" := Str(Split(ns, '-')[1]),
                            "tenant.k8s-mtp.io/tier" := Str(Split(ns, '-')[2])])
              && patched.fields["metadata"].fields - {"labels"} == pod.fields["metadata"].fields - {"labels"}
              && patched.fields - {"metadata"} == pod.fields - {"metadata"}
              && Apply(patched, Mutate(ns).ops) == Some(patched)
  {
    PatchRelabels(ns, pod);
    assert "tenant.k8s-mtp.io" + "/" + "name" == "tenant.k8s-mtp.io/name";
    assert "tenant.k8s-mtp.io" + "/" + "tier" == "tenant.k8s-mtp.io/tier";
    if HasMetadata(pod) {
      var labels := TenantLabels(Split(ns, '-')[1], Split(ns, '-')[2]);
      PatchRelabels(ns, Relabelled(pod, labels));
      hide Apply, Mutate, Split, TenantLabels;
      RelabelTwice(pod, labels);
    }
  }

  lemma RelabelTwice(pod: Json, labels: Json)
    requires HasMetadata(pod)
    ensures var p := Relabelled(pod, labels); HasMetadata(p) && Relabelled(p, labels) == p
  {
    var meta := pod.fields["metadata"].fields["labels" := labels];
    assert meta["labels" := labels] == meta;
    assert pod.fields["metadata" := Obj(meta)]["metadata" := Obj(meta)] == pod.fields["metadata" := Obj(meta)];
  }
}
