/** `analyzeRBAC` of src/rbac.js: Roles grouped by namespace, ClusterRoles by name
    prefix, and the grants of RoleBindings and ClusterRoleBindings indexed by subject and
    by role. */
module Rbac {
  import opened Js

  datatype Role = Role(name: string, namespace: Option<string>)

  datatype ClusterRole = ClusterRole(name: string)

  datatype Subject = Subject(kind: string, name: string)

  datatype RoleRef = RoleRef(kind: string, name: string)

  /** A RoleBinding or ClusterRoleBinding; `subjects` is absent when the object has none,
      and a ClusterRoleBinding's namespace is never read. */
  datatype Binding = Binding(name: string, namespace: Option<string>, roleRef: RoleRef, subjects: Option<seq<Subject>>)

  /** An entry of `bindingsBySubject`; `namespace` only on RoleBinding entries. */
  datatype SubjectEntry = SubjectEntry(kind: string, name: string, namespace: Option<string>, role: string, roleKind: string)

  /** An entry of `bindingsByRole`. */
  datatype RoleEntry = RoleEntry(kind: string, name: string, namespace: Option<string>, subjects: seq<string>)

  /** One (binding, subject) pair: the subject's key and the entry filed under it. */
  datatype Grant = Grant(key: string, entry: SubjectEntry)

  datatype RbacAnalysis = RbacAnalysis(
    totalRoles: nat,
    totalClusterRoles: nat,
    totalRoleBindings: nat,
    totalClusterRoleBindings: nat,
    rolesByNamespace: Dict<seq<string>>,
    clusterRolesByPrefix: Dict<seq<string>>,
    bindingsBySubject: Dict<seq<SubjectEntry>>,
    bindingsByRole: Dict<seq<RoleEntry>>)

  /** The error `analyzeRBAC` rethrows when a binding has no `subjects` to iterate. */
  const SubjectsFailure := "Failed to analyze RBAC: Cannot read properties of undefined (reading 'forEach')"

  function RoleName(r: Role): string { r.name }
  function RoleNamespace(r: Role): string { OrDefault(r.namespace, "default") }
  function ClusterRoleName(c: ClusterRole): string { c.name }

  /** `name.split('-')[0]` */
  function Prefix(c: ClusterRole): string { FirstPiece(c.name, '-') }

  /** `${kind}:${name}` */
  function SubjectKey(s: Subject): string { s.kind + ":" + s.name }

  /** `${roleRef.kind}:${roleRef.name}` */
  function RoleKey(b: Binding): string { b.roleRef.kind + ":" + b.roleRef.name }

  function BindingNamespace(b: Binding): string { OrDefault(b.namespace, "default") }

  function Subjects(b: Binding): seq<Subject> { b.subjects.GetOr([]) }

  function SubjectCount(b: Binding): nat { |Subjects(b)| }

  function GrantKey(g: Grant): string { g.key }
  function GrantEntry(g: Grant): SubjectEntry { g.entry }

  /** What a RoleBinding files under each of its subjects. */
  function RoleBindingGrants(b: Binding): seq<Grant> {
    Map(Subjects(b), (s: Subject) =>
      Grant(SubjectKey(s), SubjectEntry("RoleBinding", b.name, Some(BindingNamespace(b)), b.roleRef.name, b.roleRef.kind)))
  }

  /** What a ClusterRoleBinding files under each of its subjects. */
  function ClusterBindingGrants(b: Binding): seq<Grant> {
    Map(Subjects(b), (s: Subject) =>
      Grant(SubjectKey(s), SubjectEntry("ClusterRoleBinding", b.name, None, b.roleRef.name, b.roleRef.kind)))
  }

  function RoleBindingEntry(b: Binding): RoleEntry {
    RoleEntry("RoleBinding", b.name, Some(BindingNamespace(b)), Map(Subjects(b), SubjectKey))
  }

  function ClusterBindingEntry(b: Binding): RoleEntry {
    RoleEntry("ClusterRoleBinding", b.name, None, Map(Subjects(b), SubjectKey))
  }

  predicate AllHaveSubjects(bs: seq<Binding>) {
    forall i :: 0 <= i < |bs| ==> bs[i].subjects.Some?
  }

  function BySubject(roleBindings: seq<Binding>, clusterBindings: seq<Binding>): Dict<seq<SubjectEntry>> {
    GroupBy(GroupBy([], FlatMap(roleBindings, RoleBindingGrants), GrantKey, GrantEntry),
            FlatMap(clusterBindings, ClusterBindingGrants), GrantKey, GrantEntry)
  }

  function ByRole(roleBindings: seq<Binding>, clusterBindings: seq<Binding>): Dict<seq<RoleEntry>> {
    GroupBy(GroupBy([], roleBindings, RoleKey, RoleBindingEntry), clusterBindings, RoleKey, ClusterBindingEntry)
  }

  function AnalysisOf(roles: seq<Role>, clusterRoles: seq<ClusterRole>, roleBindings: seq<Binding>, clusterBindings: seq<Binding>): Result<RbacAnalysis> {
    if !AllHaveSubjects(roleBindings) || !AllHaveSubjects(clusterBindings) then Fail(Invalid(SubjectsFailure))
    else Ok(RbacAnalysis(
      |roles|, |clusterRoles|, |roleBindings|, |clusterBindings|,
      GroupBy([], roles, RoleNamespace, RoleName),
      GroupBy([], clusterRoles, Prefix, ClusterRoleName),
      BySubject(roleBindings, clusterBindings),
      ByRole(roleBindings, clusterBindings)))
  }

  /** Each pair of a binding and one of its subjects is one grant: the grants number
      the subjects of all bindings, and the grant for subject `j` of binding `i` is keyed
      by that subject. */
  lemma {:induction false} GrantsLaws(bs: seq<Binding>)
    ensures |FlatMap(bs, RoleBindingGrants)| == SumNat(bs, SubjectCount)
    ensures |FlatMap(bs, ClusterBindingGrants)| == SumNat(bs, SubjectCount)
    ensures forall i, j :: 0 <= i < |bs| && 0 <= j < SubjectCount(bs[i]) ==>
      RoleBindingGrants(bs[i])[j].key == SubjectKey(Subjects(bs[i])[j]) &&
      ClusterBindingGrants(bs[i])[j].key == SubjectKey(Subjects(bs[i])[j])
  {
    FlatMapLength(bs, RoleBindingGrants, SubjectCount);
    FlatMapLength(bs, ClusterBindingGrants, SubjectCount);
  }

  /** A grant filed by a RoleBinding names the binding's namespace (or `default`); one filed
      by a ClusterRoleBinding names none. */
  lemma {:induction false} GrantKinds(bs: seq<Binding>)
    ensures forall k :: 0 <= k < |FlatMap(bs, RoleBindingGrants)| ==>
      FlatMap(bs, RoleBindingGrants)[k].entry.kind == "RoleBinding" && FlatMap(bs, RoleBindingGrants)[k].entry.namespace.Some?
    ensures forall k :: 0 <= k < |FlatMap(bs, ClusterBindingGrants)| ==>
      FlatMap(bs, ClusterBindingGrants)[k].entry.kind == "ClusterRoleBinding" && FlatMap(bs, ClusterBindingGrants)[k].entry.namespace.None?
  {
    FlatMapAll(bs, RoleBindingGrants, (g: Grant) => g.entry.kind == "RoleBinding" && g.entry.namespace.Some?);
    FlatMapAll(bs, ClusterBindingGrants, (g: Grant) => g.entry.kind == "ClusterRoleBinding" && g.entry.namespace.None?);
  }

  /** The analysis fails exactly when some binding has no subjects. */
  lemma AnalysisFails(roles: seq<Role>, clusterRoles: seq<ClusterRole>, roleBindings: seq<Binding>, clusterBindings: seq<Binding>)
    ensures AnalysisOf(roles, clusterRoles, roleBindings, clusterBindings).Fail? <==>
      (exists i :: 0 <= i < |roleBindings| && roleBindings[i].subjects.None?) ||
      (exists i :: 0 <= i < |clusterBindings| && clusterBindings[i].subjects.None?)
  {
  }

  /** Otherwise the four totals are the input lengths; each Role is listed once, under
      its namespace or `default`; each ClusterRole once, under the text before the first
      `-` of its name. */
  lemma {:induction false} RoleLaws(roles: seq<Role>, clusterRoles: seq<ClusterRole>, roleBindings: seq<Binding>, clusterBindings: seq<Binding>, k: string)
    requires AnalysisOf(roles, clusterRoles, roleBindings, clusterBindings).Ok?
    ensures var a := AnalysisOf(roles, clusterRoles, roleBindings, clusterBindings).value;
      a.totalRoles == |roles| && a.totalClusterRoles == |clusterRoles| &&
      a.totalRoleBindings == |roleBindings| && a.totalClusterRoleBindings == |clusterBindings| &&
      TotalListed(a.rolesByNamespace) == |roles| &&
      ListAt(a.rolesByNamespace, k) == Select(roles, RoleNamespace, RoleName, k) &&
      DistinctKeys(a.rolesByNamespace) &&
      TotalListed(a.clusterRolesByPrefix) == |clusterRoles| &&
      ListAt(a.clusterRolesByPrefix, k) == Select(clusterRoles, Prefix, ClusterRoleName, k) &&
      DistinctKeys(a.clusterRolesByPrefix)
  {
    GroupByLaws([], roles, RoleNamespace, RoleName, k);
    GroupByLaws([], clusterRoles, Prefix, ClusterRoleName, k);
  }

  /** The subject index holds one entry per (binding, subject) pair, the RoleBindings'
      before the ClusterRoleBindings', each filed under its subject's `kind:name`. */
  lemma {:induction false} SubjectIndexLaws(roleBindings: seq<Binding>, clusterBindings: seq<Binding>, k: string)
    ensures TotalListed(BySubject(roleBindings, clusterBindings)) ==
      SumNat(roleBindings, SubjectCount) + SumNat(clusterBindings, SubjectCount)
    ensures ListAt(BySubject(roleBindings, clusterBindings), k) ==
      Select(FlatMap(roleBindings, RoleBindingGrants), GrantKey, GrantEntry, k) +
      Select(FlatMap(clusterBindings, ClusterBindingGrants), GrantKey, GrantEntry, k)
    ensures DistinctKeys(BySubject(roleBindings, clusterBindings))
  {
    var rg := FlatMap(roleBindings, RoleBindingGrants);
    var cg := FlatMap(clusterBindings, ClusterBindingGrants);
    GrantsLaws(roleBindings);
    GrantsLaws(clusterBindings);
    var empty: Dict<seq<SubjectEntry>> := [];
    var first := GroupBy(empty, rg, GrantKey, GrantEntry);
    GroupByLaws(empty, rg, GrantKey, GrantEntry, k);
    GroupByLaws(first, cg, GrantKey, GrantEntry, k);
    assert ListAt(first, k) == Select(rg, GrantKey, GrantEntry, k) by {
      assert ListAt(empty, k) == [];
    }
  }

  /** The role index holds one entry per binding, the RoleBindings' first, each filed
      under `kind:name` of its roleRef. */
  lemma {:induction false} RoleIndexLaws(roleBindings: seq<Binding>, clusterBindings: seq<Binding>, k: string)
    ensures TotalListed(ByRole(roleBindings, clusterBindings)) == |roleBindings| + |clusterBindings|
    ensures ListAt(ByRole(roleBindings, clusterBindings), k) ==
      Select(roleBindings, RoleKey, RoleBindingEntry, k) + Select(clusterBindings, RoleKey, ClusterBindingEntry, k)
    ensures DistinctKeys(ByRole(roleBindings, clusterBindings))
  {
    var empty: Dict<seq<RoleEntry>> := [];
    var first := GroupBy(empty, roleBindings, RoleKey, RoleBindingEntry);
    GroupByLaws(empty, roleBindings, RoleKey, RoleBindingEntry, k);
    GroupByLaws(first, clusterBindings, RoleKey, ClusterBindingEntry, k);
    assert ListAt(first, k) == Select(roleBindings, RoleKey, RoleBindingEntry, k) by {
      assert ListAt(empty, k) == [];
    }
  }

  /** `binding.subjects.forEach(...)` for one binding: the grants pushed into the subject
      index, or the failure when the binding has no subjects. */
  method FileGrants(index: Dict<seq<SubjectEntry>>, b: Binding, cluster: bool) returns (r: Option<Dict<seq<SubjectEntry>>>)
    ensures b.subjects.None? ==> r.None?
    ensures b.subjects.Some? ==> r == Some(GroupBy(index, GrantsOf(b, cluster), GrantKey, GrantEntry))
  {
    if b.subjects.None? {
      return None;
    }
    var subjects := b.subjects.value;
    var grants := GrantsOf(b, cluster);
    var d := index;
    var j := 0;
    while j < |subjects|
      invariant 0 <= j <= |subjects|
      invariant d == GroupBy(index, grants[..j], GrantKey, GrantEntry)
    {
      var prefix := grants[..j + 1];
      assert prefix[..j] == grants[..j];
      var subject := subjects[j];
      var entry := if cluster then SubjectEntry("ClusterRoleBinding", b.name, None, b.roleRef.name, b.roleRef.kind)
                   else SubjectEntry("RoleBinding", b.name, Some(OrDefault(b.namespace, "default")), b.roleRef.name, b.roleRef.kind);
      assert grants[j] == Grant(SubjectKey(subject), entry);
      d := Push(d, subject.kind + ":" + subject.name, entry);
      j := j + 1;
    }
    assert grants[..j] == grants;
    return Some(d);
  }

  /** The grants a binding files: those of a ClusterRoleBinding or of a RoleBinding. */
  function GrantsOf(b: Binding, cluster: bool): seq<Grant> {
    if cluster then ClusterBindingGrants(b) else RoleBindingGrants(b)
  }

  /** The entry a binding files in the role index. */
  function EntryOf(b: Binding, cluster: bool): RoleEntry {
    if cluster then ClusterBindingEntry(b) else RoleBindingEntry(b)
  }

  /** The subject index after filing the grants of `bs`. */
  function SubjectIndex(init: Dict<seq<SubjectEntry>>, bs: seq<Binding>, cluster: bool): Dict<seq<SubjectEntry>> {
    if cluster then GroupBy(init, FlatMap(bs, ClusterBindingGrants), GrantKey, GrantEntry)
    else GroupBy(init, FlatMap(bs, RoleBindingGrants), GrantKey, GrantEntry)
  }

  /** The role index after filing the role entries of `bs`. */
  function RoleIndex(init: Dict<seq<RoleEntry>>, bs: seq<Binding>, cluster: bool): Dict<seq<RoleEntry>> {
    if cluster then GroupBy(init, bs, RoleKey, ClusterBindingEntry)
    else GroupBy(init, bs, RoleKey, RoleBindingEntry)
  }

  /** Filing one more binding extends the subject index by that binding's grants. */
  lemma SubjectIndexSnoc(bySubject: Dict<seq<SubjectEntry>>, bs: seq<Binding>, i: nat, cluster: bool)
    requires i < |bs|
    ensures SubjectIndex(bySubject, bs[..i + 1], cluster) ==
      GroupBy(SubjectIndex(bySubject, bs[..i], cluster), GrantsOf(bs[i], cluster), GrantKey, GrantEntry)
  {
    if cluster {
      FlatMapSnoc(bs, i, ClusterBindingGrants);
      GroupByAppend(bySubject, FlatMap(bs[..i], ClusterBindingGrants), ClusterBindingGrants(bs[i]), GrantKey, GrantEntry);
    } else {
      FlatMapSnoc(bs, i, RoleBindingGrants);
      GroupByAppend(bySubject, FlatMap(bs[..i], RoleBindingGrants), RoleBindingGrants(bs[i]), GrantKey, GrantEntry);
    }
  }

  /** Filing one more binding extends the role index by that binding's entry. */
  lemma RoleIndexSnoc(byRole: Dict<seq<RoleEntry>>, bs: seq<Binding>, i: nat, cluster: bool)
    requires i < |bs|
    ensures RoleIndex(byRole, bs[..i + 1], cluster) ==
      Push(RoleIndex(byRole, bs[..i], cluster), RoleKey(bs[i]), EntryOf(bs[i], cluster))
  {
    if cluster {
      GroupBySnoc(byRole, bs, i, RoleKey, ClusterBindingEntry);
    } else {
      GroupBySnoc(byRole, bs, i, RoleKey, RoleBindingEntry);
    }
  }

  lemma SubjectsSnoc(bs: seq<Binding>, i: nat)
    requires i < |bs| && AllHaveSubjects(bs[..i]) && bs[i].subjects.Some?
    ensures AllHaveSubjects(bs[..i + 1])
  {
    var prefix := bs[..i + 1];
    assert prefix[..i] == bs[..i];
  }

  /** One `forEach` over a list of bindings: each files its grants and its role entry. */
  method FileBindings(bySubject: Dict<seq<SubjectEntry>>, byRole: Dict<seq<RoleEntry>>, bs: seq<Binding>, cluster: bool)
    returns (r: Option<(Dict<seq<SubjectEntry>>, Dict<seq<RoleEntry>>)>)
    ensures r.None? <==> !AllHaveSubjects(bs)
    ensures r.Some? ==> r.value == (SubjectIndex(bySubject, bs, cluster), RoleIndex(byRole, bs, cluster))
  {
    var s := bySubject;
    var ro := byRole;
    var i := 0;
    while i < |bs|
      invariant 0 <= i <= |bs|
      invariant AllHaveSubjects(bs[..i])
      invariant s == SubjectIndex(bySubject, bs[..i], cluster)
      invariant ro == RoleIndex(byRole, bs[..i], cluster)
    {
      var b := bs[i];
      var filed := FileGrants(s, b, cluster);
      if filed.None? {
        assert !AllHaveSubjects(bs) by { assert bs[i].subjects.None?; }
        return None;
      }
      SubjectIndexSnoc(bySubject, bs, i, cluster);
      RoleIndexSnoc(byRole, bs, i, cluster);
      SubjectsSnoc(bs, i);
      s := filed.value;
      ro := Push(ro, b.roleRef.kind + ":" + b.roleRef.name, EntryOf(b, cluster));
      i := i + 1;
    }
    TakeAll(bs);
    return Some((s, ro));
  }

  /** `analyzeRBAC(roles, clusterRoles, roleBindings, clusterRoleBindings)`. */
  method AnalyzeRbac(roles: seq<Role>, clusterRoles: seq<ClusterRole>, roleBindings: seq<Binding>, clusterBindings: seq<Binding>)
    returns (r: Result<RbacAnalysis>)
    ensures r == AnalysisOf(roles, clusterRoles, roleBindings, clusterBindings)
  {
    var byNamespace: Dict<seq<string>> := [];
    var i := 0;
    while i < |roles|
      invariant 0 <= i <= |roles|
      invariant byNamespace == GroupBy([], roles[..i], RoleNamespace, RoleName)
    {
      var prefix := roles[..i + 1];
      assert prefix[..i] == roles[..i];
      byNamespace := Push(byNamespace, OrDefault(roles[i].namespace, "default"), roles[i].name);
      i := i + 1;
    }
    assert roles[..i] == roles;

    var byPrefix: Dict<seq<string>> := [];
    var j := 0;
    while j < |clusterRoles|
      invariant 0 <= j <= |clusterRoles|
      invariant byPrefix == GroupBy([], clusterRoles[..j], Prefix, ClusterRoleName)
    {
      var prefix := clusterRoles[..j + 1];
      assert prefix[..j] == clusterRoles[..j];
      byPrefix := Push(byPrefix, Split(clusterRoles[j].name, '-')[0], clusterRoles[j].name);
      j := j + 1;
    }
    assert clusterRoles[..j] == clusterRoles;

    var first := FileBindings([], [], roleBindings, false);
    if first.None? {
      return Fail(Invalid(SubjectsFailure));
    }
    var second := FileBindings(first.value.0, first.value.1, clusterBindings, true);
    if second.None? {
      return Fail(Invalid(SubjectsFailure));
    }
    r := Ok(RbacAnalysis(|roles|, |clusterRoles|, |roleBindings|, |clusterBindings|,
                         byNamespace, byPrefix, second.value.0, second.value.1));
  }
}
