// Tenant and tenant-user store of src/multitenancy.js: tenant CRUD, the
// in-memory effect of tenant deletion (with its single-user cascade), the
// tenant-user CRUD, the listing filters, the statistics and the verbs of the
// role a tenant is provisioned with.

module Tenancy {
  import opened Js

  // ------------------------------------------------------------------------
  // Records
  // ------------------------------------------------------------------------

  datatype Quotas = Quotas(cpu: string, memory: string, pods: string, services: string, persistentVolumeClaims: string)

  datatype NetworkSettings = NetworkSettings(enabled: bool, defaultDeny: bool)

  datatype RbacSettings = RbacSettings(enabled: bool, defaultRole: string)

  datatype Tenant = Tenant(
    id: string,
    name: string,
    description: string,
    namespaces: seq<string>,
    resourceQuotas: Quotas,
    networkPolicies: NetworkSettings,
    rbac: RbacSettings,
    createdAt: int,
    updatedAt: int)

  /** The fields a caller passes to `createTenant`; None is an absent field. */
  datatype TenantInput = TenantInput(
    name: string,
    description: Option<string>,
    namespaces: Option<seq<string>>,
    resourceQuotas: Option<Quotas>,
    networkPolicies: Option<NetworkSettings>,
    rbac: Option<RbacSettings>)

  /** The keys of an `updateTenant` updates object; None is an absent key.
      `id` and `updatedAt` are always overwritten, so they cannot be patched. */
  datatype TenantPatch = TenantPatch(
    name: Option<string>,
    description: Option<string>,
    namespaces: Option<seq<string>>,
    resourceQuotas: Option<Quotas>,
    networkPolicies: Option<NetworkSettings>,
    rbac: Option<RbacSettings>,
    createdAt: Option<int>)

  datatype TenantUser = TenantUser(
    id: string,
    tenantId: string,
    username: string,
    email: string,
    role: string,
    namespaces: seq<string>,
    createdAt: int)

  datatype UserInput = UserInput(
    username: string,
    email: Option<string>,
    role: Option<string>,
    namespaces: Option<seq<string>>)

  /** The keys of an `updateTenantUser` updates object; `id` is always overwritten. */
  datatype UserPatch = UserPatch(
    tenantId: Option<string>,
    username: Option<string>,
    email: Option<string>,
    role: Option<string>,
    namespaces: Option<seq<string>>,
    createdAt: Option<int>)

  function TenantId(t: Tenant): string { t.id }
  function UserId(u: TenantUser): string { u.id }
  function UserTenant(u: TenantUser): string { u.tenantId }

  // ------------------------------------------------------------------------
  // Tenants
  // ------------------------------------------------------------------------

  /** The built-in tenant list used when no tenant file exists. */
  function DefaultTenants(now: int): (r: seq<Tenant>)
    ensures |r| == 1 && r[0].id == "default" && r[0].rbac == RbacSettings(true, "view")
    ensures r[0].namespaces == ["default", "kube-system", "kube-public"]
  {
    [Tenant("default", "Default", "默认租户", ["default", "kube-system", "kube-public"],
            Quotas("10", "20Gi", "100", "50", "20"), NetworkSettings(true, false), RbacSettings(true, "view"),
            now, now)]
  }

  /** The tenant record `createTenant` builds, with its defaults. */
  function NewTenant(input: TenantInput, id: string, now: int): Tenant {
    Tenant(id, input.name, OrDefault(input.description, ""), input.namespaces.GetOr([]),
           input.resourceQuotas.GetOr(Quotas("4", "8Gi", "50", "20", "10")),
           input.networkPolicies.GetOr(NetworkSettings(true, true)),
           input.rbac.GetOr(RbacSettings(true, "edit")),
           now, now)
  }

  /** One cluster call `createTenant` makes for a namespace. */
  datatype Provision =
    | EnsureNamespace(namespace: string)
    | CreateQuota(namespace: string, quotas: Quotas)
    | CreateDenyPolicy(namespace: string)
    | CreateRole(namespace: string, roleName: string, verbs: seq<string>)

  /** The verbs of both rules of the role `createTenantRBAC` creates. */
  function RoleVerbs(defaultRole: string): seq<string> {
    if defaultRole == "admin" then ["*"] else ["get", "list", "watch"]
  }

  lemma RoleVerbsLaws(defaultRole: string)
    ensures "*" in RoleVerbs(defaultRole) <==> defaultRole == "admin"
    ensures defaultRole == "admin" ==> RoleVerbs(defaultRole) == ["*"]
    ensures defaultRole != "admin" ==> RoleVerbs(defaultRole) == ["get", "list", "watch"]
  {
    if defaultRole != "admin" {
      assert RoleVerbs(defaultRole)[0] != "*" && RoleVerbs(defaultRole)[1] != "*" && RoleVerbs(defaultRole)[2] != "*";
    }
  }

  /** The calls made for one namespace of tenant `t`, in order. */
  function NamespaceProvision(t: Tenant, ns: string): seq<Provision> {
    [EnsureNamespace(ns), CreateQuota(ns, t.resourceQuotas)]
    + When(t.networkPolicies.enabled && t.networkPolicies.defaultDeny, CreateDenyPolicy(ns))
    + When(t.rbac.enabled, CreateRole(ns, t.id + "-role", RoleVerbs(t.rbac.defaultRole)))
  }

  /** The calls `createTenant` makes, namespace by namespace. */
  function ProvisionPlan(t: Tenant): seq<Provision> {
    FlatMap(t.namespaces, ns => NamespaceProvision(t, ns))
  }

  function IsRole(p: Provision): bool { p.CreateRole? }

  /** One namespace gets one role when RBAC is enabled and none otherwise, and only
      roles with the tenant's role name and verbs. */
  lemma NamespaceRoles(t: Tenant, ns: string)
    ensures Count(NamespaceProvision(t, ns), IsRole) == (if t.rbac.enabled then 1 else 0)
    ensures forall p :: p in NamespaceProvision(t, ns) && p.CreateRole? ==>
      p.verbs == RoleVerbs(t.rbac.defaultRole) && p.roleName == t.id + "-role"
  {
    var a := [EnsureNamespace(ns), CreateQuota(ns, t.resourceQuotas)];
    var b := When(t.networkPolicies.enabled && t.networkPolicies.defaultDeny, CreateDenyPolicy(ns));
    var c := When(t.rbac.enabled, CreateRole(ns, t.id + "-role", RoleVerbs(t.rbac.defaultRole)));
    assert NamespaceProvision(t, ns) == a + b + c;
    CountAppend(a + b, c, IsRole);
    CountAppend(a, b, IsRole);
    assert a == [EnsureNamespace(ns)] + [CreateQuota(ns, t.resourceQuotas)];
    CountAppend([EnsureNamespace(ns)], [CreateQuota(ns, t.resourceQuotas)], IsRole);
    assert [EnsureNamespace(ns)][..0] == [];
    assert [CreateQuota(ns, t.resourceQuotas)][..0] == [];
    CountWhen(t.networkPolicies.enabled && t.networkPolicies.defaultDeny, CreateDenyPolicy(ns), IsRole);
    CountWhen(t.rbac.enabled, CreateRole(ns, t.id + "-role", RoleVerbs(t.rbac.defaultRole)), IsRole);
  }

  /** A role is created in every namespace when RBAC is enabled and in none otherwise. */
  lemma {:induction false} ProvisionRoleCount(t: Tenant)
    ensures Count(ProvisionPlan(t), IsRole) == (if t.rbac.enabled then |t.namespaces| else 0)
  {
    var f := (ns: string) => NamespaceProvision(t, ns);
    var per := (ns: string) => if t.rbac.enabled then 1 else 0;
    forall ns: string ensures Count(f(ns), IsRole) == per(ns) {
      NamespaceRoles(t, ns);
    }
    CountFlatMap(t.namespaces, f, IsRole, per);
    SumConst(t.namespaces, per, if t.rbac.enabled then 1 else 0);
  }

  /** Every role created carries the tenant's role name and the verbs chosen from its
      default role. */
  lemma {:induction false} ProvisionRoleVerbs(t: Tenant)
    ensures forall i :: 0 <= i < |ProvisionPlan(t)| && ProvisionPlan(t)[i].CreateRole? ==>
      ProvisionPlan(t)[i].verbs == RoleVerbs(t.rbac.defaultRole) && ProvisionPlan(t)[i].roleName == t.id + "-role"
  {
    var good := (p: Provision) => p.CreateRole? ==> p.verbs == RoleVerbs(t.rbac.defaultRole) && p.roleName == t.id + "-role";
    var f := (ns: string) => NamespaceProvision(t, ns);
    forall i, j | 0 <= i < |t.namespaces| && 0 <= j < |f(t.namespaces[i])| ensures good(f(t.namespaces[i])[j]) {
      NamespaceRoles(t, t.namespaces[i]);
      assert f(t.namespaces[i])[j] in NamespaceProvision(t, t.namespaces[i]);
    }
    FlatMapAll(t.namespaces, f, good);
  }

  /** A sum of a constant is that constant times the length. */
  lemma {:induction false} SumConst<T>(s: seq<T>, f: T -> nat, c: nat)
    requires forall x :: f(x) == c
    ensures SumNat(s, f) == c * |s|
    decreases |s|
  {
    if |s| > 0 { SumConst(s[..|s| - 1], f, c); }
  }

  /** `createTenant(tenantData)`. `provision` is the error the cluster calls
      (connecting, or one of the provisioning calls) throw, if any: the tenant
      is then not recorded. */
  function TenantCreation(tenants: seq<Tenant>, input: TenantInput, provision: Option<string>, id: string, now: int)
    : Result<(seq<Tenant>, Tenant)>
  {
    if provision.Some? then Fail(Invalid(provision.value))
    else
      var t := NewTenant(input, id, now);
      Ok((tenants + [t], t))
  }

  lemma CreateTenantLaws(tenants: seq<Tenant>, input: TenantInput, provision: Option<string>, id: string, now: int)
    ensures TenantCreation(tenants, input, provision, id, now).Fail? <==> provision.Some?
    ensures TenantCreation(tenants, input, provision, id, now).Ok? ==>
      var (ts, t) := TenantCreation(tenants, input, provision, id, now).value;
      ts[..|tenants|] == tenants && |ts| == |tenants| + 1 && ts[|tenants|] == t &&
      t.id == id && t.name == input.name &&
      (input.description.None? || input.description == Some("") ==> t.description == "") &&
      (input.description.Some? && input.description.value != "" ==> t.description == input.description.value) &&
      (input.namespaces.None? ==> t.namespaces == []) &&
      (input.namespaces.Some? ==> t.namespaces == input.namespaces.value) &&
      (input.resourceQuotas.None? ==> t.resourceQuotas == Quotas("4", "8Gi", "50", "20", "10")) &&
      (input.resourceQuotas.Some? ==> t.resourceQuotas == input.resourceQuotas.value) &&
      (input.rbac.None? ==> t.rbac == RbacSettings(true, "edit")) &&
      (input.rbac.Some? ==> t.rbac == input.rbac.value) &&
      (input.networkPolicies.None? ==> t.networkPolicies == NetworkSettings(true, true)) &&
      (input.networkPolicies.Some? ==> t.networkPolicies == input.networkPolicies.value) &&
      t.createdAt == now && t.updatedAt == now
  {
  }

  /** The tenant after `{...t, ...updates, id, updatedAt: now}`. */
  function PatchTenant(t: Tenant, p: TenantPatch, id: string, now: int): Tenant {
    Tenant(id,
           if p.name.Some? then p.name.value else t.name,
           if p.description.Some? then p.description.value else t.description,
           if p.namespaces.Some? then p.namespaces.value else t.namespaces,
           if p.resourceQuotas.Some? then p.resourceQuotas.value else t.resourceQuotas,
           if p.networkPolicies.Some? then p.networkPolicies.value else t.networkPolicies,
           if p.rbac.Some? then p.rbac.value else t.rbac,
           if p.createdAt.Some? then p.createdAt.value else t.createdAt,
           now)
  }

  /** `updateTenant(tenantId, updates)` */
  function TenantUpdate(tenants: seq<Tenant>, tenantId: string, p: TenantPatch, now: int): Result<(seq<Tenant>, Tenant)> {
    var i := IndexOf(tenants, TenantId, tenantId);
    if i < 0 then Fail(NotFound("Tenant not found: " + tenantId))
    else
      var t := PatchTenant(tenants[i], p, tenantId, now);
      Ok((tenants[i := t], t))
  }

  /** An update fails exactly on an unknown id, with the source's message; otherwise the
      first tenant with that id is rewritten in place: it keeps the id, is stamped `now`,
      takes every field the patch sets and keeps every other, and no other tenant changes. */
  lemma UpdateTenantLaws(tenants: seq<Tenant>, tenantId: string, p: TenantPatch, now: int)
    ensures TenantUpdate(tenants, tenantId, p, now).Fail? <==> forall j :: 0 <= j < |tenants| ==> tenants[j].id != tenantId
    ensures TenantUpdate(tenants, tenantId, p, now).Fail? ==>
      TenantUpdate(tenants, tenantId, p, now).error == NotFound("Tenant not found: " + tenantId)
    ensures TenantUpdate(tenants, tenantId, p, now).Ok? ==>
      var (ts, t) := TenantUpdate(tenants, tenantId, p, now).value;
      var i := IndexOf(tenants, TenantId, tenantId);
      |ts| == |tenants| && ts[i] == t && t.id == tenantId && t.updatedAt == now &&
      t.name == p.name.GetOr(tenants[i].name) &&
      t.description == p.description.GetOr(tenants[i].description) &&
      t.namespaces == p.namespaces.GetOr(tenants[i].namespaces) &&
      t.resourceQuotas == p.resourceQuotas.GetOr(tenants[i].resourceQuotas) &&
      t.networkPolicies == p.networkPolicies.GetOr(tenants[i].networkPolicies) &&
      t.rbac == p.rbac.GetOr(tenants[i].rbac) &&
      t.createdAt == p.createdAt.GetOr(tenants[i].createdAt) &&
      forall j :: 0 <= j < |tenants| && j != i ==> ts[j] == tenants[j]
  {
  }

  /** Patching a tenant with its own id and an empty patch only refreshes `updatedAt`. */
  lemma EmptyPatchTouchesOnlyUpdatedAt(t: Tenant, now: int)
    ensures PatchTenant(t, TenantPatch(None, None, None, None, None, None, None), t.id, now) == t.(updatedAt := now)
  {
  }

  /** The in-memory effect of `deleteTenant(tenantId)`: the tenant is removed, and so
      is the FIRST tenant user whose `tenantId` matches, if any; any other user of that
      tenant stays. `connect` is the error connecting to the cluster throws, if any
      (it is thrown after the lookup and before anything is removed); errors of the
      per-namespace resource deletions are caught and do not matter. */
  function TenantRemoval(tenants: seq<Tenant>, users: seq<TenantUser>, tenantId: string, connect: Option<string>)
    : Result<(seq<Tenant>, seq<TenantUser>, Tenant)>
  {
    var i := IndexOf(tenants, TenantId, tenantId);
    if i < 0 then Fail(NotFound("Tenant not found: " + tenantId))
    else if connect.Some? then Fail(Invalid(connect.value))
    else
      var j := IndexOf(users, UserTenant, tenantId);
      var users' := if j < 0 then users else users[..j] + users[j + 1..];
      Ok((tenants[..i] + tenants[i + 1..], users', tenants[i]))
  }

  /** Deleting fails exactly when no tenant has the id or the cluster cannot be reached. */
  lemma DeleteTenantFails(tenants: seq<Tenant>, users: seq<TenantUser>, tenantId: string, connect: Option<string>)
    ensures TenantRemoval(tenants, users, tenantId, connect).Fail? <==>
      connect.Some? || forall k :: 0 <= k < |tenants| ==> tenants[k].id != tenantId
  {
  }

  /** On success the tenant found first is removed and returned, the others staying in
      order. */
  lemma DeleteTenantRemoves(tenants: seq<Tenant>, users: seq<TenantUser>, tenantId: string, connect: Option<string>)
    ensures TenantRemoval(tenants, users, tenantId, connect).Ok? ==>
      var (ts, _, t) := TenantRemoval(tenants, users, tenantId, connect).value;
      var i := IndexOf(tenants, TenantId, tenantId);
      t.id == tenantId && t == tenants[i] && ts == tenants[..i] + tenants[i + 1..] && |ts| == |tenants| - 1
  {
  }

  /** On success the first user of the tenant, if any, is removed too; every other user
      stays, in order. */
  lemma DeleteTenantUsers(tenants: seq<Tenant>, users: seq<TenantUser>, tenantId: string, connect: Option<string>)
    ensures TenantRemoval(tenants, users, tenantId, connect).Ok? ==>
      var us := TenantRemoval(tenants, users, tenantId, connect).value.1;
      ((forall k :: 0 <= k < |users| ==> users[k].tenantId != tenantId) ==> us == users) &&
      ((exists k :: 0 <= k < |users| && users[k].tenantId == tenantId) ==>
        var j := IndexOf(users, UserTenant, tenantId);
        |us| == |users| - 1 && multiset(us) + multiset{users[j]} == multiset(users) &&
        us == users[..j] + users[j + 1..])
  {
    if TenantRemoval(tenants, users, tenantId, connect).Ok? {
      var us := TenantRemoval(tenants, users, tenantId, connect).value.1;
      var j := IndexOf(users, UserTenant, tenantId);
      if j < 0 {
        assert us == users;
      } else {
        assert us == users[..j] + users[j + 1..];
        RemoveAt(users, j);
      }
    }
  }

  /** The cascade is partial: when a tenant has two users, one of them outlives the tenant. */
  lemma DeleteTenantLeavesSecondUser(tenants: seq<Tenant>, users: seq<TenantUser>, tenantId: string, a: nat, b: nat)
    requires a < b < |users| && users[a].tenantId == tenantId && users[b].tenantId == tenantId
    requires exists k :: 0 <= k < |tenants| && tenants[k].id == tenantId
    ensures TenantRemoval(tenants, users, tenantId, None).Ok?
    ensures var us := TenantRemoval(tenants, users, tenantId, None).value.1;
      users[b] in us && exists k :: 0 <= k < |us| && us[k].tenantId == tenantId
  {
    var k :| 0 <= k < |tenants| && tenants[k].id == tenantId;
    assert TenantId(tenants[k]) == tenantId;
    var i := IndexOf(tenants, TenantId, tenantId);
    assert UserTenant(users[a]) == tenantId;
    var j := IndexOf(users, UserTenant, tenantId);
    assert 0 <= i && 0 <= j <= a;
    var us := users[..j] + users[j + 1..];
    assert TenantRemoval(tenants, users, tenantId, None) == Ok((tenants[..i] + tenants[i + 1..], us, tenants[i]));
    RemovalShiftsLater(users, j, b);
    assert us[b - 1].tenantId == tenantId;
  }

  /** Removing the entry at `j` moves every later entry one place down. */
  lemma RemovalShiftsLater<T>(s: seq<T>, j: nat, b: nat)
    requires j < b < |s|
    ensures |s[..j] + s[j + 1..]| == |s| - 1 && (s[..j] + s[j + 1..])[b - 1] == s[b]
  {
    assert s[j + 1..][b - 1 - j] == s[b];
  }

  /** The options of `getTenants`; "" is an absent option (it is falsy). */
  datatype TenantQuery = TenantQuery(name: string, namespace: string)

  predicate TenantMatches(t: Tenant, q: TenantQuery) {
    (q.name == "" || Includes(t.name, q.name)) && (q.namespace == "" || q.namespace in t.namespaces)
  }

  /** `getTenants(options)`: the name filter, then the namespace filter; an absent
      option keeps everything. */
  function TenantsQuery(tenants: seq<Tenant>, q: TenantQuery): seq<Tenant> {
    Filter(Filter(tenants, (t: Tenant) => q.name == "" || Includes(t.name, q.name)),
           (t: Tenant) => q.namespace == "" || q.namespace in t.namespaces)
  }

  lemma TenantsQueryIsFilter(tenants: seq<Tenant>, q: TenantQuery)
    ensures TenantsQuery(tenants, q) == Filter(tenants, (t: Tenant) => TenantMatches(t, q))
  {
    var pn := (t: Tenant) => q.name == "" || Includes(t.name, q.name);
    var ps := (t: Tenant) => q.namespace == "" || q.namespace in t.namespaces;
    FilterFuse(tenants, pn, ps, (t: Tenant) => TenantMatches(t, q));
  }

  /** `getTenants` keeps, in stored order, exactly the tenants matching every given option. */
  lemma TenantsQueryLaws(tenants: seq<Tenant>, q: TenantQuery)
    ensures IsSubsequence(TenantsQuery(tenants, q), tenants)
    ensures forall i :: 0 <= i < |tenants| && TenantMatches(tenants[i], q) ==> tenants[i] in TenantsQuery(tenants, q)
    ensures forall i :: 0 <= i < |TenantsQuery(tenants, q)| ==> TenantMatches(TenantsQuery(tenants, q)[i], q)
  {
    TenantsQueryIsFilter(tenants, q);
    FilterIsSubsequence(tenants, (t: Tenant) => TenantMatches(t, q));
  }

  /** Filters by pointwise-equal predicates agree. */
  lemma {:induction false} FilterExt<T>(s: seq<T>, p: T -> bool, q: T -> bool)
    requires forall x :: p(x) == q(x)
    ensures Filter(s, p) == Filter(s, q)
    decreases |s|
  {
    if |s| > 0 { FilterExt(s[..|s| - 1], p, q); }
  }

  lemma {:induction false} FilterAllTrue<T>(s: seq<T>)
    ensures Filter(s, (x: T) => true) == s
    decreases |s|
  {
    if |s| > 0 {
      FilterAllTrue(s[..|s| - 1]);
      assert s[..|s| - 1] + [s[|s| - 1]] == s;
    }
  }

  // ------------------------------------------------------------------------
  // Tenant users
  // ------------------------------------------------------------------------

  /** `addTenantUser(tenantId, userData)`: the tenant is looked up first. */
  function UserAddition(tenants: seq<Tenant>, users: seq<TenantUser>, tenantId: string, input: UserInput, id: string, now: int)
    : Result<(seq<TenantUser>, TenantUser)>
  {
    var i := IndexOf(tenants, TenantId, tenantId);
    if i < 0 then Fail(NotFound("Tenant not found: " + tenantId))
    else
      var u := TenantUser(id, tenantId, input.username, OrDefault(input.email, ""), OrDefault(input.role, "viewer"),
                          input.namespaces.GetOr(tenants[i].namespaces), now);
      Ok((users + [u], u))
  }

  lemma AddUserLaws(tenants: seq<Tenant>, users: seq<TenantUser>, tenantId: string, input: UserInput, id: string, now: int)
    ensures UserAddition(tenants, users, tenantId, input, id, now).Fail? <==>
      forall k :: 0 <= k < |tenants| ==> tenants[k].id != tenantId
    ensures UserAddition(tenants, users, tenantId, input, id, now).Ok? ==>
      var (us, u) := UserAddition(tenants, users, tenantId, input, id, now).value;
      var t := tenants[IndexOf(tenants, TenantId, tenantId)];
      us == users + [u] && u.id == id && u.tenantId == tenantId && t.id == tenantId &&
      u.username == input.username &&
      (input.role.Some? && input.role.value != "" ==> u.role == input.role.value) &&
      (input.role.None? || input.role == Some("") ==> u.role == "viewer") &&
      (input.email.None? || input.email == Some("") ==> u.email == "") &&
      (input.email.Some? && input.email.value != "" ==> u.email == input.email.value) &&
      (input.namespaces.None? ==> u.namespaces == t.namespaces) &&
      (input.namespaces.Some? ==> u.namespaces == input.namespaces.value)
  {
  }

  /** The user after `{...u, ...updates, id: userId}`. */
  function PatchUser(u: TenantUser, p: UserPatch, id: string): TenantUser {
    TenantUser(id,
               if p.tenantId.Some? then p.tenantId.value else u.tenantId,
               if p.username.Some? then p.username.value else u.username,
               if p.email.Some? then p.email.value else u.email,
               if p.role.Some? then p.role.value else u.role,
               if p.namespaces.Some? then p.namespaces.value else u.namespaces,
               if p.createdAt.Some? then p.createdAt.value else u.createdAt)
  }

  /** `updateTenantUser(userId, updates)` */
  function UserUpdate(users: seq<TenantUser>, userId: string, p: UserPatch): Result<(seq<TenantUser>, TenantUser)> {
    var i := IndexOf(users, UserId, userId);
    if i < 0 then Fail(NotFound("User not found: " + userId))
    else
      var u := PatchUser(users[i], p, userId);
      Ok((users[i := u], u))
  }

  /** An update fails exactly on an unknown id, with the source's message; otherwise the
      first user with that id is rewritten in place: it keeps the id, takes every field
      the patch sets and keeps every other, and no other user changes. */
  lemma UpdateUserLaws(users: seq<TenantUser>, userId: string, p: UserPatch)
    ensures UserUpdate(users, userId, p).Fail? <==> forall k :: 0 <= k < |users| ==> users[k].id != userId
    ensures UserUpdate(users, userId, p).Fail? ==> UserUpdate(users, userId, p).error == NotFound("User not found: " + userId)
    ensures UserUpdate(users, userId, p).Ok? ==>
      var (us, u) := UserUpdate(users, userId, p).value;
      var i := IndexOf(users, UserId, userId);
      |us| == |users| && us[i] == u && u.id == userId &&
      u.tenantId == p.tenantId.GetOr(users[i].tenantId) &&
      u.username == p.username.GetOr(users[i].username) &&
      u.email == p.email.GetOr(users[i].email) &&
      u.role == p.role.GetOr(users[i].role) &&
      u.namespaces == p.namespaces.GetOr(users[i].namespaces) &&
      u.createdAt == p.createdAt.GetOr(users[i].createdAt) &&
      forall k :: 0 <= k < |users| && k != i ==> us[k] == users[k]
  {
  }

  /** `deleteTenantUser(userId)` */
  function UserRemoval(users: seq<TenantUser>, userId: string): Result<(seq<TenantUser>, TenantUser)> {
    var i := IndexOf(users, UserId, userId);
    if i < 0 then Fail(NotFound("User not found: " + userId))
    else Ok((users[..i] + users[i + 1..], users[i]))
  }

  /** A delete fails exactly on an unknown id; otherwise exactly the first user with that
      id leaves the list and the others keep their order. */
  lemma DeleteUserLaws(users: seq<TenantUser>, userId: string)
    ensures UserRemoval(users, userId).Fail? <==> forall k :: 0 <= k < |users| ==> users[k].id != userId
    ensures UserRemoval(users, userId).Ok? ==>
      var (us, u) := UserRemoval(users, userId).value;
      var i := IndexOf(users, UserId, userId);
      0 <= i && u == users[i] && u.id == userId && us == users[..i] + users[i + 1..] &&
      |us| == |users| - 1 && multiset(us) + multiset{u} == multiset(users)
  {
    var i := IndexOf(users, UserId, userId);
    if i >= 0 {
      var us := users[..i] + users[i + 1..];
      assert UserRemoval(users, userId) == Ok((us, users[i]));
      assert UserId(users[i]) == userId;
      RemoveAt(users, i);
    } else {
      assert UserRemoval(users, userId).Fail?;
    }
  }

  /** The options of `getTenantUsers`; "" is an absent option. */
  datatype UserQuery = UserQuery(tenantId: string, role: string, username: string)

  predicate UserMatches(u: TenantUser, q: UserQuery) {
    (q.tenantId == "" || u.tenantId == q.tenantId) &&
    (q.role == "" || u.role == q.role) &&
    (q.username == "" || Includes(u.username, q.username))
  }

  /** The three conditions of `getTenantUsers`, each holding when its option is unset. */
  function TenantCond(q: UserQuery): TenantUser -> bool { (u: TenantUser) => q.tenantId == "" || u.tenantId == q.tenantId }
  function RoleCond(q: UserQuery): TenantUser -> bool { (u: TenantUser) => q.role == "" || u.role == q.role }
  function NameCond(q: UserQuery): TenantUser -> bool { (u: TenantUser) => q.username == "" || Includes(u.username, q.username) }
  function TenantRoleCond(q: UserQuery): TenantUser -> bool { (u: TenantUser) => TenantCond(q)(u) && RoleCond(q)(u) }
  function MatchesQuery(q: UserQuery): TenantUser -> bool { (u: TenantUser) => UserMatches(u, q) }

  /** `getTenantUsers(options)`: three successive filters. */
  function UsersQuery(users: seq<TenantUser>, q: UserQuery): seq<TenantUser> {
    var byTenant := if q.tenantId != "" then Filter(users, (u: TenantUser) => u.tenantId == q.tenantId) else users;
    var byRole := if q.role != "" then Filter(byTenant, (u: TenantUser) => u.role == q.role) else byTenant;
    if q.username != "" then Filter(byRole, (u: TenantUser) => Includes(u.username, q.username)) else byRole
  }

  /** One optional filter step equals filtering by "absent or holds". */
  lemma OptionalFilter<T>(s: seq<T>, on: bool, p: T -> bool, q: T -> bool)
    requires forall x :: q(x) == (!on || p(x))
    ensures (if on then Filter(s, p) else s) == Filter(s, q)
  {
    if on { FilterExt(s, p, q); }
    else {
      FilterExt(s, (x: T) => true, q);
      FilterAllTrue(s);
    }
  }

  /** The three filters in turn, each written as "unset or holds". */
  lemma UsersQuerySteps(users: seq<TenantUser>, q: UserQuery)
    ensures UsersQuery(users, q) == Filter(Filter(Filter(users, TenantCond(q)), RoleCond(q)), NameCond(q))
  {
    OptionalFilter(users, q.tenantId != "", (u: TenantUser) => u.tenantId == q.tenantId, TenantCond(q));
    var s1 := Filter(users, TenantCond(q));
    OptionalFilter(s1, q.role != "", (u: TenantUser) => u.role == q.role, RoleCond(q));
    var s2 := Filter(s1, RoleCond(q));
    OptionalFilter(s2, q.username != "", (u: TenantUser) => Includes(u.username, q.username), NameCond(q));
  }

  /** The successive filters of `getTenantUsers` are one filter by all set conditions. */
  lemma UsersQueryIsFilter(users: seq<TenantUser>, q: UserQuery)
    ensures UsersQuery(users, q) == Filter(users, MatchesQuery(q))
  {
    UsersQuerySteps(users, q);
    FilterFuse(users, TenantCond(q), RoleCond(q), TenantRoleCond(q));
    FilterFuse(users, TenantRoleCond(q), NameCond(q), MatchesQuery(q));
  }

  /** `getTenantUsers` keeps, in stored order, exactly the users matching every given option. */
  lemma UsersQueryLaws(users: seq<TenantUser>, q: UserQuery)
    ensures IsSubsequence(UsersQuery(users, q), users)
    ensures forall i :: 0 <= i < |users| && UserMatches(users[i], q) ==> users[i] in UsersQuery(users, q)
    ensures forall i :: 0 <= i < |UsersQuery(users, q)| ==> UserMatches(UsersQuery(users, q)[i], q)
  {
    UsersQueryIsFilter(users, q);
    FilterIsSubsequence(users, MatchesQuery(q));
  }

  // ------------------------------------------------------------------------
  // Statistics
  // ------------------------------------------------------------------------

  /** The result of `getTenantStatistics()`; `tenantsByStatus` is always empty. */
  datatype TenantStats = TenantStats(
    totalTenants: nat,
    totalUsers: nat,
    totalNamespaces: nat,
    usersByRole: Dict<nat>,
    tenantsByStatus: Dict<nat>)

  function NamespaceCount(t: Tenant): nat { |t.namespaces| }
  function UserRole(u: TenantUser): string { u.role }

  function TenantStatsOf(tenants: seq<Tenant>, users: seq<TenantUser>): TenantStats {
    TenantStats(|tenants|, |users|, SumNat(tenants, NamespaceCount), CountBy([], users, UserRole), [])
  }

  /** The role counts sum to the number of users and count each role exactly;
      namespaces are counted once per tenant listing them (a shared namespace twice). */
  lemma {:induction false} TenantStatsLaws(tenants: seq<Tenant>, users: seq<TenantUser>, role: string)
    ensures SumCounts(TenantStatsOf(tenants, users).usersByRole) == TenantStatsOf(tenants, users).totalUsers
    ensures CountAt(TenantStatsOf(tenants, users).usersByRole, role) == Count(users, (u: TenantUser) => u.role == role)
    ensures DistinctKeys(TenantStatsOf(tenants, users).usersByRole)
    ensures TenantStatsOf(tenants, users).totalNamespaces == |FlatMap(tenants, (t: Tenant) => t.namespaces)|
  {
    CountByLaws([], users, UserRole, role);
    CountKeyIsCount(users, role);
    NamespacesListed(tenants);
  }

  lemma {:induction false} CountKeyIsCount(users: seq<TenantUser>, role: string)
    ensures CountKey(users, UserRole, role) == Count(users, (u: TenantUser) => u.role == role)
    decreases |users|
  {
    if |users| > 0 { CountKeyIsCount(users[..|users| - 1], role); }
  }

  lemma {:induction false} NamespacesListed(tenants: seq<Tenant>)
    ensures SumNat(tenants, NamespaceCount) == |FlatMap(tenants, (t: Tenant) => t.namespaces)|
    decreases |tenants|
  {
    if |tenants| > 0 { NamespacesListed(tenants[..|tenants| - 1]); }
  }

  /** `getTenantStatistics()`, accumulating as its `forEach` loops do. */
  method TenantStatistics(tenants: seq<Tenant>, users: seq<TenantUser>) returns (st: TenantStats)
    ensures st == TenantStatsOf(tenants, users)
  {
    var namespaces: nat := 0;
    var i := 0;
    while i < |tenants|
      invariant 0 <= i <= |tenants|
      invariant namespaces == SumNat(tenants[..i], NamespaceCount)
    {
      var prefix := tenants[..i + 1];
      assert prefix[..i] == tenants[..i];
      namespaces := namespaces + |tenants[i].namespaces|;
      i := i + 1;
    }
    assert tenants[..i] == tenants;
    var byRole: Dict<nat> := [];
    var k := 0;
    while k < |users|
      invariant 0 <= k <= |users|
      invariant byRole == CountBy([], users[..k], UserRole)
    {
      var prefix := users[..k + 1];
      assert prefix[..k] == users[..k];
      byRole := Bump(byRole, users[k].role);
      k := k + 1;
    }
    assert users[..k] == users;
    st := TenantStats(|tenants|, |users|, namespaces, byRole, []);
  }

  // ------------------------------------------------------------------------
  // The store
  // ------------------------------------------------------------------------

  /** The module-level `tenants` and `tenantUsers` arrays. */
  class TenantStore {
    var tenants: seq<Tenant>
    var users: seq<TenantUser>

    constructor (now: int)
      ensures tenants == DefaultTenants(now) && users == []
    {
      tenants := DefaultTenants(now);
      users := [];
    }

    /** `createTenant(tenantData)`, with the cluster calls' outcome as `provision`. */
    method CreateTenant(input: TenantInput, provision: Option<string>, id: string, now: int) returns (res: Result<Tenant>)
      modifies this
      ensures users == old(users)
      ensures var spec := TenantCreation(old(tenants), input, provision, id, now);
        (spec.Fail? ==> res == Fail(spec.error) && tenants == old(tenants)) &&
        (spec.Ok? ==> res == Ok(spec.value.1) && tenants == spec.value.0)
    {
      if provision.Some? {
        return Fail(Invalid(provision.value));
      }
      var t := NewTenant(input, id, now);
      tenants := tenants + [t];
      res := Ok(t);
    }

    /** `updateTenant(tenantId, updates)` */
    method UpdateTenant(tenantId: string, p: TenantPatch, now: int) returns (res: Result<Tenant>)
      modifies this
      ensures users == old(users)
      ensures var spec := TenantUpdate(old(tenants), tenantId, p, now);
        (spec.Fail? ==> res == Fail(spec.error) && tenants == old(tenants)) &&
        (spec.Ok? ==> res == Ok(spec.value.1) && tenants == spec.value.0)
    {
      var i := IndexOf(tenants, TenantId, tenantId);
      if i < 0 {
        return Fail(NotFound("Tenant not found: " + tenantId));
      }
      var t := PatchTenant(tenants[i], p, tenantId, now);
      tenants := tenants[i := t];
      res := Ok(t);
    }

    /** `deleteTenant(tenantId)`, in-memory effect. */
    method DeleteTenant(tenantId: string, connect: Option<string>) returns (res: Result<Tenant>)
      modifies this
      ensures var spec := TenantRemoval(old(tenants), old(users), tenantId, connect);
        (spec.Fail? ==> res == Fail(spec.error) && tenants == old(tenants) && users == old(users)) &&
        (spec.Ok? ==> res == Ok(spec.value.2) && tenants == spec.value.0 && users == spec.value.1)
    {
      var i := IndexOf(tenants, TenantId, tenantId);
      if i < 0 {
        return Fail(NotFound("Tenant not found: " + tenantId));
      }
      if connect.Some? {
        return Fail(Invalid(connect.value));
      }
      var deleted := tenants[i];
      var remaining := tenants[..i] + tenants[i + 1..];
      var j := IndexOf(users, UserTenant, tenantId);
      var users' := users;
      if j != -1 {
        users' := users[..j] + users[j + 1..];
      }
      tenants, users := remaining, users';
      res := Ok(deleted);
    }

    /** `addTenantUser(tenantId, userData)` */
    method AddTenantUser(tenantId: string, input: UserInput, id: string, now: int) returns (res: Result<TenantUser>)
      modifies this
      ensures tenants == old(tenants)
      ensures var spec := UserAddition(old(tenants), old(users), tenantId, input, id, now);
        (spec.Fail? ==> res == Fail(spec.error) && users == old(users)) &&
        (spec.Ok? ==> res == Ok(spec.value.1) && users == spec.value.0)
    {
      var i := IndexOf(tenants, TenantId, tenantId);
      if i < 0 {
        return Fail(NotFound("Tenant not found: " + tenantId));
      }
      var u := TenantUser(id, tenantId, input.username, OrDefault(input.email, ""), OrDefault(input.role, "viewer"),
                          input.namespaces.GetOr(tenants[i].namespaces), now);
      users := users + [u];
      res := Ok(u);
    }

    /** `updateTenantUser(userId, updates)` */
    method UpdateTenantUser(userId: string, p: UserPatch) returns (res: Result<TenantUser>)
      modifies this
      ensures tenants == old(tenants)
      ensures var spec := UserUpdate(old(users), userId, p);
        (spec.Fail? ==> res == Fail(spec.error) && users == old(users)) &&
        (spec.Ok? ==> res == Ok(spec.value.1) && users == spec.value.0)
    {
      var i := IndexOf(users, UserId, userId);
      if i < 0 {
        return Fail(NotFound("User not found: " + userId));
      }
      var u := PatchUser(users[i], p, userId);
      users := users[i := u];
      res := Ok(u);
    }

    /** `deleteTenantUser(userId)` */
    method DeleteTenantUser(userId: string) returns (res: Result<TenantUser>)
      modifies this
      ensures tenants == old(tenants)
      ensures var spec := UserRemoval(old(users), userId);
        (spec.Fail? ==> res == Fail(spec.error) && users == old(users)) &&
        (spec.Ok? ==> res == Ok(spec.value.1) && users == spec.value.0)
    {
      var i := IndexOf(users, UserId, userId);
      if i < 0 {
        return Fail(NotFound("User not found: " + userId));
      }
      var u := users[i];
      users := users[..i] + users[i + 1..];
      res := Ok(u);
    }

    /** `getTenantStatistics()` */
    method Statistics() returns (st: TenantStats)
      ensures st == TenantStatsOf(tenants, users)
    {
      st := TenantStatistics(tenants, users);
    }
  }
}
