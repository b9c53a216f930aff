/**
 * The restricted identity of a cluster: what a creation posts, what a deletion
 * removes and in what order (bin/harvester-capi.py, identity_down,
 * remove_cluster, cmd_delete, _undo; bin/lib/capi_identity.py, docs, teardown).
 */
module CapiTeardown {
  import opened Names
  import opened RegistrySecrets
  import opened Text
  import opened Wrappers

  const IDENTITY := "caphv-identity"
  const TOKEN_SECRET := "caphv-identity-token"
  const CLUSTER_ROLE_PREFIX := "harvester-ops-caphv-"
  const FIXED_SIDE_NAMESPACES := ["harvester-system", "kube-system"]

  datatype Kind = ClusterRoleBinding | ClusterRole | RoleBinding | Role | ServiceAccount | Namespace | Secret
  datatype Ref = Ref(kind: Kind, ns: Option<string>, name: string)

  /** The two ownership labels, and the annotation that lists the side namespaces. */
  datatype Obj = Obj(cluster: Option<string>, namespace: Option<string>, side: string)
  type Objects = map<Ref, Obj>

  ghost predicate Owned(o: Obj, ns: string, name: string) {
    o.cluster == Some(name) && o.namespace == Some(ns)
  }

  function VmNamespace(ns: string): (v: string)
    ensures v != ns
  {
    ns + "-vms"
  }

  function Account(ns: string): Ref {
    Ref(ServiceAccount, Some(ns), IDENTITY)
  }

  function SideRole(ns: string): string {
    IDENTITY + "-" + ns
  }

  function Without(names: seq<string>, x: string): (r: seq<string>)
    ensures forall n :: n in r <==> n in names && n != x
  {
    if names == [] then [] else (if names[0] == x then [] else [names[0]]) + Without(names[1..], x)
  }

  function RolesIn(names: seq<string>, role: string): (rs: seq<Ref>)
    ensures forall r :: r in rs <==>
      r.kind in {RoleBinding, Role} && r.ns.Some? && r.ns.value in names && r.name == role
  {
    if names == [] then []
    else [Ref(RoleBinding, Some(names[0]), role), Ref(Role, Some(names[0]), role)] + RolesIn(names[1..], role)
  }

  /** The same, each role before its binding, as they are posted. */
  function PostedRoles(names: seq<string>, role: string): (rs: seq<Ref>)
    ensures forall r :: r in rs <==>
      r.kind in {Role, RoleBinding} && r.ns.Some? && r.ns.value in names && r.name == role
  {
    if names == [] then []
    else [Ref(Role, Some(names[0]), role), Ref(RoleBinding, Some(names[0]), role)] + PostedRoles(names[1..], role)
  }

  /** `teardown` up to the account, which always comes last. */
  function TeardownBody(ns: string, name: string, side: seq<string>): seq<Ref> {
    var vms, role := VmNamespace(ns), CLUSTER_ROLE_PREFIX + ns;
    [Ref(ClusterRoleBinding, None, name), Ref(ClusterRoleBinding, None, role), Ref(ClusterRole, None, role)]
    + RolesIn(Without(Sorted(side + FIXED_SIDE_NAMESPACES + [vms]), ns), SideRole(ns))
    + [Ref(ServiceAccount, Some(vms), name), Ref(Namespace, None, vms), Ref(Kind.Secret, Some(ns), TOKEN_SECRET)]
  }

  function Teardown(ns: string, name: string, side: seq<string>): seq<Ref> {
    TeardownBody(ns, name, side) + [Account(ns)]
  }

  /** The namespaces read from the annotation. */
  function Sides(raw: string): seq<string> {
    Without(SplitOn(raw, ','), "")
  }

  lemma {:induction false} AccountComesLast(ns: string, name: string, side: seq<string>)
    ensures Account(ns) !in TeardownBody(ns, name, side)
  {
  }

  // --- what a creation posts ---------------------------------------------------------------

  /** `side_namespaces` of the scopes of the rules (None: the whole cluster). */
  function ScopeNames(scopes: seq<Option<string>>): (names: seq<string>)
    ensures forall n :: n in names <==> Some(n) in scopes
  {
    if scopes == [] then []
    else (if scopes[0].Some? then [scopes[0].value] else []) + ScopeNames(scopes[1..])
  }

  function SideNamespaces(ns: string, scopes: seq<Option<string>>): seq<string> {
    Without(Without(Sorted(ScopeNames(scopes)), ""), ns)
  }

  /** `docs`, in order; each with the labels of the cluster. */
  function Docs(ns: string, name: string, scopes: seq<Option<string>>): seq<Ref> {
    var vms, role := VmNamespace(ns), CLUSTER_ROLE_PREFIX + ns;
    [Ref(Namespace, None, vms), Account(ns), Ref(Kind.Secret, Some(ns), TOKEN_SECRET)]
    + (if Some(ns) in scopes then [Ref(Role, Some(ns), IDENTITY), Ref(RoleBinding, Some(ns), IDENTITY)] else [])
    + PostedRoles(SideNamespaces(ns, scopes), SideRole(ns))
    + (if None in scopes then [Ref(ClusterRole, None, role), Ref(ClusterRoleBinding, None, role)] else [])
    + [Ref(ServiceAccount, Some(vms), name), Ref(ClusterRoleBinding, None, name)]
  }

  function Post(objs: Objects, refs: seq<Ref>, o: Obj): (r: Objects)
    ensures forall x :: x in r <==> x in objs || x in refs
    ensures forall x :: x in r ==> r[x] == if x in refs then o else objs[x]
    decreases |refs|
  {
    if refs == [] then objs else Post(objs[refs[0] := o], refs[1..], o)
  }

  function Labelled(ns: string, name: string, scopes: seq<Option<string>>): Obj {
    Obj(Some(name), Some(ns), JoinWith(SideNamespaces(ns, scopes), ','))
  }

  /** The account lists, directly or by name, every other object of its cluster; without it there is none. */
  ghost predicate Covered(objs: Objects, ns: string, name: string) {
    forall r :: r in objs && Owned(objs[r], ns, name) && r != Account(ns) ==>
      Account(ns) in objs && r in TeardownBody(ns, name, Sides(objs[Account(ns)].side))
  }

  ghost predicate NoneOwned(objs: Objects, ns: string, name: string) {
    forall r :: r in objs ==> !Owned(objs[r], ns, name)
  }

  lemma {:induction false} SidesReadBack(names: seq<string>)
    requires forall n :: n in names ==> n != "" && ',' !in n
    ensures Sides(JoinWith(names, ',')) == names
  {
    if names == [] {
      assert SplitOn("", ',') == [""];
    } else {
      SplitJoin(names, ',');
      NothingWithout(names, "");
    }
  }

  lemma {:induction false} NothingWithout(names: seq<string>, x: string)
    requires x !in names
    ensures Without(names, x) == names
  {
    if names == [] {
    } else {
      NothingWithout(names[1..], x);
    }
  }

  predicate RoleOf(r: Ref, role: string) {
    r.kind in {Role, RoleBinding} && r.ns.Some? && r.name == role
  }

  lemma {:induction false} TeardownHas(ns: string, name: string, side: seq<string>, r: Ref)
    ensures var vms, role := VmNamespace(ns), CLUSTER_ROLE_PREFIX + ns;
      r in TeardownBody(ns, name, side) <==>
        || r == Ref(ClusterRoleBinding, None, name) || r == Ref(ClusterRoleBinding, None, role) || r == Ref(ClusterRole, None, role)
        || (RoleOf(r, SideRole(ns)) && r.ns.value != ns && (r.ns.value in side || r.ns.value in FIXED_SIDE_NAMESPACES || r.ns.value == vms))
        || r == Ref(ServiceAccount, Some(vms), name) || r == Ref(Namespace, None, vms) || r == Ref(Kind.Secret, Some(ns), TOKEN_SECRET)
  {
    var all := side + FIXED_SIDE_NAMESPACES + [VmNamespace(ns)];
    SortedHolds(all);
    hide Sorted, Without, RolesIn, VmNamespace;
    assert r.ns.Some? ==> (r.ns.value in all <==> r.ns.value in side || r.ns.value in FIXED_SIDE_NAMESPACES || r.ns.value == VmNamespace(ns));
  }

  lemma {:induction false} DocsHas(ns: string, name: string, scopes: seq<Option<string>>, r: Ref)
    ensures var vms, role := VmNamespace(ns), CLUSTER_ROLE_PREFIX + ns;
      r in Docs(ns, name, scopes) <==>
        || r == Ref(Namespace, None, vms) || r == Account(ns) || r == Ref(Kind.Secret, Some(ns), TOKEN_SECRET)
        || (Some(ns) in scopes && RoleOf(r, IDENTITY) && r.ns.value == ns)
        || (RoleOf(r, SideRole(ns)) && r.ns.value in SideNamespaces(ns, scopes))
        || (None in scopes && (r == Ref(ClusterRole, None, role) || r == Ref(ClusterRoleBinding, None, role)))
        || r == Ref(ServiceAccount, Some(vms), name) || r == Ref(ClusterRoleBinding, None, name)
  {
    hide SideNamespaces, PostedRoles, VmNamespace;
  }

  lemma {:induction false} NamesApart(ns: string)
    ensures SideRole(ns) != IDENTITY && TOKEN_SECRET != IDENTITY && VmNamespace(ns) != ns
  {
    assert |SideRole(ns)| > |IDENTITY| && |TOKEN_SECRET| > |IDENTITY|;
  }

  /** What is posted is what the account leads back to, but for the roles of a rule on the cluster's own namespace. */
  lemma {:induction false} DocsInTeardown(ns: string, name: string, scopes: seq<Option<string>>, r: Ref)
    requires r in Docs(ns, name, scopes) && r != Account(ns)
    ensures r in TeardownBody(ns, name, SideNamespaces(ns, scopes)) <==> r.ns != Some(ns) || r.name != IDENTITY
  {
    DocsHas(ns, name, scopes, r);
    TeardownHas(ns, name, SideNamespaces(ns, scopes), r);
    NamesApart(ns);
    assert forall n :: n in SideNamespaces(ns, scopes) ==> n != ns;
    hide Docs, TeardownBody, SideNamespaces, SideRole, VmNamespace;
  }

  /**
   * After a creation that stopped once `k` documents were posted, where nothing
   * of that identity existed: the account leads back to all of them
   * unless it was not posted yet (only the VM namespace was), or some rule is
   * scoped on the cluster's own namespace (an image or a key pair kept there):
   * that role and its binding are in no list of deletion.
   */
  lemma {:induction false} PostedCoveredIff(objs: Objects, ns: string, name: string, scopes: seq<Option<string>>, k: nat)
    requires NoneOwned(objs, ns, name) && Account(ns) !in objs && k <= |Docs(ns, name, scopes)|
    requires forall n :: Some(n) in scopes ==> ',' !in n
    ensures Covered(Post(objs, Docs(ns, name, scopes)[..k], Labelled(ns, name, scopes)), ns, name)
       <==> k != 1 && (Some(ns) !in scopes || k <= 3)
  {
    var docs, o := Docs(ns, name, scopes), Labelled(ns, name, scopes);
    var r := Post(objs, docs[..k], o);
    SortedHolds(ScopeNames(scopes));
    SidesReadBack(SideNamespaces(ns, scopes));
    assert docs[0] == Ref(Namespace, None, VmNamespace(ns)) && docs[1] == Account(ns);
    if k == 0 {
      assert docs[..k] == [];
    } else if k == 1 {
      assert docs[..k] == [docs[0]];
      assert Owned(r[docs[0]], ns, name);
    } else {
      assert docs[..k][1] == docs[1] && Account(ns) in docs[..k];
      PostedPrefix(objs, ns, name, scopes, k);
    }
  }

  lemma {:induction false} PostedPrefix(objs: Objects, ns: string, name: string, scopes: seq<Option<string>>, k: nat)
    requires NoneOwned(objs, ns, name) && 2 <= k <= |Docs(ns, name, scopes)| && Account(ns) in Docs(ns, name, scopes)[..k]
    requires Sides(Labelled(ns, name, scopes).side) == SideNamespaces(ns, scopes)
    ensures Covered(Post(objs, Docs(ns, name, scopes)[..k], Labelled(ns, name, scopes)), ns, name)
       <==> Some(ns) !in scopes || k <= 3
  {
    hide TeardownBody;
    var docs, o := Docs(ns, name, scopes), Labelled(ns, name, scopes);
    var r := Post(objs, docs[..k], o);
    if Some(ns) in scopes && k > 3 {
      var own := OwnRolePosted(ns, name, scopes, k);
      assert own in r && Owned(r[own], ns, name);
    } else {
      forall x | x in r && Owned(r[x], ns, name) && x != Account(ns)
        ensures x in TeardownBody(ns, name, SideNamespaces(ns, scopes))
      {
        PostedListed(ns, name, scopes, k, x);
      }
    }
  }

  lemma {:induction false} OwnRolePosted(ns: string, name: string, scopes: seq<Option<string>>, k: nat) returns (own: Ref)
    requires Some(ns) in scopes && 3 < k <= |Docs(ns, name, scopes)|
    ensures own in Docs(ns, name, scopes)[..k] && own != Account(ns) && own !in TeardownBody(ns, name, SideNamespaces(ns, scopes))
  {
    var docs := Docs(ns, name, scopes);
    own := Ref(Role, Some(ns), IDENTITY);
    assert docs[3] == own && docs[..k][3] == own && own in docs;
    DocsInTeardown(ns, name, scopes, own);
  }

  lemma {:induction false} PostedListed(ns: string, name: string, scopes: seq<Option<string>>, k: nat, x: Ref)
    requires k <= |Docs(ns, name, scopes)| && x in Docs(ns, name, scopes)[..k] && (Some(ns) !in scopes || k <= 3) && x != Account(ns)
    ensures x in TeardownBody(ns, name, SideNamespaces(ns, scopes))
  {
    OwnRolesLate(ns, name, scopes, k, x);
    var i :| 0 <= i < k && Docs(ns, name, scopes)[i] == x;
    DocsInTeardown(ns, name, scopes, x);
  }

  lemma {:induction false} OwnRolesLate(ns: string, name: string, scopes: seq<Option<string>>, k: nat, x: Ref)
    requires k <= |Docs(ns, name, scopes)| && x in Docs(ns, name, scopes)[..k] && (Some(ns) !in scopes || k <= 3) && x != Account(ns)
    ensures x.ns != Some(ns) || x.name != IDENTITY
  {
    var docs := Docs(ns, name, scopes);
    var i :| 0 <= i < k && docs[i] == x;
    if k <= 3 {
      assert docs[..3] == [Ref(Namespace, None, VmNamespace(ns)), Account(ns), Ref(Kind.Secret, Some(ns), TOKEN_SECRET)];
      assert docs[..3][i] == x;
    } else {
      assert x in docs;
    }
  }

  // --- removing the identity ------------------------------------------------------------------

  datatype Reading = Readable | Forbidden | Unreadable

  /** What the person may read and delete; the same during one attempt. */
  datatype Rights = Rights(read: Ref -> Reading, delete: Ref -> bool)

  /** The objects left, how many went, and those that could not be read or deleted. */
  datatype Sweep = Sweep(objects: Objects, gone: nat, kept: seq<Ref>)

  function Visit(s: Sweep, r: Ref, ns: string, name: string, absent: bool, rights: Rights): Sweep {
    if !rights.read(r).Readable? then
      if absent && rights.read(r).Forbidden? then s else s.(kept := s.kept + [r])
    else if r !in s.objects || s.objects[r].cluster != Some(name) || s.objects[r].namespace != Some(ns) then s
    else if rights.delete(r) then Sweep(s.objects - {r}, s.gone + 1, s.kept)
    else s.(kept := s.kept + [r])
  }

  /** The loop of `identity_down` over the given objects. */
  function SweepAll(s: Sweep, refs: seq<Ref>, ns: string, name: string, absent: bool, rights: Rights): Sweep
    decreases |refs|
  {
    if refs == [] then s
    else if s.kept != [] && refs[0] == Account(ns) then s
    else SweepAll(Visit(s, refs[0], ns, name, absent, rights), refs[1..], ns, name, absent, rights)
  }

  /** The first read of the account: its side namespaces, or nothing when it cannot be read. */
  function KnownSides(objs: Objects, ns: string, rights: Rights): seq<string> {
    if rights.read(Account(ns)).Readable? && Account(ns) in objs then Sides(objs[Account(ns)].side) else []
  }

  predicate ProvedAbsent(objs: Objects, ns: string, rights: Rights) {
    rights.read(Account(ns)).Readable? && Account(ns) !in objs
  }

  /** `identity_down` stopped after `k` objects. */
  function DownTo(objs: Objects, ns: string, name: string, rights: Rights, k: nat): Sweep
    requires k <= |Teardown(ns, name, KnownSides(objs, ns, rights))|
  {
    SweepAll(Sweep(objs, 0, []), Teardown(ns, name, KnownSides(objs, ns, rights))[..k], ns, name, ProvedAbsent(objs, ns, rights), rights)
  }

  function Down(objs: Objects, ns: string, name: string, rights: Rights): Sweep {
    DownTo(objs, ns, name, rights, |Teardown(ns, name, KnownSides(objs, ns, rights))|)
  }

  /** Only objects with the labels of the cluster go, the others stay as they are. */
  ghost predicate OnlyOwnGone(u: Objects, w: Objects, ns: string, name: string) {
    && (forall r :: r in u ==> r in w && u[r] == w[r])
    && forall r :: r in w && r !in u ==> Owned(w[r], ns, name)
  }

  lemma {:induction false} VisitCounts(s: Sweep, r: Ref, ns: string, name: string, absent: bool, rights: Rights)
    ensures var t := Visit(s, r, ns, name, absent, rights);
      && t.gone - s.gone == |s.objects| - |t.objects| && (forall x :: x in t.objects ==> x in s.objects)
      && forall x :: x in t.kept ==> x in s.kept || (x == r && (!rights.read(x).Readable? || (x in s.objects && !rights.delete(x))))
  {
    var t := Visit(s, r, ns, name, absent, rights);
    if t.objects != s.objects {
      assert s.objects == t.objects[r := s.objects[r]];
    }
  }

  /** What is counted has gone, and what is named as kept is there still or could not be read. */
  lemma {:induction false} SweepCounts(s: Sweep, refs: seq<Ref>, ns: string, name: string, absent: bool, rights: Rights)
    ensures var r := SweepAll(s, refs, ns, name, absent, rights);
      && r.gone - s.gone == |s.objects| - |r.objects|
      && forall x :: x in r.kept ==> x in s.kept || (x in refs && (!rights.read(x).Readable? || (x in s.objects && !rights.delete(x))))
    decreases |refs|
  {
    hide Visit;
    if refs != [] && !(s.kept != [] && refs[0] == Account(ns)) {
      VisitCounts(s, refs[0], ns, name, absent, rights);
      SweepCounts(Visit(s, refs[0], ns, name, absent, rights), refs[1..], ns, name, absent, rights);
      assert refs[0] in refs && forall x :: x in refs[1..] ==> x in refs;
    }
  }

  lemma {:induction false} SweepOnlyOwn(s: Sweep, refs: seq<Ref>, ns: string, name: string, absent: bool, rights: Rights)
    ensures var r := SweepAll(s, refs, ns, name, absent, rights);
      && OnlyOwnGone(r.objects, s.objects, ns, name) && s.kept <= r.kept
      && (forall x :: x in s.objects && x !in r.objects ==> x in refs && rights.read(x).Readable? && rights.delete(x))
    decreases |refs|
  {
    if refs != [] && !(s.kept != [] && refs[0] == Account(ns)) {
      SweepOnlyOwn(Visit(s, refs[0], ns, name, absent, rights), refs[1..], ns, name, absent, rights);
    }
  }

  /**
   * When nothing is kept, no object that was visited and could be read is left
   * to the cluster; nor one that could not, unless a refusal to read was enough
   * to pass over it, the account being proved absent.
   */
  lemma {:induction false} SweepClears(s: Sweep, refs: seq<Ref>, ns: string, name: string, absent: bool, rights: Rights)
    requires SweepAll(s, refs, ns, name, absent, rights).kept == []
    ensures var r := SweepAll(s, refs, ns, name, absent, rights);
      forall x :: x in refs && x in r.objects && (rights.read(x).Readable? || !absent) ==> !Owned(r.objects[x], ns, name)
    decreases |refs|
  {
    SweepOnlyOwn(s, refs, ns, name, absent, rights);
    if refs == [] {
    } else {
      var s1 := Visit(s, refs[0], ns, name, absent, rights);
      SweepOnlyOwn(s1, refs[1..], ns, name, absent, rights);
      SweepClears(s1, refs[1..], ns, name, absent, rights);
    }
  }

  lemma {:induction false} SweepAppend(s: Sweep, a: seq<Ref>, b: seq<Ref>, ns: string, name: string, absent: bool, rights: Rights)
    requires Account(ns) !in a
    ensures SweepAll(s, a + b, ns, name, absent, rights) == SweepAll(SweepAll(s, a, ns, name, absent, rights), b, ns, name, absent, rights)
    decreases |a|
  {
    if a == [] {
      assert a + b == b;
    } else {
      assert (a + b)[0] == a[0] && (a + b)[1..] == a[1..] + b;
      SweepAppend(Visit(s, a[0], ns, name, absent, rights), a[1..], b, ns, name, absent, rights);
    }
  }

  /** Without an account there is nothing to remove, readable or not. */
  lemma {:induction false} NothingWithoutAccount(s: Sweep, refs: seq<Ref>, ns: string, name: string, absent: bool, rights: Rights)
    requires NoneOwned(s.objects, ns, name)
    ensures SweepAll(s, refs, ns, name, absent, rights).objects == s.objects
    decreases |refs|
  {
    if refs != [] && !(s.kept != [] && refs[0] == Account(ns)) {
      NothingWithoutAccount(Visit(s, refs[0], ns, name, absent, rights), refs[1..], ns, name, absent, rights);
    }
  }

  /** Before the account: it is still there, with its list. */
  lemma {:induction false} BodyKeepsAccount(objs: Objects, ns: string, name: string, rights: Rights, body: seq<Ref>, absent: bool)
    requires Covered(objs, ns, name) && Account(ns) !in body
    ensures var r := SweepAll(Sweep(objs, 0, []), body, ns, name, absent, rights).objects;
      Covered(r, ns, name) && (Account(ns) in objs <==> Account(ns) in r)
  {
    SweepOnlyOwn(Sweep(objs, 0, []), body, ns, name, absent, rights);
  }

  lemma {:induction false} PrefixOfTeardown(ns: string, name: string, side: seq<string>, k: nat)
    requires k <= |TeardownBody(ns, name, side)|
    ensures Account(ns) !in Teardown(ns, name, side)[..k]
  {
    AccountComesLast(ns, name, side);
    var body := TeardownBody(ns, name, side);
    assert Teardown(ns, name, side)[..k] == body[..k];
    assert forall x :: x in body[..k] ==> x in body;
  }

  /** The last step: the account goes only when nothing was kept, hence nothing is left. */
  lemma {:induction false} AccountGoesLast(objs: Objects, ns: string, name: string, rights: Rights)
    requires Covered(objs, ns, name) && Account(ns) in objs
    ensures var r := Down(objs, ns, name, rights);
      && Covered(r.objects, ns, name)
      && (Account(ns) !in r.objects || r.kept == [] ==> NoneOwned(r.objects, ns, name))
  {
    hide TeardownBody, Sides;
    var side := KnownSides(objs, ns, rights);
    var body, start := TeardownBody(ns, name, side), Sweep(objs, 0, []);
    AccountComesLast(ns, name, side);
    assert Teardown(ns, name, side)[..|body| + 1] == body + [Account(ns)];
    SweepAppend(start, body, [Account(ns)], ns, name, false, rights);
    BodyKeepsAccount(objs, ns, name, rights, body, false);
    var mid := SweepAll(start, body, ns, name, false, rights);
    SweepOnlyOwn(start, body, ns, name, false, rights);
    LastVisit(mid, ns, name, rights);
    if mid.kept == [] && rights.read(Account(ns)).Readable? {
      SweepClears(start, body, ns, name, false, rights);
    }
  }

  lemma {:induction false} LastVisit(s: Sweep, ns: string, name: string, rights: Rights)
    ensures SweepAll(s, [Account(ns)], ns, name, false, rights) == if s.kept != [] then s else Visit(s, Account(ns), ns, name, false, rights)
  {
    assert [Account(ns)][1..] == [];
  }

  /**
   * The invariant of every attempt, wherever it stops: as long as an object of
   * the cluster is left, its account is there and leads to it. An attempt that
   * keeps nothing leaves none, and only objects of that cluster ever go.
   */
  lemma {:induction false} DownKeepsCovered(objs: Objects, ns: string, name: string, rights: Rights, k: nat)
    requires Covered(objs, ns, name) && k <= |Teardown(ns, name, KnownSides(objs, ns, rights))|
    ensures Covered(DownTo(objs, ns, name, rights, k).objects, ns, name)
    ensures OnlyOwnGone(DownTo(objs, ns, name, rights, k).objects, objs, ns, name)
    ensures Down(objs, ns, name, rights).kept == [] ==> NoneOwned(Down(objs, ns, name, rights).objects, ns, name)
    ensures Account(ns) !in Down(objs, ns, name, rights).objects ==> NoneOwned(Down(objs, ns, name, rights).objects, ns, name)
  {
    hide TeardownBody, Sides, Owned;
    var side, start, absent := KnownSides(objs, ns, rights), Sweep(objs, 0, []), ProvedAbsent(objs, ns, rights);
    var all := Teardown(ns, name, side);
    SweepOnlyOwn(start, all[..k], ns, name, absent, rights);
    if Account(ns) in objs {
      AccountGoesLast(objs, ns, name, rights);
      if k < |all| {
        PrefixOfTeardown(ns, name, side, k);
        BodyKeepsAccount(objs, ns, name, rights, all[..k], absent);
      }
    } else {
      NoneWithoutAccount(objs, ns, name);
      NothingWithoutAccount(start, all[..k], ns, name, absent, rights);
      NothingWithoutAccount(start, all[..|all|], ns, name, absent, rights);
    }
  }

  lemma {:induction false} NoneWithoutAccount(objs: Objects, ns: string, name: string)
    requires Covered(objs, ns, name) && Account(ns) !in objs
    ensures NoneOwned(objs, ns, name)
  {
  }

  /** Any number of attempts, each with its own rights and stopped anywhere, others' objects changing in between. */
  ghost predicate Attempts(states: seq<Objects>, ns: string, name: string) {
    forall i :: 0 <= i < |states| - 1 ==> Attempt(states[i], states[i + 1], ns, name)
  }

  ghost predicate Attempt(w: Objects, u: Objects, ns: string, name: string) {
    || (exists rights: Rights, k: nat :: k <= |Teardown(ns, name, KnownSides(w, ns, rights))| && u == DownTo(w, ns, name, rights, k).objects)
    || OthersMove(w, u, ns, name)
  }

  /** Between attempts: objects of other owners come, go and change, the account's place apart. */
  ghost predicate OthersMove(w: Objects, u: Objects, ns: string, name: string) {
    && (forall r :: r in u && (Owned(u[r], ns, name) || r == Account(ns)) ==> r in w && w[r] == u[r])
    && (Account(ns) in w ==> Account(ns) in u)
  }

  lemma {:induction false} AttemptsKeepCovered(states: seq<Objects>, ns: string, name: string, i: nat)
    requires Attempts(states, ns, name) && i < |states| && Covered(states[0], ns, name)
    ensures Covered(states[i], ns, name)
  {
    if i == 0 {
    } else {
      AttemptsKeepCovered(states, ns, name, i - 1);
      var w, u := states[i - 1], states[i - 1 + 1];
      assert Attempt(w, u, ns, name);
      if rights: Rights, k: nat :| k <= |Teardown(ns, name, KnownSides(w, ns, rights))| && u == DownTo(w, ns, name, rights, k).objects {
        DownKeepsCovered(w, ns, name, rights, k);
      }
    }
  }

  /**
   * If the account could not be read first but can be a moment later, its list
   * is not known when it goes: the roles of a side namespace stay for good.
   */
  lemma {:induction false} LateReadLosesSides(ns: string, name: string, extra: string, rights: Rights)
    requires ns != "harvester-system" && ns != "kube-system" && extra != "" && ',' !in extra
    requires extra !in {ns, VmNamespace(ns), "harvester-system", "kube-system"}
    requires forall r :: rights.read(r).Readable? && rights.delete(r)
    ensures var account, role := Obj(Some(name), Some(ns), extra), Ref(Role, Some(extra), SideRole(ns));
      var objs := map[Account(ns) := account, role := Obj(Some(name), Some(ns), "")];
      && Covered(objs, ns, name)
      && var r := SweepAll(Sweep(objs, 0, []), Teardown(ns, name, []), ns, name, false, rights);
         r.kept == [] && role in r.objects && Account(ns) !in r.objects
  {
    var account, role := Obj(Some(name), Some(ns), extra), Ref(Role, Some(extra), SideRole(ns));
    var objs := map[Account(ns) := account, role := Obj(Some(name), Some(ns), "")];
    SidesReadBack([extra]);
    assert JoinWith([extra], ',') == extra;
    ExtraSideListed(ns, name, extra, [extra]);
    ExtraSideListed(ns, name, extra, []);
    hide TeardownBody, Owned;
    var all := Teardown(ns, name, []);
    assert role != Account(ns) && Owned(objs[role], ns, name) && Owned(objs[Account(ns)], ns, name) by { OwnObjects(ns, name, extra); }
    SweepOnlyOwn(Sweep(objs, 0, []), all, ns, name, false, rights);
    ReadableKeepsNone(Sweep(objs, 0, []), all, ns, name, false, rights);
    SweepClears(Sweep(objs, 0, []), all, ns, name, false, rights);
    assert Account(ns) in all;
  }

  lemma {:induction false} OwnObjects(ns: string, name: string, raw: string)
    ensures Owned(Obj(Some(name), Some(ns), raw), ns, name) && Owned(Obj(Some(name), Some(ns), ""), ns, name)
  {
  }

  /** The roles of a namespace that is neither fixed nor the machines' are removed only when the list names it. */
  lemma {:induction false} ExtraSideListed(ns: string, name: string, extra: string, side: seq<string>)
    requires extra !in {ns, VmNamespace(ns), "harvester-system", "kube-system"}
    ensures Ref(Role, Some(extra), SideRole(ns)) in TeardownBody(ns, name, side) <==> extra in side
  {
    SortedHolds(side + FIXED_SIDE_NAMESPACES + [VmNamespace(ns)]);
    assert extra in side + FIXED_SIDE_NAMESPACES + [VmNamespace(ns)] <==> extra in side;
  }

  // --- what is left, covered or not -----------------------------------------------------------------

  /** Every object of the cluster is among those that the removal visits. */
  ghost predicate Listed(objs: Objects, ns: string, name: string, side: seq<string>) {
    forall r :: r in objs && Owned(objs[r], ns, name) ==> r in Teardown(ns, name, side)
  }

  /** The removal from any state: only the cluster's own objects go, and none of those visited is left if nothing is kept. */
  lemma {:induction false} DownAnyway(objs: Objects, ns: string, name: string, rights: Rights)
    ensures OnlyOwnGone(Down(objs, ns, name, rights).objects, objs, ns, name)
    ensures var r := Down(objs, ns, name, rights);
      r.kept == [] ==> forall x :: x in Teardown(ns, name, KnownSides(objs, ns, rights)) && x in r.objects && rights.read(x).Readable? ==>
        !Owned(r.objects[x], ns, name)
    ensures Covered(objs, ns, name) ==>
      && Covered(Down(objs, ns, name, rights).objects, ns, name)
      && (Down(objs, ns, name, rights).kept == [] || Account(ns) !in Down(objs, ns, name, rights).objects ==>
            NoneOwned(Down(objs, ns, name, rights).objects, ns, name))
  {
    var all := Teardown(ns, name, KnownSides(objs, ns, rights));
    hide TeardownBody, Sides, Covered, NoneOwned, Owned;
    assert all[..|all|] == all;
    var start, absent := Sweep(objs, 0, []), ProvedAbsent(objs, ns, rights);
    SweepOnlyOwn(start, all, ns, name, absent, rights);
    if Down(objs, ns, name, rights).kept == [] {
      SweepClears(start, all, ns, name, absent, rights);
    }
    if Covered(objs, ns, name) {
      DownKeepsCovered(objs, ns, name, rights, |all|);
    }
  }

  /** With every right, nothing of the cluster is left if and only if all of it was visited. */
  lemma {:induction false} LeftIff(objs: Objects, ns: string, name: string, rights: Rights)
    requires forall r :: rights.read(r).Readable? && rights.delete(r)
    ensures NoneOwned(Down(objs, ns, name, rights).objects, ns, name) <==> Listed(objs, ns, name, KnownSides(objs, ns, rights))
  {
    var all := Teardown(ns, name, KnownSides(objs, ns, rights));
    hide TeardownBody, Sides, Owned;
    assert all[..|all|] == all;
    var start, absent := Sweep(objs, 0, []), ProvedAbsent(objs, ns, rights);
    var r := Down(objs, ns, name, rights).objects;
    SweepOnlyOwn(start, all, ns, name, absent, rights);
    ReadableKeepsNone(start, all, ns, name, absent, rights);
    SweepClears(start, all, ns, name, absent, rights);
    if NoneOwned(r, ns, name) {
      forall x | x in objs && Owned(objs[x], ns, name)
        ensures x in all
      {
        assert x !in r;
      }
    }
  }

  /** The account leads to all that is left; without it nothing is. */
  ghost predicate Accounted(objs: Objects, ns: string, name: string) {
    Covered(objs, ns, name) && (Account(ns) !in objs ==> NoneOwned(objs, ns, name))
  }

  lemma {:induction false} StartAccounted(objs: Objects, ns: string, name: string)
    ensures Covered(objs, ns, name) ==> Accounted(objs, ns, name)
  {
    if Covered(objs, ns, name) && Account(ns) !in objs {
      NoneWithoutAccount(objs, ns, name);
    }
  }

  /**
   * The identity was taken down from `w` to its end: nothing kept, of what was
   * visited nothing readable left, and nothing at all if the account led to it.
   */
  ghost predicate IdentityGone(u: Objects, w: Objects, ns: string, name: string, rights: Rights) {
    && u == Down(w, ns, name, rights).objects && Down(w, ns, name, rights).kept == []
    && (forall x :: x in Teardown(ns, name, KnownSides(w, ns, rights)) && x in u && rights.read(x).Readable? ==> !Owned(u[x], ns, name))
    && (Covered(w, ns, name) ==> NoneOwned(u, ns, name))
  }

  lemma {:induction false} ReadableKeepsNone(s: Sweep, refs: seq<Ref>, ns: string, name: string, absent: bool, rights: Rights)
    requires s.kept == [] && forall r :: rights.read(r).Readable? && rights.delete(r)
    ensures SweepAll(s, refs, ns, name, absent, rights).kept == []
    decreases |refs|
  {
    if refs == [] {
    } else {
      ReadableKeepsNone(Visit(s, refs[0], ns, name, absent, rights), refs[1..], ns, name, absent, rights);
    }
  }

  /**
   * A creation cut after `k` documents and undone with every right: nothing of
   * it is left if and only if no rule is scoped on the cluster's own namespace,
   * or its role was not posted yet. A cut right after the first document is
   * undone too, though no account leads to that document.
   */
  lemma {:induction false} CutCreationUndoneIff(objs: Objects, ns: string, name: string, scopes: seq<Option<string>>, k: nat, rights: Rights)
    requires NoneOwned(objs, ns, name) && Account(ns) !in objs && k <= |Docs(ns, name, scopes)|
    requires forall n :: Some(n) in scopes ==> ',' !in n
    requires forall r :: rights.read(r).Readable? && rights.delete(r)
    ensures var w := Post(objs, Docs(ns, name, scopes)[..k], Labelled(ns, name, scopes));
      NoneOwned(Down(w, ns, name, rights).objects, ns, name) <==> Some(ns) !in scopes || k <= 3
  {
    var w := Post(objs, Docs(ns, name, scopes)[..k], Labelled(ns, name, scopes));
    if k >= 2 {
      AccountPosted(objs, ns, name, scopes, k);
      PostedCoveredIff(objs, ns, name, scopes, k);
      hide Docs, Labelled, Covered, Owned, NoneOwned;
      CoveredLeavesNone(w, ns, name, rights);
    } else {
      FewPosted(objs, ns, name, scopes, k);
      hide Docs, Labelled;
      LeftIff(w, ns, name, rights);
      assert k == 1 ==> Ref(Namespace, None, VmNamespace(ns)) in TeardownBody(ns, name, KnownSides(w, ns, rights));
    }
  }

  lemma {:induction false} AccountPosted(objs: Objects, ns: string, name: string, scopes: seq<Option<string>>, k: nat)
    requires 2 <= k <= |Docs(ns, name, scopes)|
    ensures var w := Post(objs, Docs(ns, name, scopes)[..k], Labelled(ns, name, scopes));
      Account(ns) in w && Owned(w[Account(ns)], ns, name)
  {
    var docs := Docs(ns, name, scopes);
    assert docs[1] == Account(ns) && docs[..k][1] == docs[1];
  }

  lemma {:induction false} FewPosted(objs: Objects, ns: string, name: string, scopes: seq<Option<string>>, k: nat)
    requires NoneOwned(objs, ns, name) && k < 2 && k <= |Docs(ns, name, scopes)|
    ensures var w := Post(objs, Docs(ns, name, scopes)[..k], Labelled(ns, name, scopes));
      forall x :: x in w && Owned(w[x], ns, name) ==> k == 1 && x == Ref(Namespace, None, VmNamespace(ns))
  {
    var docs := Docs(ns, name, scopes);
    assert docs[..0] == [] && docs[..1] == [Ref(Namespace, None, VmNamespace(ns))];
  }

  /** Where the account is the cluster's own, all of it is visited if and only if the account leads to it. */
  lemma {:induction false} CoveredLeavesNone(w: Objects, ns: string, name: string, rights: Rights)
    requires Account(ns) in w && forall r :: rights.read(r).Readable? && rights.delete(r)
    ensures NoneOwned(Down(w, ns, name, rights).objects, ns, name) <==> Covered(w, ns, name)
  {
    LeftIff(w, ns, name, rights);
    hide TeardownBody, Sides, Owned, Down;
  }

  /**
   * Undone with fewer rights, a creation cut after its first document leaves
   * its VM namespace exactly when the person may not read or delete it; said to
   * be removed all the same when reading it is forbidden and the account is
   * known to be absent.
   */
  lemma {:induction false} FirstDocumentLeft(objs: Objects, ns: string, name: string, scopes: seq<Option<string>>, rights: Rights)
    requires NoneOwned(objs, ns, name) && Account(ns) !in objs
    ensures var v := Ref(Namespace, None, VmNamespace(ns));
      var w := Post(objs, Docs(ns, name, scopes)[..1], Labelled(ns, name, scopes));
      var r := Down(w, ns, name, rights);
      && (NoneOwned(r.objects, ns, name) <==> rights.read(v).Readable? && rights.delete(v))
      && (v in r.objects && r.kept == [] ==> rights.read(v).Forbidden? && rights.read(Account(ns)).Readable?)
  {
    var v := Ref(Namespace, None, VmNamespace(ns));
    var w := Post(objs, Docs(ns, name, scopes)[..1], Labelled(ns, name, scopes));
    assert Docs(ns, name, scopes)[..1] == [v] && v != Account(ns);
    assert Owned(w[v], ns, name) && forall x :: x in w && x != v ==> !Owned(w[x], ns, name);
    hide Labelled, Docs, Owned, Sides;
    OnlyDocument(w, v, ns, name, rights);
  }

  lemma {:induction false} OnlyDocument(w: Objects, v: Ref, ns: string, name: string, rights: Rights)
    requires v == Ref(Namespace, None, VmNamespace(ns)) && v in w && Account(ns) !in w
    requires Owned(w[v], ns, name) && forall x :: x in w && x != v ==> !Owned(w[x], ns, name)
    ensures var r := Down(w, ns, name, rights);
      && (NoneOwned(r.objects, ns, name) <==> rights.read(v).Readable? && rights.delete(v))
      && (v in r.objects && r.kept == [] ==> rights.read(v).Forbidden? && rights.read(Account(ns)).Readable?)
  {
    var all := Teardown(ns, name, KnownSides(w, ns, rights));
    assert v in TeardownBody(ns, name, KnownSides(w, ns, rights));
    AccountComesLast(ns, name, KnownSides(w, ns, rights));
    hide TeardownBody, Sides, Owned;
    assert all[..|all|] == all && v in all && all[..|all| - 1] == TeardownBody(ns, name, KnownSides(w, ns, rights));
    var start, absent := Sweep(w, 0, []), ProvedAbsent(w, ns, rights);
    SweepOnlyOwn(start, all, ns, name, absent, rights);
    OneOwned(start, all, v, ns, name, absent, rights);
  }

  /** One object of the cluster among those visited: what becomes of it. */
  lemma {:induction false} OneOwned(s: Sweep, refs: seq<Ref>, v: Ref, ns: string, name: string, absent: bool, rights: Rights)
    requires v in refs && v != Account(ns) && Account(ns) !in refs[..|refs| - 1]
    requires v in s.objects && Owned(s.objects[v], ns, name)
    ensures var r := SweepAll(s, refs, ns, name, absent, rights);
      && (v in r.objects <==> !(rights.read(v).Readable? && rights.delete(v)))
      && (v in r.objects && r.kept == [] ==> rights.read(v).Forbidden? && absent)
    decreases |refs|
  {
    assert refs[0] != Account(ns);
    var s1 := Visit(s, refs[0], ns, name, absent, rights);
    SweepOnlyOwn(s1, refs[1..], ns, name, absent, rights);
    if refs[0] == v {
    } else {
      assert v in refs[1..];
      OneOwned(s1, refs[1..], v, ns, name, absent, rights);
    }
  }

  // --- the commands -----------------------------------------------------------------------------

  datatype Exit = Success | Fail | Raised

  const SECRETS := "secrets"
  const GENERATED_KINDS := [
    "clusterclasses.cluster.x-k8s.io",
    "harvesterclustertemplates.infrastructure.cluster.x-k8s.io",
    "harvestermachinetemplates.infrastructure.cluster.x-k8s.io",
    "rke2controlplanetemplates.controlplane.cluster.x-k8s.io",
    "rke2configtemplates.bootstrap.cluster.x-k8s.io",
    "clusterresourcesets.addons.cluster.x-k8s.io",
    "machinehealthchecks.cluster.x-k8s.io",
    "configmaps", SECRETS]

  /** What the console rendered beside the clusters of the namespace: templates, add-ons, secrets. */
  datatype Made = Made(kind: string, what: Secret)

  /** Which calls fail, when a cluster that is being deleted is gone, which kinds can be listed, and what can be deleted (or is gone by then). */
  datatype Outside = Outside(fails: nat -> bool, gone: int -> bool, lists: string -> bool, leaves: Made -> bool)

  function OfKind(made: seq<Made>, kind: string): (r: seq<Made>)
    ensures forall m :: m in r <==> m in made && m.kind == kind
  {
    if made == [] then [] else (if made[0].kind == kind then [made[0]] else []) + OfKind(made[1..], kind)
  }

  function Whats(made: seq<Made>): seq<Secret> {
    if made == [] then [] else [made[0].what] + Whats(made[1..])
  }

  lemma {:induction false} WhatsHold(made: seq<Made>, s: Secret)
    ensures s in Whats(made) <==> exists m :: m in made && m.what == s
  {
    if made == [] {
    } else {
      WhatsHold(made[1..], s);
      assert forall m :: m in made <==> m == made[0] || m in made[1..];
    }
  }

  function Except(made: seq<Made>, x: Made): (r: seq<Made>)
    ensures forall m :: m in r <==> m in made && m != x
  {
    if made == [] then [] else (if made[0] == x then [] else [made[0]]) + Except(made[1..], x)
  }

  /**
   * What leaves with the last cluster of a namespace: all of each kind that can
   * be listed, but for what cannot be deleted. With another cluster: its own
   * registry secrets.
   */
  ghost predicate Leaves(m: Made, made: seq<Made>, name: string, alone: bool, outside: Outside) {
    && outside.lists(m.kind) && outside.leaves(m)
    && (if alone then m.kind in GENERATED_KINDS else m.kind == SECRETS && m.what in Taken(Whats(OfKind(made, SECRETS)), name))
  }

  /** From `before` to `after` exactly that left. */
  ghost predicate Cleaned(after: seq<Made>, before: seq<Made>, name: string, alone: bool, outside: Outside) {
    forall m :: m in after <==> m in before && !Leaves(m, before, name, alone, outside)
  }

  /** The cluster is gone at some reading: every ten seconds, as long as the reading before was not past the deadline. */
  ghost predicate LeavesInTime(start: int, timeout: nat, outside: Outside) {
    exists j: nat :: GoneAt(start, j, outside) && 10 * (j - 1) <= timeout
  }

  /** The reading number `j` does not find it. */
  predicate GoneAt(start: int, j: nat, outside: Outside) {
    outside.gone(start + 10 * j)
  }

  /** The cluster is gone but its identity is left: the account bears its name. */
  predicate LeftOver(objs: Objects, ns: string, name: string) {
    Account(ns) in objs && objs[Account(ns)].cluster == Some(name)
  }

  /** Some call fails. */
  ghost predicate SomeCallFails(outside: Outside) {
    exists c: nat :: outside.fails(c)
  }

  /** The management cluster, seen from the namespace of the command. */
  class Management {
    var objects: Objects
    var clusters: set<string>
    var namespaceThere: bool
    var now: int
    var calls: nat
    var generated: seq<Made>
    const managed: bool

    constructor (objects: Objects, clusters: set<string>, generated: seq<Made>, managed: bool)
      ensures this.objects == objects && this.clusters == clusters && this.generated == generated && this.managed == managed
      ensures namespaceThere
    {
      this.objects, this.clusters, this.generated, this.managed := objects, clusters, generated, managed;
      namespaceThere, now, calls := true, 0, 0;
    }

    method Call(outside: Outside) returns (ok: bool)
      modifies `calls
      ensures !ok ==> SomeCallFails(outside)
    {
      ok := !outside.fails(calls);
      calls := calls + 1;
    }

    /** `identity_down` */
    method IdentityDown(ns: string, name: string, rights: Rights) returns (gone: nat, kept: seq<Ref>)
      modifies `objects
      ensures Sweep(objects, gone, kept) == Down(old(objects), ns, name, rights)
    {
      hide TeardownBody, Sides, Teardown;
      ghost var w := objects;
      var side: seq<string>, absent := [], false;
      if rights.read(Account(ns)).Readable? {
        if Account(ns) in objects {
          side := Sides(objects[Account(ns)].side);
        } else {
          absent := true;
        }
      }
      gone, kept := 0, [];
      var all := Teardown(ns, name, side);
      assert all[..|all|] == all && all[0..] == all;
      for n := 0 to |all|
        invariant SweepAll(Sweep(objects, gone, kept), all[n..], ns, name, absent, rights) == Down(w, ns, name, rights)
      {
        var r := all[n];
        assert all[n..][0] == r && all[n..][1..] == all[n + 1..];
        if kept != [] && r == Account(ns) {
          break;
        }
        if !rights.read(r).Readable? {
          if !(absent && rights.read(r).Forbidden?) {
            kept := kept + [r];
          }
        } else if r in objects && objects[r].cluster == Some(name) && objects[r].namespace == Some(ns) {
          if rights.delete(r) {
            objects := objects - {r};
            gone := gone + 1;
          } else {
            kept := kept + [r];
          }
        }
      }
    }

    /** Waits until the cluster has left: it has when some reading in time does not find it. */
    method WaitGone(name: string, timeout: nat, outside: Outside) returns (r: Exit)
      modifies `clusters, `now, `calls
      ensures clusters == old(clusters) || clusters == old(clusters) - {name}
      ensures match r
        case Success => name !in clusters && (name in old(clusters) ==> LeavesInTime(old(now), timeout, outside))
        case Fail => name in old(clusters) && !LeavesInTime(old(now), timeout, outside)
        case Raised => SomeCallFails(outside)
    {
      var deadline := now + timeout;
      ghost var k := 0;
      while true
        invariant clusters == old(clusters)
        invariant k >= 0 && now == old(now) + 10 * k && 10 * (k - 1) <= timeout
        invariant k > 0 ==> name in clusters
        invariant forall j: nat :: j < k ==> !GoneAt(old(now), j, outside)
        decreases deadline + 11 - now
      {
        var ok := Call(outside);
        if !ok {
          return Raised;
        }
        assert outside.gone(now) == GoneAt(old(now), k, outside);
        if outside.gone(now) {
          clusters := clusters - {name};
        }
        if name !in clusters {
          return Success;
        }
        if now > deadline {
          forall j: nat | 10 * (j - 1) <= timeout
            ensures !GoneAt(old(now), j, outside)
          {
            assert j < k || j == k;
          }
          return Fail;
        }
        ok := Call(outside);
        if !ok {
          return Raised;
        }
        now := now + 10;
        k := k + 1;
      }
    }

    /** Deletes what was listed; what refuses stays. */
    method DeleteAll(found: seq<Made>, outside: Outside)
      modifies `generated
      ensures forall m :: m in generated <==> m in old(generated) && !(m in found && outside.leaves(m))
    {
      for n := 0 to |found|
        invariant forall m :: m in generated <==> m in old(generated) && !(m in found[..n] && outside.leaves(m))
      {
        assert found[..n + 1] == found[..n] + [found[n]];
        if outside.leaves(found[n]) {
          generated := Except(generated, found[n]);
        }
      }
      assert found[..|found|] == found;
    }

    /** Kind by kind; one that cannot be listed does not stop the others. */
    method RemoveGenerated(name: string, outside: Outside)
      modifies `generated
      ensures Cleaned(generated, old(generated), name, true, outside)
    {
      var kinds := GENERATED_KINDS;
      for n := 0 to |kinds|
        invariant forall m :: m in generated <==>
          m in old(generated) && !(m.kind in kinds[..n] && outside.lists(m.kind) && outside.leaves(m))
      {
        assert kinds[..n + 1] == kinds[..n] + [kinds[n]];
        if outside.lists(kinds[n]) {
          DeleteAll(OfKind(generated, kinds[n]), outside);
        }
      }
      assert kinds[..|kinds|] == kinds;
    }

    /** `_remove_registry_secrets` */
    method RemoveRegistrySecrets(name: string, outside: Outside)
      modifies `generated
      ensures Cleaned(generated, old(generated), name, false, outside)
    {
      if !outside.lists(SECRETS) {
        return;
      }
      var listed := OfKind(generated, SECRETS);
      var taken := RegistrySecretsOf(Whats(listed), name);
      var found := seq(|taken|, i requires 0 <= i < |taken| => Made(SECRETS, taken[i]));
      hide Taken, Whats;
      forall m: Made
        ensures m in found <==> m.kind == SECRETS && m.what in taken
      {
        if m.kind == SECRETS && m.what in taken {
          var i :| 0 <= i < |taken| && taken[i] == m.what;
          assert found[i] == m;
        }
      }
      DeleteAll(found, outside);
    }

    /**
     * `remove_cluster`: the cluster, then its identity, then what the console
     * rendered for it, then the namespace that the console created, each only
     * once the one before is gone. Where the account leads to everything,
     * nothing is left to the cluster.
     */
    method RemoveCluster(ns: string, name: string, timeout: nat, rights: Rights, outside: Outside) returns (r: Exit)
      modifies this
      ensures OnlyOwnGone(objects, old(objects), ns, name)
      ensures clusters == old(clusters) || clusters == old(clusters) - {name}
      ensures objects != old(objects) ==> name !in clusters && objects == Down(old(objects), ns, name, rights).objects
      ensures r == Success ==> name !in clusters && IdentityGone(objects, old(objects), ns, name, rights)
      ensures namespaceThere != old(namespaceThere) ==>
        !namespaceThere && managed && clusters == {} && IdentityGone(objects, old(objects), ns, name, rights)
      ensures generated != old(generated) ==> name !in clusters && IdentityGone(objects, old(objects), ns, name, rights)
      ensures r == Success || generated != old(generated) ==> Cleaned(generated, old(generated), name, clusters == {}, outside)
      ensures r == Raised ==> SomeCallFails(outside)
      ensures r != Raised ==>
        if name in old(clusters) && !LeavesInTime(old(now), timeout, outside)
        then r == Fail && objects == old(objects) && generated == old(generated) && namespaceThere == old(namespaceThere)
        else objects == Down(old(objects), ns, name, rights).objects && (r == Success <==> Down(old(objects), ns, name, rights).kept == [])
      ensures r == Success && clusters == {} && managed ==> !namespaceThere
      ensures old(Covered(objects, ns, name)) ==> Accounted(objects, ns, name)
    {
      ghost var w := objects;
      hide Down, Teardown, KnownSides, Covered, NoneOwned, Owned, Leaves;
      StartAccounted(w, ns, name);
      var ok := Call(outside);
      if !ok {
        return Raised;
      }
      if name in clusters {
        ok := Call(outside);
        if !ok {
          return Raised;
        }
      }
      r := WaitGone(name, timeout, outside);
      if r != Success {
        return;
      }
      DownAnyway(w, ns, name, rights);
      var gone, kept := IdentityDown(ns, name, rights);
      if kept != [] {
        return Fail;
      }
      ok := Call(outside);
      if !ok {
        return Raised;
      }
      if clusters != {} {
        RemoveRegistrySecrets(name, outside);
        return Success;
      }
      RemoveGenerated(name, outside);
      if managed {
        ok := Call(outside);
        if !ok {
          return Raised;
        }
        namespaceThere := false;
      }
      return Success;
    }

    /** `cmd_delete`: also resumes where only the identity is left. */
    method Delete(ns: string, name: string, timeout: nat, rights: Rights, outside: Outside) returns (r: Exit)
      modifies this
      ensures OnlyOwnGone(objects, old(objects), ns, name)
      ensures objects != old(objects) ==> name !in clusters && objects == Down(old(objects), ns, name, rights).objects
      ensures r == Success ==> name !in clusters && IdentityGone(objects, old(objects), ns, name, rights)
      ensures namespaceThere != old(namespaceThere) ==>
        !namespaceThere && managed && clusters == {} && IdentityGone(objects, old(objects), ns, name, rights)
      ensures generated != old(generated) ==> name !in clusters && IdentityGone(objects, old(objects), ns, name, rights)
      ensures r == Success || generated != old(generated) ==> Cleaned(generated, old(generated), name, clusters == {}, outside)
      ensures r == Raised ==> SomeCallFails(outside) || (name !in old(clusters) && !rights.read(Account(ns)).Readable?)
      ensures r != Raised ==>
        if name in old(clusters) && !LeavesInTime(old(now), timeout, outside)
        then r == Fail && objects == old(objects) && generated == old(generated) && namespaceThere == old(namespaceThere)
        else if name in old(clusters) || LeftOver(old(objects), ns, name)
        then objects == Down(old(objects), ns, name, rights).objects && (r == Success <==> Down(old(objects), ns, name, rights).kept == [])
        else r == Fail && objects == old(objects)
      ensures r == Success && clusters == {} && managed ==> !namespaceThere
      ensures old(Covered(objects, ns, name)) ==> Accounted(objects, ns, name)
      ensures name !in old(clusters) && !LeftOver(old(objects), ns, name) ==>
        r != Success && objects == old(objects) && namespaceThere == old(namespaceThere)
    {
      StartAccounted(objects, ns, name);
      var ok := Call(outside);
      if !ok {
        return Raised;
      }
      if name !in clusters {
        if !rights.read(Account(ns)).Readable? {
          return Raised;
        }
        if !LeftOver(objects, ns, name) {
          return Fail;
        }
      }
      r := RemoveCluster(ns, name, timeout, rights, outside);
    }

    /** `_undo` of a creation cut short: a namespace that existed before stays. */
    method Undo(ns: string, name: string, created: bool, applied: bool, timeout: nat, rights: Rights, outside: Outside)
      modifies this
      ensures OnlyOwnGone(objects, old(objects), ns, name)
      ensures !applied ==> objects == Down(old(objects), ns, name, rights).objects && clusters == old(clusters)
      ensures applied && objects != old(objects) ==>
        name !in clusters && objects == Down(old(objects), ns, name, rights).objects
      ensures namespaceThere != old(namespaceThere) ==>
        && !namespaceThere && (if applied then managed && clusters == {} else created)
        && IdentityGone(objects, old(objects), ns, name, rights)
      ensures generated != old(generated) ==>
        applied && name !in clusters && IdentityGone(objects, old(objects), ns, name, rights)
      ensures !SomeCallFails(outside) && applied && (name in old(clusters) ==> LeavesInTime(old(now), timeout, outside)) ==>
        && objects == Down(old(objects), ns, name, rights).objects
        && (Down(old(objects), ns, name, rights).kept == [] && clusters == {} && managed ==> !namespaceThere)
      ensures !SomeCallFails(outside) && !applied && created && Down(old(objects), ns, name, rights).kept == [] ==> !namespaceThere
      ensures old(Covered(objects, ns, name)) ==> Accounted(objects, ns, name)
    {
      if applied {
        var _ := RemoveCluster(ns, name, timeout, rights, outside);
        return;
      }
      DownAnyway(objects, ns, name, rights);
      var gone, kept := IdentityDown(ns, name, rights);
      if kept != [] || !created {
        return;
      }
      var ok := Call(outside);
      if ok {
        namespaceThere := false;
      }
    }
  }
}
