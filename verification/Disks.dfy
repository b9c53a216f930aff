/**
 * Disks of a bare-metal installation (web/baremetal_disks.py): the stable path
 * of a disk, the many names it may be designated by, the check of the roles,
 * and the fields written for the installer.
 */
module Disks {
  import opened Names
  import opened Text
  import opened Wrappers

  const GIB := 0x4000_0000
  const SINGLE_DISK_MIN_GIB := 250
  const MULTIPLE_DISK_MIN_GIB := 180
  const DATA_DISK_MIN_GIB := 50
  const BY_ID_ORDER := ["nvme-eui.", "nvme-", "wwn-", "ata-", "scsi-"]

  datatype Disk = Disk(name: string, stable: string, byId: seq<string>, byPath: seq<string>, size: nat, hasData: bool)

  // --- stable paths ---------------------------------------------------------------------

  function Base(link: string): string {
    if '/' !in link then link else Base(link[1..])
  }

  function WithoutDigits(s: string): string {
    if s != "" && '0' <= s[|s| - 1] <= '9' then WithoutDigits(s[..|s| - 1]) else s
  }

  predicate EndsWith(s: string, tail: string) {
    |tail| <= |s| && s[|s| - |tail|..] == tail
  }

  /** `tail`, then digits to the end. */
  predicate Numbered(s: string, tail: string) {
    WithoutDigits(s) != s && EndsWith(WithoutDigits(s), tail)
  }

  predicate Contains(s: string, part: string) {
    part <= s || (s != "" && Contains(s[1..], part))
  }

  function WholeDisk(links: seq<string>): (r: seq<string>)
    ensures forall l :: l in r ==> l in links
  {
    if links == [] then []
    else (if Numbered(links[0], "-part") then [] else [links[0]]) + WholeDisk(links[1..])
  }

  function PathRank(link: string): (int, int, string) {
    (if "pci-" <= Base(link) then 0 else 1, if Numbered(Base(link), "-ata-") then 1 else 0, Base(link))
  }

  function IdRank(link: string): (int, int, string) {
    (if Contains(link, "/nvme-nvme.") then 1 else 0, |link|, link)
  }

  predicate Before(a: (int, int, string), b: (int, int, string)) {
    a.0 < b.0 || (a.0 == b.0 && (a.1 < b.1 || (a.1 == b.1 && Less(a.2, b.2))))
  }

  /** The first of the least. */
  function Least(links: seq<string>, rank: string -> (int, int, string)): (l: string)
    requires links != []
    ensures l in links
  {
    if |links| == 1 then links[0]
    else
      var rest := Least(links[1..], rank);
      if Before(rank(rest), rank(links[0])) then rest else links[0]
  }

  function WithPrefix(links: seq<string>, prefix: string): (r: seq<string>)
    ensures forall l :: l in r ==> l in links
  {
    if links == [] then []
    else
      (if prefix <= Base(links[0]) && !(prefix == "nvme-" && "nvme-eui." <= Base(links[0])) then [links[0]] else [])
      + WithPrefix(links[1..], prefix)
  }

  function ByPrefix(links: seq<string>, prefixes: seq<string>): (l: Option<string>)
    ensures l.Some? ==> l.value in links
  {
    if prefixes == [] then None
    else if WithPrefix(links, prefixes[0]) != [] then Some(Least(WithPrefix(links, prefixes[0]), IdRank))
    else ByPrefix(links, prefixes[1..])
  }

  /** `stable_path`: by-path, else a by-id in the order of preference, else the kernel's name. */
  function StablePath(d: Disk): (p: string)
    ensures p in d.byPath || p in d.byId || p == "/dev/" + d.name
  {
    var paths, ids := WholeDisk(d.byPath), WholeDisk(d.byId);
    if paths != [] then Least(paths, PathRank)
    else if ByPrefix(ids, BY_ID_ORDER).Some? then ByPrefix(ids, BY_ID_ORDER).value
    else "/dev/" + d.name
  }

  // --- the names of disks -----------------------------------------------------------------

  function NamesOf(d: Disk): seq<string> {
    [d.stable, "/dev/" + d.name] + d.byId + d.byPath
  }

  /** The first disk that bears this name. */
  function Find(disks: seq<Disk>, n: string): (d: Option<Disk>)
    ensures d.Some? ==> d.value in disks && n in NamesOf(d.value) && n != ""
  {
    if disks == [] || n == "" then None
    else if n in NamesOf(disks[0]) then Some(disks[0])
    else Find(disks[1..], n)
  }

  /** The names of one disk, those already taken left to the disks before it. */
  method IndexOne(before: map<string, Disk>, d: Disk) returns (idx: map<string, Disk>)
    ensures forall n :: n in idx <==> n in before || (n != "" && n in NamesOf(d))
    ensures forall n :: n in idx ==> idx[n] == if n in before then before[n] else d
  {
    idx := before;
    var names := NamesOf(d);
    for k := 0 to |names|
      invariant forall n :: n in idx <==> n in before || (n != "" && n in names[..k])
      invariant forall n :: n in idx ==> idx[n] == if n in before then before[n] else d
    {
      assert names[..k + 1] == names[..k] + [names[k]];
      if names[k] != "" && names[k] !in idx {
        idx := idx[names[k] := d];
      }
    }
    assert names[..|names|] == names;
  }

  ghost predicate Indexes(idx: map<string, Disk>, disks: seq<Disk>) {
    forall n :: (n in idx <==> Find(disks, n).Some?) && (n in idx ==> Find(disks, n) == Some(idx[n]))
  }

  lemma {:induction false} IndexStep(before: map<string, Disk>, idx: map<string, Disk>, disks: seq<Disk>, d: Disk)
    requires Indexes(before, disks)
    requires forall n :: n in idx <==> n in before || (n != "" && n in NamesOf(d))
    requires forall n :: n in idx ==> idx[n] == if n in before then before[n] else d
    ensures Indexes(idx, disks + [d])
  {
    forall n
      ensures (n in idx <==> Find(disks + [d], n).Some?) && (n in idx ==> Find(disks + [d], n) == Some(idx[n]))
    {
      FindAppend(disks, d, n);
    }
  }

  /** `_index`: every name that designates a disk, the first disk first. */
  method Index(disks: seq<Disk>) returns (idx: map<string, Disk>)
    ensures Indexes(idx, disks)
  {
    idx := map[];
    for i := 0 to |disks|
      invariant Indexes(idx, disks[..i])
    {
      ghost var before := idx;
      idx := IndexOne(idx, disks[i]);
      IndexStep(before, idx, disks[..i], disks[i]);
      assert disks[..i + 1] == disks[..i] + [disks[i]];
    }
    assert disks[..|disks|] == disks;
  }

  lemma {:induction false} FindAppend(disks: seq<Disk>, d: Disk, n: string)
    ensures Find(disks + [d], n) == if Find(disks, n).Some? then Find(disks, n) else if n != "" && n in NamesOf(d) then Some(d) else None
  {
    if disks == [] {
      assert disks + [d] == [d] && [d][1..] == [];
    } else {
      assert (disks + [d])[1..] == disks[1..] + [d] && (disks + [d])[0] == disks[0];
      FindAppend(disks[1..], d, n);
    }
  }

  /** Disks of different names share no name at all: a link leads to one disk. */
  ghost predicate Exclusive(disks: seq<Disk>) {
    forall a, b, n :: a in disks && b in disks && n in NamesOf(a) && n in NamesOf(b) && n != "" ==> a == b
  }

  function OwnNames(d: Disk): seq<string> {
    ["/dev/" + d.name] + d.byId + d.byPath
  }

  /** It is enough that links and kernel names are not shared: a stable path is one of them. */
  lemma {:induction false} LinksMakeExclusive(disks: seq<Disk>)
    requires forall d :: d in disks ==> d.stable == StablePath(d)
    requires forall a, b, n :: a in disks && b in disks && n in OwnNames(a) && n in OwnNames(b) && n != "" ==> a == b
    ensures Exclusive(disks)
  {
    forall d, n | d in disks && n in NamesOf(d)
      ensures n in OwnNames(d)
    {
      if n == d.stable {
        assert n == StablePath(d);
      }
    }
  }

  /** Then every name of a disk, its stable path included, designates it. */
  lemma {:induction false} EveryNameFinds(disks: seq<Disk>, d: Disk, n: string)
    requires Exclusive(disks) && d in disks && n in NamesOf(d) && n != ""
    ensures Find(disks, n) == Some(d)
  {
    FindSome(disks, d, n);
  }

  lemma {:induction false} FindSome(disks: seq<Disk>, d: Disk, n: string)
    requires d in disks && n in NamesOf(d) && n != ""
    ensures Find(disks, n).Some?
  {
    if disks[0] != d && n !in NamesOf(disks[0]) {
      FindSome(disks[1..], d, n);
    }
  }

  // --- the roles -----------------------------------------------------------------------------

  datatype Roles = Roles(os: string, data: string, pools: seq<(string, seq<string>)>, wipe: seq<string>)
  datatype Role = Os | Data | Pool
  datatype Reason = NoOs | UnknownDisk | RoleTwice | TooSmall(need: int) | HasData | PoolTag
  type Errors = seq<(string, Reason)>

  predicate TagChar(c: char) {
    'a' <= c <= 'z' || '0' <= c <= '9'
  }

  predicate ValidTag(t: string) {
    1 <= |t| <= 32 && TagChar(t[0]) && TagChar(t[|t| - 1]) && forall c :: c in t ==> TagChar(c) || c == '-'
  }

  function Tags(pools: seq<(string, seq<string>)>): seq<string> {
    if pools == [] then [] else [pools[0].0] + Tags(pools[1..])
  }

  function IdsOf(pools: seq<(string, seq<string>)>, tag: string): seq<string> {
    if pools == [] then [] else if pools[0].0 == tag then pools[0].1 else IdsOf(pools[1..], tag)
  }

  function Trimmed(ids: seq<string>): (r: seq<string>)
    ensures forall id :: id in r ==> id != ""
  {
    if ids == [] then [] else (if Strip(ids[0]) == "" then [] else [Strip(ids[0])]) + Trimmed(ids[1..])
  }

  function AsPool(ids: seq<string>): seq<(string, Role)> {
    if ids == [] then [] else [(ids[0], Pool)] + AsPool(ids[1..])
  }

  function PoolsAssigned(tags: seq<string>, pools: seq<(string, seq<string>)>): seq<(string, Role)> {
    if tags == [] then [] else AsPool(Trimmed(IdsOf(pools, tags[0]))) + PoolsAssigned(tags[1..], pools)
  }

  /** Who gets which role, in order: system, data, pools by tag. */
  function Assigned(r: Roles): seq<(string, Role)> {
    (if Strip(r.os) == "" then [] else [(Strip(r.os), Os)])
    + (if Strip(r.data) == "" then [] else [(Strip(r.data), Data)])
    + PoolsAssigned(Sorted(Tags(r.pools)), r.pools)
  }

  function Add(errors: Errors, path: string, reason: Reason): (r: Errors)
    ensures r != []
  {
    if (path, reason) in errors then errors else errors + [(path, reason)]
  }

  function TagErrors(tags: seq<string>, errors: Errors): Errors
    decreases |tags|
  {
    if tags == [] then errors else TagErrors(tags[1..], if ValidTag(tags[0]) then errors else Add(errors, tags[0], PoolTag))
  }

  function WipeErrors(disks: seq<Disk>, ids: seq<string>, errors: Errors): Errors
    decreases |ids|
  {
    if ids == [] then errors
    else WipeErrors(disks, ids[1..], if Find(disks, ids[0]).None? then Add(errors, ids[0], UnknownDisk) else errors)
  }

  function Wiped(disks: seq<Disk>, ids: seq<string>): set<string> {
    set id | id in ids && Find(disks, id).Some? :: Find(disks, id).value.name
  }

  function Need(role: Role, withData: bool): int {
    if role == Os then if withData then MULTIPLE_DISK_MIN_GIB else SINGLE_DISK_MIN_GIB else DATA_DISK_MIN_GIB
  }

  datatype Options = Options(skipChecks: bool, wipeAll: bool, withData: bool, wiped: set<string>)

  predicate BigEnough(d: Disk, role: Role, o: Options) {
    o.skipChecks || d.size / GIB >= Need(role, o.withData)
  }

  predicate MayOverwrite(d: Disk, o: Options) {
    !d.hasData || o.wipeAll || d.name in o.wiped
  }

  function RoleErrors(disks: seq<Disk>, duties: seq<(string, Role)>, seen: set<string>, o: Options, errors: Errors): Errors
    decreases |duties|
  {
    if duties == [] then errors
    else
      var (id, role) := duties[0];
      match Find(disks, id)
      case None => RoleErrors(disks, duties[1..], seen, o, Add(errors, id, UnknownDisk))
      case Some(d) =>
        if d.name in seen then RoleErrors(disks, duties[1..], seen, o, Add(errors, id, RoleTwice))
        else
          var sized := if BigEnough(d, role, o) then errors else Add(errors, id, TooSmall(Need(role, o.withData)));
          RoleErrors(disks, duties[1..], seen + {d.name}, o, if MayOverwrite(d, o) then sized else Add(sized, id, HasData))
  }

  function OptionsOf(disks: seq<Disk>, r: Roles, skipChecks: bool, wipeAll: bool): Options {
    Options(skipChecks, wipeAll, Strip(r.data) != "", Wiped(disks, Trimmed(r.wipe)))
  }

  /** `check_disk_roles` */
  function CheckErrors(disks: seq<Disk>, r: Roles, skipChecks: bool, wipeAll: bool): Errors {
    var e0 := if Strip(r.os) == "" then [("", NoOs)] else [];
    var e1 := TagErrors(Sorted(Tags(r.pools)), e0);
    var e2 := WipeErrors(disks, Trimmed(r.wipe), e1);
    RoleErrors(disks, Assigned(r), {}, OptionsOf(disks, r, skipChecks, wipeAll), e2)
  }

  // --- what no error means -----------------------------------------------------------------------

  /** One assignment, alone: a known disk, large enough, whose data may go. */
  ghost predicate Fits(disks: seq<Disk>, a: (string, Role), o: Options) {
    match Find(disks, a.0)
    case None => false
    case Some(d) => BigEnough(d, a.1, o) && MayOverwrite(d, o)
  }

  ghost predicate AllFit(disks: seq<Disk>, duties: seq<(string, Role)>, o: Options) {
    && (forall i :: 0 <= i < |duties| ==> Fits(disks, duties[i], o))
    && (forall i, j :: 0 <= i < j < |duties| ==> Find(disks, duties[i].0).value.name != Find(disks, duties[j].0).value.name)
  }

  lemma {:induction false} TagErrorsIff(tags: seq<string>, errors: Errors)
    ensures TagErrors(tags, errors) == [] <==> errors == [] && forall t :: t in tags ==> ValidTag(t)
    decreases |tags|
  {
    if tags == [] {
    } else {
      TagErrorsIff(tags[1..], if ValidTag(tags[0]) then errors else Add(errors, tags[0], PoolTag));
      assert forall t :: t in tags <==> t == tags[0] || t in tags[1..];
    }
  }

  lemma {:induction false} WipeErrorsIff(disks: seq<Disk>, ids: seq<string>, errors: Errors)
    ensures WipeErrors(disks, ids, errors) == [] <==> errors == [] && forall id :: id in ids ==> Find(disks, id).Some?
    decreases |ids|
  {
    if ids == [] {
    } else {
      WipeErrorsIff(disks, ids[1..], if Find(disks, ids[0]).None? then Add(errors, ids[0], UnknownDisk) else errors);
      assert ids[0] in ids && forall id :: id in ids ==> id == ids[0] || id in ids[1..];
      assert forall id :: id in ids[1..] ==> id in ids;
    }
  }

  lemma {:induction false} RoleErrorsKeep(disks: seq<Disk>, duties: seq<(string, Role)>, seen: set<string>, o: Options, errors: Errors)
    requires errors != []
    ensures RoleErrors(disks, duties, seen, o, errors) != []
    decreases |duties|
  {
    if duties == [] {
    } else {
      var (id, role) := duties[0];
      match Find(disks, id)
      case None => RoleErrorsKeep(disks, duties[1..], seen, o, Add(errors, id, UnknownDisk));
      case Some(d) =>
        if d.name in seen {
          RoleErrorsKeep(disks, duties[1..], seen, o, Add(errors, id, RoleTwice));
        } else {
          var sized := if BigEnough(d, role, o) then errors else Add(errors, id, TooSmall(Need(role, o.withData)));
          RoleErrorsKeep(disks, duties[1..], seen + {d.name}, o, if MayOverwrite(d, o) then sized else Add(sized, id, HasData));
        }
    }
  }

  ghost predicate NotSeen(disks: seq<Disk>, duties: seq<(string, Role)>, seen: set<string>) {
    forall i :: 0 <= i < |duties| && Find(disks, duties[i].0).Some? ==> Find(disks, duties[i].0).value.name !in seen
  }

  lemma {:induction false} RoleErrorsIff(disks: seq<Disk>, duties: seq<(string, Role)>, seen: set<string>, o: Options)
    ensures RoleErrors(disks, duties, seen, o, []) == [] <==> AllFit(disks, duties, o) && NotSeen(disks, duties, seen)
    decreases |duties|
  {
    if duties == [] {
    } else {
      var (id, role) := duties[0];
      var rest := duties[1..];
      if Find(disks, id).None? {
        RoleErrorsKeep(disks, rest, seen, o, Add([], id, UnknownDisk));
      } else {
        var d := Find(disks, id).value;
        if d.name in seen {
          RoleErrorsKeep(disks, rest, seen, o, Add([], id, RoleTwice));
        } else if !Fits(disks, duties[0], o) {
          var sized := if BigEnough(d, role, o) then [] else Add([], id, TooSmall(Need(role, o.withData)));
          RoleErrorsKeep(disks, rest, seen + {d.name}, o, if MayOverwrite(d, o) then sized else Add(sized, id, HasData));
        } else {
          RoleErrorsIff(disks, rest, seen + {d.name}, o);
          FitStep(disks, duties, seen, o, d);
        }
      }
    }
  }

  lemma {:induction false} FitStep(disks: seq<Disk>, duties: seq<(string, Role)>, seen: set<string>, o: Options, d: Disk)
    requires duties != [] && Find(disks, duties[0].0) == Some(d) && Fits(disks, duties[0], o) && d.name !in seen
    ensures AllFit(disks, duties, o) && NotSeen(disks, duties, seen)
       <==> AllFit(disks, duties[1..], o) && NotSeen(disks, duties[1..], seen + {d.name})
  {
    var rest := duties[1..];
    assert forall i :: 0 <= i < |rest| ==> rest[i] == duties[i + 1];
    if AllFit(disks, rest, o) && NotSeen(disks, rest, seen + {d.name}) {
      forall i | 0 <= i < |duties|
        ensures Fits(disks, duties[i], o) && Find(disks, duties[i].0).value.name !in seen
        ensures i > 0 ==> Find(disks, duties[i].0).value.name != d.name
      {
        if i > 0 {
          assert Fits(disks, rest[i - 1], o);
        }
      }
      forall i, j | 0 <= i < j < |duties|
        ensures Find(disks, duties[i].0).value.name != Find(disks, duties[j].0).value.name
      {
        if i > 0 {
          assert rest[i - 1] == duties[i] && rest[j - 1] == duties[j];
        }
      }
    }
  }

  /**
   * The check accepts exactly when there is a system disk, every pool tag is
   * valid, every disk to wipe is known, and the disks given a role are known,
   * all different whatever names were used, large enough, and wiped if they
   * hold data.
   */
  lemma {:induction false} NoErrorIff(disks: seq<Disk>, r: Roles, skipChecks: bool, wipeAll: bool)
    ensures CheckErrors(disks, r, skipChecks, wipeAll) == [] <==>
      && Strip(r.os) != "" && (forall t :: t in Tags(r.pools) ==> ValidTag(t))
      && (forall id :: id in Trimmed(r.wipe) ==> Find(disks, id).Some?)
      && AllFit(disks, Assigned(r), OptionsOf(disks, r, skipChecks, wipeAll))
  {
    var e0: Errors := if Strip(r.os) == "" then [("", NoOs)] else [];
    var tags := Sorted(Tags(r.pools));
    var e1 := TagErrors(tags, e0);
    var e2 := WipeErrors(disks, Trimmed(r.wipe), e1);
    var o := OptionsOf(disks, r, skipChecks, wipeAll);
    SortedHolds(Tags(r.pools));
    TagErrorsIff(tags, e0);
    WipeErrorsIff(disks, Trimmed(r.wipe), e1);
    if e2 == [] {
      RoleErrorsIff(disks, Assigned(r), {}, o);
    } else {
      RoleErrorsKeep(disks, Assigned(r), {}, o, e2);
    }
  }

  // --- the fields ------------------------------------------------------------------------------------

  datatype Fields = Fields(device: string, dataDisk: string, wipeList: seq<string>)

  /** The stable path of a known disk, and its name; free text otherwise. */
  function Resolve(disks: seq<Disk>, id: string): (string, Option<string>) {
    match Find(disks, Strip(id))
    case None => (Strip(id), None)
    case Some(d) => (d.stable, Some(d.name))
  }

  function Given(n: Option<string>): set<string> {
    if n.Some? then {n.value} else {}
  }

  /** `skip`: paths and names, empty ones left out. */
  function SkipSet(os: (string, Option<string>), data: (string, Option<string>)): set<string> {
    ({os.0, data.0} + Given(os.1) + Given(data.1)) - {""}
  }

  function WipeList(disks: seq<Disk>, ids: seq<string>, skip: set<string>, wipe: seq<string>): seq<string>
    decreases |ids|
  {
    if ids == [] then wipe
    else
      var (path, name) := Resolve(disks, ids[0]);
      WipeList(disks, ids[1..], skip,
        if path == "" || path in skip || (name.Some? && name.value != "" && name.value in skip) || path in wipe then wipe else wipe + [path])
  }

  /** `install_fields` */
  function InstallFields(disks: seq<Disk>, r: Roles): Fields {
    var os, data := Resolve(disks, r.os), Resolve(disks, r.data);
    Fields(os.0, data.0, WipeList(disks, r.wipe, SkipSet(os, data), []))
  }

  ghost predicate NoRepeat(s: seq<string>) {
    forall i, j :: 0 <= i < j < |s| ==> s[i] != s[j]
  }

  /** An id to wipe that is neither blank nor, by path or by name, one of the skipped disks. */
  ghost predicate Listable(disks: seq<Disk>, id: string, skip: set<string>) {
    var (path, name) := Resolve(disks, id);
    path != "" && path !in skip && !(name.Some? && name.value != "" && name.value in skip)
  }

  ghost predicate FromWipe(disks: seq<Disk>, ids: seq<string>, skip: set<string>, p: string) {
    exists id :: id in ids && Listable(disks, id, skip) && Resolve(disks, id).0 == p
  }

  lemma {:induction false} WipeListHolds(disks: seq<Disk>, all: seq<string>, ids: seq<string>, skip: set<string>, wipe: seq<string>)
    requires NoRepeat(wipe) && (forall p :: p in wipe ==> FromWipe(disks, all, skip, p)) && forall id :: id in ids ==> id in all
    ensures var r := WipeList(disks, ids, skip, wipe);
      && NoRepeat(r) && (forall p :: p in r ==> FromWipe(disks, all, skip, p)) && (forall p :: p in wipe ==> p in r)
      && (forall id :: id in ids && Listable(disks, id, skip) ==> Resolve(disks, id).0 in r)
    decreases |ids|
  {
    if ids == [] {
    } else {
      var path := Resolve(disks, ids[0]).0;
      var next := if !Listable(disks, ids[0], skip) || path in wipe then wipe else wipe + [path];
      assert ids[0] in ids && forall id :: id in ids[1..] ==> id in ids;
      forall p | p in next
        ensures FromWipe(disks, all, skip, p)
      {
        if p !in wipe {
          assert Resolve(disks, ids[0]).0 == p && ids[0] in all;
        }
      }
      WipeListHolds(disks, all, ids[1..], skip, next);
      assert forall id :: id in ids <==> id == ids[0] || id in ids[1..];
    }
  }

  /** The disks that the roles give. */
  function DiskOf(disks: seq<Disk>, id: string): Option<Disk> {
    Find(disks, Strip(id))
  }

  ghost predicate Wanted(disks: seq<Disk>, r: Roles, d: Disk) {
    exists id :: id in r.wipe && DiskOf(disks, id) == Some(d)
  }

  lemma {:induction false} TrimmedHolds(ids: seq<string>, id: string)
    requires id in ids && Strip(id) != ""
    ensures Strip(id) in Trimmed(ids)
  {
    if ids[0] != id {
      TrimmedHolds(ids[1..], id);
    }
  }

  lemma {:induction false} AssignedStarts(r: Roles)
    requires Strip(r.os) != ""
    ensures var duties := Assigned(r);
      && |duties| >= 1 && duties[0] == (Strip(r.os), Os)
      && (Strip(r.data) != "" ==> |duties| >= 2 && duties[1] == (Strip(r.data), Data))
  {
  }

  lemma {:induction false} OsAndDataFit(disks: seq<Disk>, r: Roles, skipChecks: bool, wipeAll: bool)
    requires CheckErrors(disks, r, skipChecks, wipeAll) == []
    ensures DiskOf(disks, r.os).Some? && (Strip(r.data) != "" ==> DiskOf(disks, r.data).Some?)
    ensures Strip(r.data) != "" ==> DiskOf(disks, r.os).value.name != DiskOf(disks, r.data).value.name
  {
    NoErrorIff(disks, r, skipChecks, wipeAll);
    hide Assigned, CheckErrors, OptionsOf;
    AssignedStarts(r);
    var o, duties := OptionsOf(disks, r, skipChecks, wipeAll), Assigned(r);
    assert AllFit(disks, duties, o);
    assert Fits(disks, duties[0], o);
    assert Strip(r.data) != "" ==> Fits(disks, duties[1], o);
  }

  /** As the discovery lists them: a name without a slash, and a path with one. */
  ghost predicate Listed(disks: seq<Disk>) {
    forall d :: d in disks ==> d.name != "" && '/' !in d.name && '/' in d.stable
  }

  ghost predicate InUse(disks: seq<Disk>, r: Roles, d: Disk) {
    var os, data := DiskOf(disks, r.os), DiskOf(disks, r.data);
    (os.Some? && d.name == os.value.name) || (data.Some? && d.name == data.value.name)
  }

  function Skipped(disks: seq<Disk>, r: Roles): set<string> {
    SkipSet(Resolve(disks, r.os), Resolve(disks, r.data))
  }

  /** What is skipped: the two paths, and the two disks under any other name. */
  lemma {:induction false} SkippedIs(disks: seq<Disk>, r: Roles, d: Disk)
    requires Listed(disks) && d in disks && DiskOf(disks, r.os).Some? && (Strip(r.data) != "" ==> DiskOf(disks, r.data).Some?)
    ensures var f := InstallFields(disks, r);
      && f.device == DiskOf(disks, r.os).value.stable
      && f.dataDisk == (if Strip(r.data) == "" then "" else DiskOf(disks, r.data).value.stable)
      && (d.stable in Skipped(disks, r) <==> d.stable == f.device || d.stable == f.dataDisk)
      && (d.name in Skipped(disks, r) <==> InUse(disks, r, d))
  {
    assert forall n :: '/' in n ==> n != "";
  }

  ghost predicate FromDisk(disks: seq<Disk>, r: Roles, p: string) {
    exists d :: d in disks && p == d.stable && !InUse(disks, r, d) && Wanted(disks, r, d)
  }

  lemma {:induction false} ListableIsDisk(disks: seq<Disk>, r: Roles, id: string)
    requires id in r.wipe && Listable(disks, id, Skipped(disks, r))
    requires forall w :: w in Trimmed(r.wipe) ==> Find(disks, w).Some?
    ensures DiskOf(disks, id).Some?
    ensures var d := DiskOf(disks, id).value;
      d in disks && Wanted(disks, r, d) && Resolve(disks, id) == (d.stable, Some(d.name))
  {
    TrimmedHolds(r.wipe, id);
  }

  /**
   * The fields of roles that were checked without error: the stable paths of
   * the system and data disks; a wipe list without repetition that holds
   * neither of the two paths, and only stable paths of disks to wipe other than
   * the two; and every such disk, unless it shares one of the two paths.
   */
  lemma {:induction false} CheckedFields(disks: seq<Disk>, r: Roles, skipChecks: bool, wipeAll: bool)
    requires CheckErrors(disks, r, skipChecks, wipeAll) == [] && Listed(disks)
    ensures DiskOf(disks, r.os).Some? && (Strip(r.data) != "" ==> DiskOf(disks, r.data).Some?)
    ensures var f := InstallFields(disks, r);
      && f.device == DiskOf(disks, r.os).value.stable
      && f.dataDisk == (if Strip(r.data) == "" then "" else DiskOf(disks, r.data).value.stable)
      && NoRepeat(f.wipeList) && f.device !in f.wipeList && f.dataDisk !in f.wipeList
      && (forall p :: p in f.wipeList ==> FromDisk(disks, r, p))
      && (forall d :: d in disks && Wanted(disks, r, d) && !InUse(disks, r, d) && d.stable != f.device && d.stable != f.dataDisk ==>
            d.stable in f.wipeList)
  {
    hide CheckErrors, Assigned, OptionsOf, AllFit;
    OsAndDataFit(disks, r, skipChecks, wipeAll);
    NoErrorIff(disks, r, skipChecks, wipeAll);
    var skip, f := Skipped(disks, r), InstallFields(disks, r);
    WipeListHolds(disks, r.wipe, r.wipe, skip, []);
    SkippedIs(disks, r, DiskOf(disks, r.os).value);
    forall p | p in f.wipeList
      ensures FromDisk(disks, r, p) && p != f.device && p != f.dataDisk
    {
      var id :| id in r.wipe && Listable(disks, id, skip) && Resolve(disks, id).0 == p;
      ListableIsDisk(disks, r, id);
      SkippedIs(disks, r, DiskOf(disks, id).value);
    }
    forall d | d in disks && Wanted(disks, r, d) && !InUse(disks, r, d) && d.stable != f.device && d.stable != f.dataDisk
      ensures d.stable in f.wipeList
    {
      var id :| id in r.wipe && DiskOf(disks, id) == Some(d);
      SkippedIs(disks, r, d);
      assert Listable(disks, id, skip);
    }
  }

  /** A disk to wipe whose stable path is another name of the system or data disk, and leads there. */
  ghost predicate Misleads(disks: seq<Disk>, r: Roles, d: Disk) {
    && d in disks && Wanted(disks, r, d) && !InUse(disks, r, d)
    && (exists u :: Find(disks, d.stable) == Some(u) && InUse(disks, r, u))
    && d.stable != InstallFields(disks, r).device && d.stable != InstallFields(disks, r).dataDisk
  }

  /**
   * What the written paths lead to: each path to wipe leads to a disk, and to
   * one that is neither the system nor the data disk if and only if no disk to
   * wipe has another name of one of these two as its stable path.
   */
  lemma {:induction false} WipedIsFreeIff(disks: seq<Disk>, r: Roles, skipChecks: bool, wipeAll: bool)
    requires CheckErrors(disks, r, skipChecks, wipeAll) == [] && Listed(disks)
    ensures forall p :: p in InstallFields(disks, r).wipeList ==> Find(disks, p).Some?
    ensures (forall p :: p in InstallFields(disks, r).wipeList ==> !InUse(disks, r, Find(disks, p).value))
       <==> forall d :: !Misleads(disks, r, d)
  {
    CheckedFields(disks, r, skipChecks, wipeAll);
    var f := InstallFields(disks, r);
    hide CheckErrors, InstallFields, InUse, Wanted, Find, DiskOf, Listed, NamesOf;
    forall p | p in f.wipeList
      ensures Find(disks, p).Some?
      ensures InUse(disks, r, Find(disks, p).value) ==> exists d :: Misleads(disks, r, d)
    {
      var d := WipedFrom(disks, r, p);
      assert InUse(disks, r, Find(disks, p).value) ==> Misleads(disks, r, d);
    }
    forall d | Misleads(disks, r, d)
      ensures d.stable in f.wipeList
    {
    }
  }

  lemma {:induction false} WipedFrom(disks: seq<Disk>, r: Roles, p: string) returns (d: Disk)
    requires FromDisk(disks, r, p) && Listed(disks)
    ensures d in disks && p == d.stable && !InUse(disks, r, d) && Wanted(disks, r, d) && Find(disks, p).Some?
  {
    d :| d in disks && p == d.stable && !InUse(disks, r, d) && Wanted(disks, r, d);
    hide InUse, Wanted, Find, DiskOf;
    FindSome(disks, d, p);
  }

  /**
   * When no name is shared, all is as the roles say: different paths for the
   * two disks, and in the wipe list the paths that lead to the disks to wipe
   * that are neither of them, all of these and no other.
   */
  lemma {:induction false} ExclusiveFields(disks: seq<Disk>, r: Roles, skipChecks: bool, wipeAll: bool)
    requires CheckErrors(disks, r, skipChecks, wipeAll) == [] && Listed(disks) && Exclusive(disks)
    ensures var f := InstallFields(disks, r);
      && Find(disks, f.device) == DiskOf(disks, r.os) && (Strip(r.data) != "" ==> Find(disks, f.dataDisk) == DiskOf(disks, r.data))
      && f.device != f.dataDisk
      && (forall p :: p in f.wipeList ==> exists d :: Find(disks, p) == Some(d) && Wanted(disks, r, d) && !InUse(disks, r, d))
      && (forall d :: d in disks && Wanted(disks, r, d) && !InUse(disks, r, d) ==> d.stable in f.wipeList)
  {
    CheckedFields(disks, r, skipChecks, wipeAll);
    OsAndDataFit(disks, r, skipChecks, wipeAll);
    var f, os, data := InstallFields(disks, r), DiskOf(disks, r.os).value, DiskOf(disks, r.data);
    forall d | d in disks
      ensures Find(disks, d.stable) == Some(d)
    {
      EveryNameFinds(disks, d, d.stable);
    }
    forall d | d in disks && !InUse(disks, r, d)
      ensures d.stable != f.device && d.stable != f.dataDisk
    {
      assert d != os && Some(d) != data;
    }
  }

  /** Some text that may be typed designates the disk. */
  ghost predicate Designated(disks: seq<Disk>, d: Disk) {
    exists id :: DiskOf(disks, id) == Some(d)
  }

  /** Two disks that may be chosen together, for the system and for data. */
  ghost predicate Choosable(disks: seq<Disk>, a: Disk, b: Disk, skipChecks: bool) {
    && Designated(disks, a) && Designated(disks, b) && a.name != b.name
    && (skipChecks || (a.size / GIB >= MULTIPLE_DISK_MIN_GIB && b.size / GIB >= DATA_DISK_MIN_GIB))
  }

  lemma {:induction false} AcceptedIsChoosable(disks: seq<Disk>, r: Roles, skipChecks: bool, wipeAll: bool)
    requires CheckErrors(disks, r, skipChecks, wipeAll) == [] && Strip(r.data) != ""
    ensures DiskOf(disks, r.os).Some? && DiskOf(disks, r.data).Some?
    ensures Choosable(disks, DiskOf(disks, r.os).value, DiskOf(disks, r.data).value, skipChecks)
  {
    OsAndDataFit(disks, r, skipChecks, wipeAll);
    NoErrorIff(disks, r, skipChecks, wipeAll);
    hide Assigned, CheckErrors;
    AssignedStarts(r);
    var o, duties := OptionsOf(disks, r, skipChecks, wipeAll), Assigned(r);
    assert AllFit(disks, duties, o);
    assert Fits(disks, duties[0], o) && Fits(disks, duties[1], o);
  }

  lemma {:induction false} ChoosableIsAccepted(disks: seq<Disk>, a: Disk, b: Disk, skipChecks: bool) returns (r: Roles)
    requires Choosable(disks, a, b, skipChecks)
    ensures CheckErrors(disks, r, skipChecks, true) == [] && Strip(r.data) != ""
    ensures DiskOf(disks, r.os) == Some(a) && DiskOf(disks, r.data) == Some(b)
  {
    var os: string :| DiskOf(disks, os) == Some(a);
    var data: string :| DiskOf(disks, data) == Some(b);
    var none: seq<(string, seq<string>)> := [];
    r := Roles(os, data, none, []);
    assert Sorted(Tags(r.pools)) == [] && PoolsAssigned([], r.pools) == [] && Trimmed(r.wipe) == [];
    assert Assigned(r) == [(Strip(os), Os), (Strip(data), Data)];
    NoErrorIff(disks, r, skipChecks, true);
  }

  /**
   * The two paths, exactly: whatever roles are accepted, the system and data
   * disks are written under different paths if and only if no two disks that
   * may be chosen together have the same stable path.
   */
  lemma {:induction false} DistinctPathsIff(disks: seq<Disk>, skipChecks: bool)
    ensures (forall r: Roles, wipeAll: bool :: CheckErrors(disks, r, skipChecks, wipeAll) == [] && Strip(r.data) != "" ==>
              InstallFields(disks, r).device != InstallFields(disks, r).dataDisk)
       <==> forall a: Disk, b: Disk :: Choosable(disks, a, b, skipChecks) ==> a.stable != b.stable
  {
    if a: Disk, b: Disk :| Choosable(disks, a, b, skipChecks) && a.stable == b.stable {
      var r := ChoosableIsAccepted(disks, a, b, skipChecks);
      assert InstallFields(disks, r).device == InstallFields(disks, r).dataDisk;
    } else {
      forall r: Roles, wipeAll: bool | CheckErrors(disks, r, skipChecks, wipeAll) == [] && Strip(r.data) != ""
        ensures InstallFields(disks, r).device != InstallFields(disks, r).dataDisk
      {
        AcceptedIsChoosable(disks, r, skipChecks, wipeAll);
      }
    }
  }

  /** A link listed under two disks of good size, nothing on them: the roles pass every check, and both fields hold the same path. */
  lemma {:induction false} SharedLinkCollides() returns (disks: seq<Disk>, r: Roles)
    ensures forall d :: d in disks ==> d.stable == StablePath(d)
    ensures CheckErrors(disks, r, false, false) == [] && Strip(r.data) != ""
    ensures InstallFields(disks, r).device == InstallFields(disks, r).dataDisk
  {
    var link := "/dev/disk/by-path/pci-a";
    var a, b := Disk("sda", link, [], [link], 250 * GIB, false), Disk("sdb", link, [], [link], 250 * GIB, false);
    disks := [a, b];
    r := Roles("/dev/sda", "/dev/sdb", [], []);
    LinkIsStable(a);
    LinkIsStable(b);
    BothFound(a, b);
    hide Find, NamesOf, StablePath;
    StripStripped("/dev/sda");
    StripStripped("/dev/sdb");
    assert Sorted(Tags(r.pools)) == [] && PoolsAssigned([], r.pools) == [];
    assert Assigned(r) == [("/dev/sda", Os), ("/dev/sdb", Data)];
    NoErrorIff(disks, r, false, false);
  }

  lemma {:induction false} BothFound(a: Disk, b: Disk)
    requires a.name == "sda" && a.stable == "/dev/disk/by-path/pci-a" && a.byId == [] && a.byPath == ["/dev/disk/by-path/pci-a"]
    requires b.name == "sdb"
    ensures Find([a, b], "/dev/sda") == Some(a) && Find([a, b], "/dev/sdb") == Some(b)
  {
    assert "/dev/" + "sda" == "/dev/sda" && "/dev/" + "sdb" == "/dev/sdb";
    assert NamesOf(a)[1] == "/dev/sda" && NamesOf(b)[1] == "/dev/sdb";
    assert [a, b][1..] == [b];
    NotNamed(a);
    assert Find([b], "/dev/sdb") == Some(b);
  }

  lemma {:induction false} LinkIsStable(d: Disk)
    requires d.byPath == ["/dev/disk/by-path/pci-a"]
    ensures StablePath(d) == "/dev/disk/by-path/pci-a"
  {
    var link := "/dev/disk/by-path/pci-a";
    assert link[|link| - 1] == 'a';
    assert WithoutDigits(link) == link;
    assert WholeDisk([link][1..]) == [];
    assert WholeDisk([link]) == [link];
  }

  lemma {:induction false} NotNamed(a: Disk)
    requires a.name == "sda" && a.stable == "/dev/disk/by-path/pci-a" && a.byId == [] && a.byPath == ["/dev/disk/by-path/pci-a"]
    ensures "/dev/sdb" !in NamesOf(a)
  {
    var other := "/dev/sdb";
    assert other[5] == 's' && "/dev/disk/by-path/pci-a"[5] == 'd' && ("/dev/" + "sda")[7] == 'a' && other[7] == 'b';
    assert NamesOf(a) == ["/dev/disk/by-path/pci-a", "/dev/" + "sda", "/dev/disk/by-path/pci-a"];
  }

  lemma {:induction false} OneDiskAccepted(disks: seq<Disk>, a: Disk, b: Disk, r: Roles)
    requires r == Roles("/dev/sda", "", [], ["/dev/sdb"]) && Find(disks, "/dev/sda") == Some(a) && Find(disks, "/dev/sdb") == Some(b)
    requires a.size >= 250 * GIB && !a.hasData
    ensures CheckErrors(disks, r, false, false) == []
    ensures DiskOf(disks, r.os) == Some(a) && Strip(r.data) == "" && Wanted(disks, r, b)
  {
    StripStripped("/dev/sda");
    StripStripped("/dev/sdb");
    assert Strip("") == "";
    hide Strip, Find;
    assert Trimmed(r.wipe[1..]) == [] && Trimmed(r.wipe) == ["/dev/sdb"];
    assert Sorted(Tags(r.pools)) == [] && PoolsAssigned([], r.pools) == [];
    assert Assigned(r) == [("/dev/sda", Os)];
    NoErrorIff(disks, r, false, false);
    hide CheckErrors, Assigned, Trimmed;
    assert "/dev/sdb" in r.wipe && DiskOf(disks, "/dev/sdb") == Some(b);
  }

  lemma {:induction false} OtherNameMisleads(disks: seq<Disk>, a: Disk, b: Disk, r: Roles)
    requires a in disks && b in disks && Listed(disks) && Wanted(disks, r, b) && Find(disks, b.stable) == Some(a)
    requires DiskOf(disks, r.os) == Some(a) && Strip(r.data) == "" && a.name != b.name && a.stable != b.stable
    ensures Misleads(disks, r, b)
  {
    assert DiskOf(disks, r.data).None? && '/' in b.stable;
    hide Find, Wanted, Strip;
    SkippedIs(disks, r, a);
    hide InstallFields, Skipped, DiskOf;
    assert InUse(disks, r, a) && !InUse(disks, r, b);
  }

  /** A link listed under the system disk too, after its stable path, is the stable path of a disk to wipe: wiping it wipes the system disk. */
  lemma {:induction false} SharedLinkWipes() returns (disks: seq<Disk>, r: Roles)
    ensures forall d :: d in disks ==> d.stable == StablePath(d)
    ensures CheckErrors(disks, r, false, false) == [] && Listed(disks)
    ensures exists d :: Misleads(disks, r, d)
  {
    hide NamesOf, StablePath, Find, Strip, CheckErrors, Wanted, Misleads, DiskOf;
    var own, link := "/dev/disk/by-path/pci-A", "/dev/disk/by-path/pci-a";
    var a, b := Disk("sda", own, [], [own, link], 250 * GIB, false), Disk("sdb", link, [], [link], 250 * GIB, false);
    disks := [a, b];
    r := Roles("/dev/sda", "", [], ["/dev/sdb"]);
    LinkIsStable(b);
    FirstIsStable(a);
    TwoFound(a, b);
    LinkDiffers(a, b);
    OneDiskAccepted(disks, a, b, r);
    OtherNameMisleads(disks, a, b, r);
  }

  lemma {:induction false} TwoFound(a: Disk, b: Disk)
    requires a.name == "sda" && a.byId == [] && a.byPath == ["/dev/disk/by-path/pci-A", "/dev/disk/by-path/pci-a"]
    requires a.stable == "/dev/disk/by-path/pci-A" && b.name == "sdb"
    ensures var link := "/dev/disk/by-path/pci-a";
      Find([a, b], "/dev/sda") == Some(a) && Find([a, b], "/dev/sdb") == Some(b) && Find([a, b], link) == Some(a)
  {
    assert "/dev/" + "sda" == "/dev/sda" && "/dev/" + "sdb" == "/dev/sdb";
    assert NamesOf(a) == [a.stable, "/dev/sda", a.stable, "/dev/disk/by-path/pci-a"] && NamesOf(b)[1] == "/dev/sdb";
    assert NamesOf(a)[1] == "/dev/sda" && NamesOf(a)[3] == "/dev/disk/by-path/pci-a";
    assert [a, b][1..] == [b];
    assert "/dev/sdb"[5] == 's' && a.stable[5] == 'd' && NamesOf(a)[3][5] == 'd' && "/dev/sda"[7] == 'a' && "/dev/sdb"[7] == 'b';
    assert "/dev/sdb" !in NamesOf(a);
    assert Find([b], "/dev/sdb") == Some(b);
  }

  lemma {:induction false} LinkDiffers(a: Disk, b: Disk)
    requires a.name == "sda" && b.name == "sdb" && a.stable == "/dev/disk/by-path/pci-A" && b.stable == "/dev/disk/by-path/pci-a"
    ensures a.stable != b.stable && a.name != b.name && '/' !in a.name && '/' !in b.name && '/' in a.stable && '/' in b.stable
  {
    assert a.stable[22] == 'A' && b.stable[22] == 'a';
    assert a.name[2] == 'a' && b.name[2] == 'b' && a.stable[0] == '/' && b.stable[0] == '/';
  }

  lemma {:induction false} FirstIsStable(d: Disk)
    requires d.byPath == ["/dev/disk/by-path/pci-A", "/dev/disk/by-path/pci-a"]
    ensures StablePath(d) == "/dev/disk/by-path/pci-A"
  {
    NotParts();
    FirstRanks();
    hide WholeDisk, PathRank;
  }

  lemma {:induction false} NotParts()
    ensures WholeDisk(["/dev/disk/by-path/pci-A", "/dev/disk/by-path/pci-a"]) == ["/dev/disk/by-path/pci-A", "/dev/disk/by-path/pci-a"]
  {
    var own, link := "/dev/disk/by-path/pci-A", "/dev/disk/by-path/pci-a";
    assert own[|own| - 1] == 'A' && link[|link| - 1] == 'a';
    assert WithoutDigits(link) == link && WithoutDigits(own) == own;
    hide WithoutDigits;
    assert WholeDisk([link][1..]) == [];
    assert [own, link][1..] == [link] && WholeDisk([link]) == [link];
  }

  lemma {:induction false} BaseIs(link: string, name: string)
    requires |name| == 5 && '/' !in name && |link| == 23 && link[..18] == "/dev/disk/by-path/" && link[18..] == name
    ensures Base(link) == name
  {
    var dir := link[..17];
    assert link[17] == link[..18][17];
    assert link == dir + "/" + name;
    BaseAfter(dir, name);
  }

  lemma {:induction false} NotBefore(own: string, link: string)
    requires "pci-" <= Base(own) && "pci-" <= Base(link) && !Less(Base(link), Base(own))
    requires WithoutDigits(Base(own)) == Base(own) && WithoutDigits(Base(link)) == Base(link)
    ensures !Before(PathRank(link), PathRank(own))
  {
    hide Base, Less, WithoutDigits;
  }

  lemma {:induction false} InOrder()
    ensures !Less("pci-a", "pci-A")
  {
    LessAfter("pci-", "a", "A");
    assert "pci-" + "A" == "pci-A" && "pci-" + "a" == "pci-a" && !Less("a", "A");
    hide Less;
  }

  lemma {:induction false} FirstRanks()
    ensures !Before(PathRank("/dev/disk/by-path/pci-a"), PathRank("/dev/disk/by-path/pci-A"))
  {
    hide Base, Less, PathRank, Before;
    BaseIs("/dev/disk/by-path/pci-A", "pci-A");
    BaseIs("/dev/disk/by-path/pci-a", "pci-a");
    InOrder();
    NotBefore("/dev/disk/by-path/pci-A", "/dev/disk/by-path/pci-a");
  }

  lemma {:induction false} BaseAfter(dir: string, name: string)
    requires '/' !in name
    ensures Base(dir + "/" + name) == name
  {
    var link := dir + "/" + name;
    assert link[|dir|] == '/';
    if dir == "" {
      assert link[1..] == name;
    } else {
      assert link[1..] == dir[1..] + "/" + name;
      BaseAfter(dir[1..], name);
    }
  }

  lemma {:induction false} LessAfter(start: string, a: string, b: string)
    ensures Less(start + a, start + b) == Less(a, b)
  {
    if start == "" {
      assert start + a == a && start + b == b;
    } else {
      assert (start + a)[1..] == start[1..] + a && (start + b)[1..] == start[1..] + b;
      LessAfter(start[1..], a, b);
    }
  }

  // --- the loops ------------------------------------------------------------------------------------

  /** Every id to wipe is looked up: unknown, or noted by its disk's name. */
  method WipeIds(disks: seq<Disk>, idx: map<string, Disk>, ids: seq<string>, before: Errors) returns (errors: Errors, wiped: set<string>)
    requires Indexes(idx, disks)
    ensures errors == WipeErrors(disks, ids, before) && wiped == Wiped(disks, ids)
  {
    errors, wiped := before, {};
    assert ids[0..] == ids;
    for n := 0 to |ids|
      invariant WipeErrors(disks, ids[n..], errors) == WipeErrors(disks, ids, before)
      invariant wiped == Wiped(disks, ids[..n])
    {
      assert ids[n..][0] == ids[n] && ids[n..][1..] == ids[n + 1..] && ids[..n + 1] == ids[..n] + [ids[n]];
      if ids[n] !in idx {
        errors := Add(errors, ids[n], UnknownDisk);
      } else {
        wiped := wiped + {idx[ids[n]].name};
      }
    }
    assert ids[..|ids|] == ids;
  }

  /** Each role in turn, the disks already taken remembered by name. */
  method RoleChecks(disks: seq<Disk>, idx: map<string, Disk>, duties: seq<(string, Role)>, o: Options, before: Errors) returns (errors: Errors)
    requires Indexes(idx, disks)
    ensures errors == RoleErrors(disks, duties, {}, o, before)
  {
    errors := before;
    var seen: set<string> := {};
    assert duties[0..] == duties;
    for n := 0 to |duties|
      invariant RoleErrors(disks, duties[n..], seen, o, errors) == RoleErrors(disks, duties, {}, o, before)
    {
      assert duties[n..][0] == duties[n] && duties[n..][1..] == duties[n + 1..];
      var (id, role) := duties[n];
      if id !in idx {
        errors := Add(errors, id, UnknownDisk);
        continue;
      }
      var d := idx[id];
      if d.name in seen {
        errors := Add(errors, id, RoleTwice);
        continue;
      }
      seen := seen + {d.name};
      if !o.skipChecks {
        var need := Need(role, o.withData);
        if d.size / GIB < need {
          errors := Add(errors, id, TooSmall(need));
        }
      }
      if d.hasData && !o.wipeAll && d.name !in o.wiped {
        errors := Add(errors, id, HasData);
      }
    }
  }

  /** System, data, then pools by tag; a tag that is refused is noted. */
  method Duties(r: Roles) returns (duties: seq<(string, Role)>, errors: Errors)
    ensures duties == Assigned(r)
    ensures errors == TagErrors(Sorted(Tags(r.pools)), if Strip(r.os) == "" then [("", NoOs)] else [])
  {
    hide Sorted, ValidTag, Strip, IdsOf, Trimmed, AsPool;
    duties, errors := [], [];
    if Strip(r.os) == "" {
      errors := [("", NoOs)];
    } else {
      duties := [(Strip(r.os), Os)];
    }
    if Strip(r.data) != "" {
      duties := duties + [(Strip(r.data), Data)];
    }
    ghost var e0, first := errors, duties;
    assert first == (if Strip(r.os) == "" then [] else [(Strip(r.os), Os)]) + (if Strip(r.data) == "" then [] else [(Strip(r.data), Data)]);
    var tags := Sorted(Tags(r.pools));
    assert tags[0..] == tags;
    for n := 0 to |tags|
      invariant TagErrors(tags[n..], errors) == TagErrors(tags, e0)
      invariant duties + PoolsAssigned(tags[n..], r.pools) == first + PoolsAssigned(tags, r.pools)
    {
      assert tags[n..][0] == tags[n] && tags[n..][1..] == tags[n + 1..];
      if !ValidTag(tags[n]) {
        errors := Add(errors, tags[n], PoolTag);
      }
      AppendAssoc(duties, AsPool(Trimmed(IdsOf(r.pools, tags[n]))), PoolsAssigned(tags[n + 1..], r.pools));
      duties := duties + AsPool(Trimmed(IdsOf(r.pools, tags[n])));
    }
    assert duties + [] == duties;
  }

  method CheckDiskRoles(disks: seq<Disk>, r: Roles, skipChecks: bool, wipeAll: bool) returns (errors: Errors)
    ensures errors == CheckErrors(disks, r, skipChecks, wipeAll)
  {
    var idx := Index(disks);
    var duties, wiped;
    duties, errors := Duties(r);
    errors, wiped := WipeIds(disks, idx, Trimmed(r.wipe), errors);
    errors := RoleChecks(disks, idx, duties, Options(skipChecks, wipeAll, Strip(r.data) != "", wiped), errors);
  }

  method FieldsForInstall(disks: seq<Disk>, r: Roles) returns (f: Fields)
    ensures f == InstallFields(disks, r)
  {
    var idx := Index(disks);
    var os, data := Resolve(disks, r.os), Resolve(disks, r.data);
    var skip := SkipSet(os, data);
    var wipe: seq<string> := [];
    assert r.wipe[0..] == r.wipe;
    for n := 0 to |r.wipe|
      invariant WipeList(disks, r.wipe[n..], skip, wipe) == WipeList(disks, r.wipe, skip, [])
    {
      assert r.wipe[n..][0] == r.wipe[n] && r.wipe[n..][1..] == r.wipe[n + 1..];
      var id := Strip(r.wipe[n]);
      var path, name := if id in idx then idx[id].stable else id, if id in idx then Some(idx[id].name) else None;
      if path == "" || path in skip || (name.Some? && name.value != "" && name.value in skip) || path in wipe {
        continue;
      }
      wipe := wipe + [path];
    }
    return Fields(os.0, data.0, wipe);
  }
}
