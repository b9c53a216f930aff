/**
 * Which link is taken for the stable path of a disk, said without the ranks
 * that the program sorts by (web/baremetal_disks.py, stable_path).
 */
module StablePaths {
  import opened Disks
  import opened Names
  import opened Text
  import opened Wrappers

  predicate Digits(s: string) {
    s != "" && forall c :: c in s ==> '0' <= c <= '9'
  }

  /** `base` is what follows the last slash. */
  ghost predicate LastPart(link: string, base: string) {
    '/' !in base && (link == base || exists dir :: link == dir + "/" + base)
  }

  /** A link to a partition: it ends with `-part` and digits. */
  ghost predicate Partition(link: string) {
    exists stem, n :: Digits(n) && link == stem + "-part" + n
  }

  /** A link to a whole disk, that bears this name in its directory. */
  ghost predicate Whole(links: seq<string>, link: string) {
    link in links && !Partition(link)
  }

  // --- what is preferred among by-path links ---------------------------------------------

  ghost predicate Pci(link: string) {
    exists base :: LastPart(link, base) && "pci-" <= base
  }

  /** The older form of the name of an ATA port. */
  ghost predicate OldAta(link: string) {
    exists base, stem, n :: LastPart(link, base) && Digits(n) && base == stem + "-ata-" + n
  }

  ghost predicate NamedBefore(a: string, b: string) {
    exists x, y :: LastPart(a, x) && LastPart(b, y) && Less(x, y)
  }

  /** The first by the form of the bus, then by the form of the port, then by name. */
  ghost predicate BestPath(links: seq<string>, p: string) {
    && Whole(links, p)
    && forall q :: Whole(links, q) ==>
         && (Pci(q) ==> Pci(p))
         && ((Pci(q) <==> Pci(p)) && OldAta(p) ==> OldAta(q))
         && ((Pci(q) <==> Pci(p)) && (OldAta(q) <==> OldAta(p)) ==> !NamedBefore(q, p))
  }

  // --- and among by-id links ------------------------------------------------------------------

  /** The kinds of identity, the best first; other links are never taken. */
  ghost predicate Kind(link: string, k: nat) {
    exists base :: LastPart(link, base) &&
      match k
      case 0 => "nvme-eui." <= base
      case 1 => "nvme-" <= base && !("nvme-eui." <= base)
      case 2 => "wwn-" <= base
      case 3 => "ata-" <= base
      case 4 => "scsi-" <= base
      case _ => false
  }

  /** The form that only names the vendor. */
  ghost predicate Generic(link: string) {
    exists before, after :: link == before + "/nvme-nvme." + after
  }

  /** Of the best kind there is; then a name of the disk, then the shortest, then the first by name. */
  ghost predicate BestId(links: seq<string>, k: nat, p: string) {
    && Whole(links, p) && Kind(p, k)
    && (forall q, j :: Whole(links, q) && Kind(q, j) ==> k <= j)
    && forall q :: Whole(links, q) && Kind(q, k) ==>
         && (Generic(p) ==> Generic(q))
         && ((Generic(q) <==> Generic(p)) ==> |p| <= |q|)
         && ((Generic(q) <==> Generic(p)) && |p| == |q| ==> !Less(q, p))
  }

  /** By-path if there is one, else a known kind of by-id if there is one, else the name given by the kernel. */
  ghost predicate Stable(d: Disk, p: string) {
    if exists q :: Whole(d.byPath, q) then BestPath(d.byPath, p)
    else if exists q, k :: Whole(d.byId, q) && Kind(q, k) then exists k :: BestId(d.byId, k, p)
    else p == "/dev/" + d.name
  }

  // --- the texts ------------------------------------------------------------------------------------

  lemma {:induction false} BaseIsLast(link: string)
    ensures LastPart(link, Base(link))
  {
    if '/' in link {
      BaseIsLast(link[1..]);
      if link[1..] == Base(link[1..]) {
        assert link == "" + "/" + Base(link);
      } else {
        var dir :| link[1..] == dir + "/" + Base(link[1..]);
        assert link == ([link[0]] + dir) + "/" + Base(link);
      }
    }
  }

  /** There is only one. */
  lemma {:induction false} LastIsBase(link: string, base: string)
    requires LastPart(link, base)
    ensures base == Base(link)
  {
    if link != base {
      var dir :| link == dir + "/" + base;
      BaseAfter(dir, base);
    }
  }

  lemma {:induction false} StripsDigits(s: string, n: string)
    requires (forall c :: c in n ==> '0' <= c <= '9') && (s == "" || !('0' <= s[|s| - 1] <= '9'))
    ensures WithoutDigits(s + n) == s
    decreases |n|
  {
    if n == "" {
      assert s + n == s && WithoutDigits(s) == s;
    } else {
      var m := |n| - 1;
      assert n[m] in n && forall c :: c in n[..m] ==> c in n;
      assert (s + n)[..|s + n| - 1] == s + n[..m] && (s + n)[|s + n| - 1] == n[m];
      StripsDigits(s, n[..m]);
    }
  }

  lemma {:induction false} DigitsStripped(s: string) returns (n: string)
    ensures s == WithoutDigits(s) + n && forall c :: c in n ==> '0' <= c <= '9'
    ensures n == "" <==> WithoutDigits(s) == s
  {
    if s != "" && '0' <= s[|s| - 1] <= '9' {
      n := DigitsStripped(s[..|s| - 1]);
      n := n + [s[|s| - 1]];
      assert s == s[..|s| - 1] + [s[|s| - 1]];
    } else {
      n := "";
    }
  }

  lemma {:induction false} NumberedSplits(s: string, tail: string) returns (stem: string, n: string)
    requires Numbered(s, tail)
    ensures Digits(n) && s == stem + tail + n
  {
    n := DigitsStripped(s);
    var w := WithoutDigits(s);
    stem := w[..|w| - |tail|];
    assert w == stem + tail;
  }

  lemma {:induction false} NumberedJoins(stem: string, tail: string, n: string)
    requires tail != "" && !('0' <= tail[|tail| - 1] <= '9') && Digits(n)
    ensures Numbered(stem + tail + n, tail)
  {
    assert (stem + tail)[|stem + tail| - 1] == tail[|tail| - 1];
    StripsDigits(stem + tail, n);
    assert (stem + tail)[|stem|..] == tail;
  }

  lemma {:induction false} NumberedIff(s: string, tail: string)
    requires tail != "" && !('0' <= tail[|tail| - 1] <= '9')
    ensures Numbered(s, tail) <==> exists stem, n :: Digits(n) && s == stem + tail + n
  {
    hide Numbered, Digits;
    if Numbered(s, tail) {
      var stem, n := NumberedSplits(s, tail);
    }
    if stem, n :| Digits(n) && s == stem + tail + n {
      NumberedJoins(stem, tail, n);
    }
  }

  lemma {:induction false} ContainsSplits(s: string, part: string) returns (a: string, b: string)
    requires Contains(s, part)
    ensures s == a + part + b
  {
    if part <= s {
      a, b := "", s[|part|..];
    } else {
      a, b := ContainsSplits(s[1..], part);
      a := [s[0]] + a;
    }
  }

  lemma {:induction false} ContainsJoins(a: string, part: string, b: string)
    ensures Contains(a + part + b, part)
  {
    if a == "" {
      assert a + part + b == part + b;
    } else {
      assert (a + part + b)[1..] == a[1..] + part + b;
      ContainsJoins(a[1..], part, b);
    }
  }

  lemma {:induction false} ContainsIff(s: string, part: string)
    ensures Contains(s, part) <==> exists a, b :: s == a + part + b
  {
    if Contains(s, part) {
      var a, b := ContainsSplits(s, part);
    }
    if a, b :| s == a + part + b {
      ContainsJoins(a, part, b);
    }
  }

  lemma {:induction false} WholeIff(links: seq<string>)
    ensures forall l :: l in WholeDisk(links) <==> Whole(links, l)
  {
    hide Numbered;
    if links == [] {
    } else {
      WholeIff(links[1..]);
      PartitionIff(links[0]);
      assert forall l :: l in links <==> l == links[0] || l in links[1..];
    }
  }

  lemma {:induction false} PartitionIff(link: string)
    ensures Numbered(link, "-part") <==> Partition(link)
  {
    NumberedIff(link, "-part");
  }

  lemma {:induction false} PathForms(link: string)
    ensures Pci(link) <==> "pci-" <= Base(link)
    ensures OldAta(link) <==> Numbered(Base(link), "-ata-")
  {
    hide LastPart, Digits;
    BaseIsLast(link);
    forall base | LastPart(link, base)
      ensures base == Base(link)
    {
      LastIsBase(link, base);
    }
    NumberedIff(Base(link), "-ata-");
  }

  lemma {:induction false} NamedBeforeIff(a: string, b: string)
    ensures NamedBefore(a, b) <==> Less(Base(a), Base(b))
  {
    hide LastPart;
    BaseIsLast(a);
    BaseIsLast(b);
    forall x | LastPart(a, x)
      ensures x == Base(a)
    {
      LastIsBase(a, x);
    }
    forall y | LastPart(b, y)
      ensures y == Base(b)
    {
      LastIsBase(b, y);
    }
  }

  // --- the least by rank ----------------------------------------------------------------------------

  lemma {:induction false} BeforeTrans(a: (int, int, string), b: (int, int, string), c: (int, int, string))
    requires !Before(b, a) && !Before(c, b)
    ensures !Before(c, a)
  {
    LessTotal(a.2, b.2);
    LessTotal(b.2, c.2);
    LessTotal(a.2, c.2);
    LessAsym(b.2, c.2);
    if Less(c.2, a.2) && Less(a.2, b.2) {
      LessTrans(c.2, a.2, b.2);
    }
  }

  lemma {:induction false} LessAsym(a: string, b: string)
    ensures !(Less(a, b) && Less(b, a))
  {
    LessTotal(a, a);
    if Less(a, b) && Less(b, a) {
      LessTrans(a, b, a);
    }
  }

  lemma {:induction false} LeastIs(links: seq<string>, rank: string -> (int, int, string))
    requires links != []
    ensures forall q :: q in links ==> !Before(rank(q), rank(Least(links, rank)))
  {
    hide Before;
    NotBeforeItself(rank(links[0]));
    if |links| > 1 {
      var rest := Least(links[1..], rank);
      LeastIs(links[1..], rank);
      forall q | q in links
        ensures !Before(rank(q), rank(Least(links, rank)))
      {
        if q in links[1..] {
          if !Before(rank(rest), rank(links[0])) {
            BeforeTrans(rank(links[0]), rank(rest), rank(q));
          }
        } else {
          assert q == links[0];
          if Before(rank(rest), rank(links[0])) {
            BeforeAsym(rank(rest), rank(links[0]));
          }
        }
      }
    }
  }

  lemma {:induction false} NotBeforeItself(a: (int, int, string))
    ensures !Before(a, a)
  {
    LessTotal(a.2, a.2);
  }

  lemma {:induction false} BeforeAsym(a: (int, int, string), b: (int, int, string))
    requires Before(a, b)
    ensures !Before(b, a)
  {
    LessAsym(a.2, b.2);
    LessTotal(a.2, a.2);
  }

  lemma {:induction false} PathOrder(p: string, q: string)
    requires !Before(PathRank(q), PathRank(p))
    ensures Pci(q) ==> Pci(p)
    ensures (Pci(q) <==> Pci(p)) && OldAta(p) ==> OldAta(q)
    ensures (Pci(q) <==> Pci(p)) && (OldAta(q) <==> OldAta(p)) ==> !NamedBefore(q, p)
  {
    hide Pci, OldAta, NamedBefore, Numbered, Base, Less;
    PathForms(p);
    PathForms(q);
    NamedBeforeIff(q, p);
  }

  lemma {:induction false} IdOrder(p: string, q: string)
    requires !Before(IdRank(q), IdRank(p))
    ensures Generic(p) ==> Generic(q)
    ensures (Generic(q) <==> Generic(p)) ==> |p| <= |q|
    ensures (Generic(q) <==> Generic(p)) && |p| == |q| ==> !Less(q, p)
  {
    hide Less, Contains;
    ContainsIff(p, "/nvme-nvme.");
    ContainsIff(q, "/nvme-nvme.");
  }

  // --- the kinds of by-id ------------------------------------------------------------------------

  lemma {:induction false} KindIff(link: string, k: nat)
    requires k < 5
    ensures Kind(link, k) <==>
      BY_ID_ORDER[k] <= Base(link) && !(BY_ID_ORDER[k] == "nvme-" && "nvme-eui." <= Base(link))
  {
    hide LastPart, Base;
    BaseIsLast(link);
    forall base | LastPart(link, base)
      ensures base == Base(link)
    {
      LastIsBase(link, base);
    }
    OrderIs();
    if k == 0 {
      assert "nvme-eui." != "nvme-" by {
        assert |"nvme-eui."| == 9 && |"nvme-"| == 5;
      }
    }
  }

  lemma {:induction false} OrderIs()
    ensures |BY_ID_ORDER| == 5 && BY_ID_ORDER[0] == "nvme-eui." && BY_ID_ORDER[1] == "nvme-"
    ensures BY_ID_ORDER[2] == "wwn-" && BY_ID_ORDER[3] == "ata-" && BY_ID_ORDER[4] == "scsi-"
  {
  }

  lemma {:induction false} KindsOnly(link: string, k: nat)
    requires Kind(link, k)
    ensures k < 5
  {
  }

  lemma {:induction false} WithPrefixIff(links: seq<string>, k: nat)
    requires k < 5
    ensures forall l :: l in WithPrefix(links, BY_ID_ORDER[k]) <==> l in links && Kind(l, k)
  {
    hide Kind, Base, BY_ID_ORDER;
    OrderIs();
    if links == [] {
    } else {
      WithPrefixIff(links[1..], k);
      KindIff(links[0], k);
      assert forall l :: l in links <==> l == links[0] || l in links[1..];
    }
  }

  /** A link of the j-th kind, the first kind from the k-th on that a link has, and least of this kind. */
  ghost predicate Taken(links: seq<string>, k: nat, j: nat, p: string) {
    && k <= j && p in links && Kind(p, j)
    && (forall q, i: nat :: q in links && k <= i && Kind(q, i) ==> j <= i)
    && forall q :: q in links && Kind(q, j) ==> !Before(IdRank(q), IdRank(p))
  }

  /** What is found from the k-th kind on: such a link, or there is none. */
  ghost predicate Found(links: seq<string>, k: nat, found: Option<string>) {
    match found
    case None => forall l, j: nat :: l in links && k <= j ==> !Kind(l, j)
    case Some(p) => exists j :: Taken(links, k, j, p)
  }

  lemma {:induction false} ByPrefixStep(links: seq<string>, k: nat)
    requires k < |BY_ID_ORDER|
    ensures var cands := WithPrefix(links, BY_ID_ORDER[k]);
      ByPrefix(links, BY_ID_ORDER[k..]) == if cands != [] then Some(Least(cands, IdRank)) else ByPrefix(links, BY_ID_ORDER[k + 1..])
  {
    hide WithPrefix, IdRank, BY_ID_ORDER;
    assert BY_ID_ORDER[k..][0] == BY_ID_ORDER[k] && BY_ID_ORDER[k..][1..] == BY_ID_ORDER[k + 1..];
  }

  lemma {:induction false} FoundLater(links: seq<string>, k: nat, found: Option<string>)
    requires Found(links, k + 1, found) && forall l :: l in links ==> !Kind(l, k)
    ensures Found(links, k, found)
  {
    hide Kind, IdRank, Before;
    if found.Some? {
      var j :| Taken(links, k + 1, j, found.value);
      assert Taken(links, k, j, found.value);
    }
  }

  lemma {:induction false} ByPrefixIs(links: seq<string>, k: nat)
    requires k <= |BY_ID_ORDER| == 5
    ensures Found(links, k, ByPrefix(links, BY_ID_ORDER[k..]))
    decreases 5 - k
  {
    hide Kind, IdRank, Before, WithPrefix, BY_ID_ORDER;
    if k < 5 {
      ByPrefixStep(links, k);
      WithPrefixIff(links, k);
      hide ByPrefix;
      var cands := WithPrefix(links, BY_ID_ORDER[k]);
      if cands != [] {
        var p := Least(cands, IdRank);
        LeastIs(cands, IdRank);
        assert Taken(links, k, k, p);
      } else {
        ByPrefixIs(links, k + 1);
        FoundLater(links, k, ByPrefix(links, BY_ID_ORDER[k + 1..]));
      }
    } else {
      NoMore(links);
    }
  }

  lemma {:induction false} NoMore(links: seq<string>)
    ensures ByPrefix(links, BY_ID_ORDER[5..]) == None && forall l, j: nat :: l in links && 5 <= j ==> !Kind(l, j)
  {
    OrderIs();
    forall l, j: nat | Kind(l, j)
      ensures j < 5
    {
      KindsOnly(l, j);
    }
  }

  /** The stable path of a disk is the one that is preferred. */
  lemma {:induction false} StablePathIs(d: Disk)
    ensures Stable(d, StablePath(d))
  {
    hide Kind, IdRank, PathRank, Before, BY_ID_ORDER, ByPrefix, WholeDisk, Whole, Pci, OldAta, NamedBefore, Generic;
    var paths, ids := WholeDisk(d.byPath), WholeDisk(d.byId);
    WholeIff(d.byPath);
    WholeIff(d.byId);
    if paths != [] {
      assert Whole(d.byPath, paths[0]);
      var p := Least(paths, PathRank);
      LeastIs(paths, PathRank);
      forall q | Whole(d.byPath, q)
        ensures (Pci(q) ==> Pci(p)) && ((Pci(q) <==> Pci(p)) && OldAta(p) ==> OldAta(q))
        ensures (Pci(q) <==> Pci(p)) && (OldAta(q) <==> OldAta(p)) ==> !NamedBefore(q, p)
      {
        PathOrder(p, q);
      }
    } else {
      assert BY_ID_ORDER[0..] == BY_ID_ORDER;
      OrderIs();
      ByPrefixIs(ids, 0);
      var found := ByPrefix(ids, BY_ID_ORDER);
      if found.Some? {
        var p := found.value;
        var k :| Taken(ids, 0, k, p);
        forall q | Whole(d.byId, q) && Kind(q, k)
          ensures (Generic(p) ==> Generic(q)) && ((Generic(q) <==> Generic(p)) ==> |p| <= |q|)
          ensures (Generic(q) <==> Generic(p)) && |p| == |q| ==> !Less(q, p)
        {
          IdOrder(p, q);
        }
        assert BestId(d.byId, k, p);
      }
    }
  }
}
