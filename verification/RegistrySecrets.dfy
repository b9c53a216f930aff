/**
 * The registry secrets that leave with a cluster whose namespace other clusters
 * keep: chosen by exact name (bin/harvester-capi.py, _registry_secrets_of;
 * bin/lib/registries.py, child_secret_names and nodes_secret_name;
 * bin/lib/capi_services.py, registry_secret_names).
 */
module RegistrySecrets {
  import opened Text
  import opened Wrappers

  const CLUSTER_MAX := 40
  const REGISTRY_MAX := 30

  /** A secret made by the console, and the registry its label names. */
  datatype Secret = Secret(name: string, registry: Option<string>)

  ghost predicate NameChar(c: char) {
    'a' <= c <= 'z' || '0' <= c <= '9' || c == '-'
  }

  /** Small letters, digits and dashes, no dash at either end. */
  ghost predicate ValidName(s: string, most: nat) {
    1 <= |s| <= most && s[0] != '-' && s[|s| - 1] != '-' && forall c :: c in s ==> NameChar(c)
  }

  ghost predicate ValidCluster(c: string) {
    ValidName(c, CLUSTER_MAX) && 'a' <= c[0] <= 'z'
  }

  ghost predicate ValidRegistry(r: string) {
    ValidName(r, REGISTRY_MAX)
  }

  function NodesSecret(c: string): string {
    c + "-" + "registries"
  }

  function AuthSecret(c: string, r: string): string {
    c + "-" + ("registry-" + r + "-auth")
  }

  function CaSecret(c: string, r: string): string {
    c + "-" + ("registry-" + r + "-ca")
  }

  function ChartSecret(c: string, r: string): string {
    c + "-" + ("chart-" + r)
  }

  function ChildNames(c: string, r: string): set<string> {
    {AuthSecret(c, r), CaSecret(c, r), ChartSecret(c, r)}
  }

  // --- what is taken ----------------------------------------------------------------------

  /** The names wanted for a cluster: the one of its nodes, and three for each registry that some secret is labelled with. */
  function Wanted(generated: seq<Secret>, c: string): set<string> {
    if generated == [] then {NodesSecret(c)}
    else Wanted(generated[..|generated| - 1], c) + Labelled(generated[|generated| - 1], c)
  }

  function Labelled(s: Secret, c: string): set<string> {
    if s.registry.Some? && s.registry.value != "" then ChildNames(c, s.registry.value) else {}
  }

  function Chosen(generated: seq<Secret>, wanted: set<string>): seq<Secret> {
    if generated == [] then []
    else
      var s := generated[|generated| - 1];
      Chosen(generated[..|generated| - 1], wanted) + (if s.name in wanted then [s] else [])
  }

  /** `_registry_secrets_of` */
  function Taken(generated: seq<Secret>, c: string): seq<Secret> {
    Chosen(generated, Wanted(generated, c))
  }

  method RegistrySecretsOf(generated: seq<Secret>, c: string) returns (taken: seq<Secret>)
    ensures taken == Taken(generated, c)
  {
    var wanted := {NodesSecret(c)};
    assert generated[..0] == [];
    for n := 0 to |generated|
      invariant wanted == Wanted(generated[..n], c)
    {
      assert generated[..n + 1][..n] == generated[..n];
      var reg := generated[n].registry;
      if reg.Some? && reg.value != "" {
        wanted := wanted + ChildNames(c, reg.value);
      }
    }
    assert generated[..|generated|] == generated;
    taken := [];
    for n := 0 to |generated|
      invariant taken == Chosen(generated[..n], wanted)
    {
      assert generated[..n + 1][..n] == generated[..n];
      if generated[n].name in wanted {
        taken := taken + [generated[n]];
      }
    }
  }

  lemma {:induction false} WantedIff(generated: seq<Secret>, c: string, n: string)
    ensures n in Wanted(generated, c) <==> n == NodesSecret(c) || exists s :: s in generated && n in Labelled(s, c)
  {
    if generated == [] {
    } else {
      var last := |generated| - 1;
      hide Labelled, NodesSecret;
      WantedIff(generated[..last], c, n);
      assert generated[last] in generated && forall s :: s in generated <==> s in generated[..last] || s == generated[last];
    }
  }

  lemma {:induction false} ChosenIff(generated: seq<Secret>, wanted: set<string>, s: Secret)
    ensures s in Chosen(generated, wanted) <==> s in generated && s.name in wanted
  {
    if generated == [] {
    } else {
      var last := |generated| - 1;
      ChosenIff(generated[..last], wanted, s);
      assert forall x :: x in generated <==> x in generated[..last] || x == generated[last];
    }
  }

  // --- whose they are -----------------------------------------------------------------------

  /** A secret that the console makes for cluster `c`. */
  ghost predicate MadeFor(s: Secret, c: string) {
    || s == Secret(NodesSecret(c), None)
    || (s.registry.Some? && ValidRegistry(s.registry.value) && s.name in ChildNames(c, s.registry.value))
  }

  /** Everything made for the cluster is taken. */
  lemma {:induction false} OwnTaken(generated: seq<Secret>, c: string, s: Secret)
    requires s in generated && MadeFor(s, c)
    ensures s in Taken(generated, c)
  {
    WantedIff(generated, c, s.name);
    ChosenIff(generated, Wanted(generated, c), s);
    hide NodesSecret, ChildNames, Wanted, Chosen;
    if s.registry.Some? {
      assert s.name in Labelled(s, c);
    }
  }

  /** What may follow the name of a cluster and a dash in the name of another one that is mistaken for it. */
  ghost predicate Confusing(z: string) {
    || z == "registry" || z == "chart"
    || ("registry-" <= z && 10 <= |z| <= 33 && z[9] != '-')
    || ("chart-" <= z && 7 <= |z| <= 28 && z[6] != '-')
  }

  ghost predicate Inside(a: string, b: string) {
    a + "-" <= b && Confusing(b[|a| + 1..])
  }

  // --- names in common ---------------------------------------------------------------------------

  /** What follows the name of its cluster and a dash in the name of a secret. */
  ghost predicate Ending(t: string, r: string) {
    t == "registries" || t == "registry-" + r + "-auth" || t == "registry-" + r + "-ca" || t == "chart-" + r
  }

  ghost predicate Named(n: string, c: string, r: string) {
    exists t :: Ending(t, r) && n == c + "-" + t
  }

  lemma {:induction false} NamedIff(n: string, c: string, r: string)
    ensures Named(n, c, r) <==> n == NodesSecret(c) || n in ChildNames(c, r)
  {
    if n == NodesSecret(c) {
      assert Ending("registries", r);
    } else if n == AuthSecret(c, r) {
      assert Ending("registry-" + r + "-auth", r);
    } else if n == CaSecret(c, r) {
      assert Ending("registry-" + r + "-ca", r);
    } else if n == ChartSecret(c, r) {
      assert Ending("chart-" + r, r);
    }
  }

  lemma {:induction false} EndingIsLong(t: string, r: string)
    requires Ending(t, r) && r != ""
    ensures |t| >= 10 || t == "chart-" + r
  {
  }

  /** A short end that follows "chart-" does not begin before it. */
  lemma {:induction false} ShortEnding(t: string, r: string, tail: string)
    requires tail == "-auth" || tail == "-ca"
    requires t == "chart-" + r && r != "" && |tail| <= |t| && t[|t| - |tail|..] == tail
    ensures |t| >= 5 + |tail|
  {
    var word := "chart-";
    assert t[|t| - |tail|] == tail[0] == '-';
    assert word[2] == 'a' && word[3] == 'r' && word[4] == 't' && forall i :: 0 <= i < 6 ==> t[i] == word[i];
  }

  lemma {:induction false} RegistryEnds(z: string, r: string, tail: string, t: string, r2: string)
    requires tail == "-auth" || tail == "-ca"
    requires ValidRegistry(r) && ValidRegistry(r2) && Ending(t, r2) && z != "" && z[|z| - 1] != '-'
    requires "registry-" + r + tail == z + "-" + t
    ensures Confusing(z)
  {
    var word, s := "registry-", "registry-" + r + tail;
    assert s[|z|] == '-' && s == z + "-" + t;
    assert forall i :: 0 <= i < 9 ==> s[i] == word[i] && (word[i] == '-' <==> i == 8);
    assert forall i :: 0 <= i < |z| ==> z[i] == s[i];
    assert s[9] == r[0] && |t| >= 7 by {
      EndingIsLong(t, r2);
    }
    assert |z| + 1 + |t| == 9 + |r| + |tail|;
    if |z| == 8 {
      assert z == "registry";
    } else {
      assert word <= z;
      assert t == s[|s| - |t|..] && s[|s| - |tail|..] == tail;
      assert t[|t| - |tail|..] == tail;
      EndingIsLong(t, r2);
      if |t| < 10 {
        ShortEnding(t, r2, tail);
      }
    }
  }

  lemma {:induction false} ChartEnds(z: string, r: string, t: string, r2: string)
    requires ValidRegistry(r) && ValidRegistry(r2) && Ending(t, r2) && z != "" && z[|z| - 1] != '-'
    requires "chart-" + r == z + "-" + t
    ensures Confusing(z)
  {
    var word, s := "chart-", "chart-" + r;
    assert s[|z|] == '-' && s == z + "-" + t;
    assert forall i :: 0 <= i < 6 ==> s[i] == word[i] && (word[i] == '-' <==> i == 5);
    assert forall i :: 0 <= i < |z| ==> z[i] == s[i];
    assert s[6] == r[0] && |t| >= 7 by {
      EndingIsLong(t, r2);
    }
    if |z| == 5 {
      assert z == "chart";
    } else {
      assert word <= z;
    }
  }

  lemma {:induction false} SplitName(a: string, b: string, x: string, t: string)
    requires a + "-" + x == b + "-" + t && |a| <= |b| && a != b && b != "" && b[|b| - 1] != '-'
    ensures a + "-" <= b && x == b[|a| + 1..] + "-" + t && b[|a| + 1..] != "" && b[|a| + 1..][|b| - |a| - 2] != '-'
  {
    var n := a + "-" + x;
    assert n[..|a|] == a && n[..|b|] == b && n[|a|] == '-';
    assert forall i :: 0 <= i < |a| ==> b[i] == n[i] == a[i];
    assert b[..|a|] == a && b[..|b|] == b;
    assert b[|a|] == '-' && b[..|a| + 1] == a + "-";
    assert b == b[..|a| + 1] + b[|a| + 1..];
    assert n[|a| + 1..] == x && n[|a| + 1..] == b[|a| + 1..] + "-" + t;
  }

  lemma {:induction false} OneWord(z: string, t: string)
    ensures "registries" != z + "-" + t
  {
    var word := "registries";
    assert forall i :: 0 <= i < 10 ==> word[i] != '-';
    assert (z + "-" + t)[|z|] == '-';
  }

  /** One name for two clusters: one of them is inside the other. */
  lemma {:induction false} SharedIsInside(n: string, a: string, ra: string, b: string, rb: string)
    requires ValidCluster(a) && ValidCluster(b) && ValidRegistry(ra) && ValidRegistry(rb) && a != b && |a| <= |b|
    requires Named(n, a, ra) && Named(n, b, rb)
    ensures Inside(a, b)
  {
    var x: string :| Ending(x, ra) && n == a + "-" + x;
    var t: string :| Ending(t, rb) && n == b + "-" + t;
    SplitName(a, b, x, t);
    var z := b[|a| + 1..];
    OneWord(z, t);
    if x == "registry-" + ra + "-auth" {
      RegistryEnds(z, ra, "-auth", t, rb);
    } else if x == "registry-" + ra + "-ca" {
      RegistryEnds(z, ra, "-ca", t, rb);
    } else {
      ChartEnds(z, ra, t, rb);
    }
  }

  lemma {:induction false} Extended(x: string, more: string, most: nat)
    requires ValidName(x, most) || x == ""
    requires more in {"-chart", "chart", "-chart-a", "chart-a"} && (x == "" <==> more[0] != '-')
    requires |x| + |more| <= REGISTRY_MAX && |x| <= most
    ensures ValidRegistry(x + more)
  {
    var r := x + more;
    assert more[|more| - 1] in "ta" && (x == "" ==> more[0] == 'c') && forall c :: c in more ==> NameChar(c) by {
      assert "-chart"[5] == 't' && "chart"[4] == 't' && "-chart-a"[7] == 'a' && "chart-a"[6] == 'a';
    }
    assert r[|r| - 1] == more[|more| - 1];
    forall c | c in r
      ensures NameChar(c)
    {
      assert c in x || c in more;
    }
    if x != "" {
      assert r[0] == x[0];
    }
  }

  lemma {:induction false} PartIsName(c: string, x: string, most: nat)
    requires ValidCluster(c) && 1 <= |x| <= most && |x| <= |c| && c[|c| - |x|..] == x && x[0] != '-'
    ensures ValidName(x, most)
  {
    assert x[|x| - 1] == c[|c| - 1];
    forall i | 0 <= i < |x|
      ensures NameChar(x[i])
    {
      assert x[i] == c[|c| - |x| + i] && c[|c| - |x| + i] in c;
    }
  }

  /** What is left after a word that begins `z`: empty, or a registry's name with room for more. */
  lemma {:induction false} RestIsName(a: string, z: string, k: nat, most: nat) returns (x: string)
    requires ValidCluster(a + "-" + z) && k <= |z| <= k + 1 + most && |z| != k + 1 && (|z| > k ==> z[k + 1] != '-')
    ensures x == (if |z| == k then "" else z[k + 1..]) && (x == "" || ValidName(x, most))
  {
    var b := a + "-" + z;
    x := if |z| == k then "" else z[k + 1..];
    if x != "" {
      assert b[|b| - |x|..] == x;
      PartIsName(b, x, most);
    }
  }

  lemma {:induction false} RegistryGlue(a: string, z: string, x: string, ra: string)
    requires if x == "" then z == "registry" && ra == "chart" else z == "registry-" + x && ra == x + "-chart"
    ensures AuthSecret(a, ra) == ChartSecret(a + "-" + z, "auth")
  {
    assert "registry-" + ra + "-auth" == z + "-" + ("chart-" + "auth");
    assert a + "-" + (z + "-" + ("chart-" + "auth")) == (a + "-" + z) + "-" + ("chart-" + "auth");
  }

  lemma {:induction false} ChartGlue(a: string, z: string, x: string, ra: string)
    requires if x == "" then z == "chart" && ra == "chart-a" else z == "chart-" + x && ra == x + "-chart-a"
    ensures ChartSecret(a, ra) == ChartSecret(a + "-" + z, "a")
  {
    assert "chart-" + ra == z + "-" + ("chart-" + "a");
    assert a + "-" + (z + "-" + ("chart-" + "a")) == (a + "-" + z) + "-" + ("chart-" + "a");
  }

  lemma {:induction false} RegistryShares(a: string, z: string) returns (ra: string)
    requires ValidCluster(a + "-" + z) && (z == "registry" || ("registry-" <= z && 10 <= |z| <= 33 && z[9] != '-'))
    ensures ValidRegistry(ra) && AuthSecret(a, ra) == ChartSecret(a + "-" + z, "auth")
  {
    var x := RestIsName(a, z, 8, 24);
    ra := if x == "" then "chart" else x + "-chart";
    assert "" + "chart" == "chart" && (x != "" ==> z == "registry-" + x);
    hide ValidCluster, ValidRegistry, ValidName, AuthSecret, ChartSecret;
    Extended(x, if x == "" then "chart" else "-chart", 24);
    RegistryGlue(a, z, x, ra);
  }

  lemma {:induction false} ChartShares(a: string, z: string) returns (ra: string)
    requires ValidCluster(a + "-" + z) && (z == "chart" || ("chart-" <= z && 7 <= |z| <= 28 && z[6] != '-'))
    ensures ValidRegistry(ra) && ChartSecret(a, ra) == ChartSecret(a + "-" + z, "a")
  {
    var x := RestIsName(a, z, 5, 22);
    ra := if x == "" then "chart-a" else x + "-chart-a";
    assert "" + "chart-a" == "chart-a" && (x != "" ==> z == "chart-" + x);
    hide ValidCluster, ValidRegistry, ValidName, AuthSecret, ChartSecret;
    Extended(x, if x == "" then "chart-a" else "-chart-a", 22);
    ChartGlue(a, z, x, ra);
  }

  lemma {:induction false} ShortRegistries()
    ensures ValidRegistry("auth") && ValidRegistry("a")
  {
  }

  /** A name that both share, when one is inside the other. */
  lemma {:induction false} InsideShares(a: string, b: string) returns (ra: string, rb: string)
    requires ValidCluster(a) && ValidCluster(b) && Inside(a, b)
    ensures ValidRegistry(ra) && ValidRegistry(rb)
    ensures ChartSecret(b, rb) in {AuthSecret(a, ra), ChartSecret(a, ra)}
  {
    var z := b[|a| + 1..];
    assert b == a + "-" + z;
    ShortRegistries();
    hide ValidCluster, ValidRegistry, AuthSecret, ChartSecret;
    if z == "chart" || ("chart-" <= z && 7 <= |z| <= 28 && z[6] != '-') {
      ra := ChartShares(a, z);
      rb := "a";
    } else {
      ra := RegistryShares(a, z);
      rb := "auth";
    }
  }

  // --- the promise ---------------------------------------------------------------------------------

  /** What the console made for these two clusters, each name once. */
  ghost predicate MadeForEither(generated: seq<Secret>, a: string, b: string) {
    && (forall s :: s in generated ==> MadeFor(s, a) || MadeFor(s, b))
    && forall i, j :: 0 <= i < j < |generated| ==> generated[i].name != generated[j].name
  }

  /** Some secret of `b` goes with `a`. */
  ghost predicate TakesFrom(generated: seq<Secret>, a: string, b: string) {
    exists s :: s in Taken(generated, a) && MadeFor(s, b)
  }

  lemma {:induction false} MadeIsNamed(s: Secret, c: string) returns (r: string)
    requires MadeFor(s, c)
    ensures ValidRegistry(r) && Named(s.name, c, r)
  {
    r := if s.registry.Some? then s.registry.value else "a";
    NamedIff(s.name, c, r);
  }

  lemma {:induction false} TakenIsNamed(generated: seq<Secret>, a: string, b: string, s: Secret) returns (r: string)
    requires MadeForEither(generated, a, b) && s in Taken(generated, a)
    ensures ValidRegistry(r) && Named(s.name, a, r)
  {
    ChosenIff(generated, Wanted(generated, a), s);
    WantedIff(generated, a, s.name);
    hide Wanted, Chosen, NodesSecret, ChildNames, Named;
    if s.name == NodesSecret(a) {
      r := "a";
    } else {
      var l :| l in generated && s.name in Labelled(l, a);
      assert MadeFor(l, a) || MadeFor(l, b);
      r := l.registry.value;
    }
    NamedIff(s.name, a, r);
  }

  /** A secret of `b` under a name wanted for `a`, next to one of `a` that bears the label. */
  lemma {:induction false} Witness(a: string, ra: string, b: string, s: Secret) returns (generated: seq<Secret>)
    requires ValidRegistry(ra) && MadeFor(s, b) && s.name in {AuthSecret(a, ra), ChartSecret(a, ra)}
    ensures MadeForEither(generated, a, b) && TakesFrom(generated, a, b)
  {
    var bearer := Secret(CaSecret(a, ra), Some(ra));
    generated := [bearer, s];
    OtherNames(a, ra);
    hide NodesSecret, AuthSecret, CaSecret, ChartSecret, Wanted, Chosen;
    assert bearer.name in ChildNames(a, ra) && s.name in Labelled(bearer, a);
    assert bearer in generated && s in generated;
    WantedIff(generated, a, s.name);
    ChosenIff(generated, Wanted(generated, a), s);
  }

  lemma {:induction false} OtherNames(a: string, r: string)
    ensures CaSecret(a, r) != AuthSecret(a, r) && CaSecret(a, r) != ChartSecret(a, r)
  {
    var ca, auth, chart := CaSecret(a, r), AuthSecret(a, r), ChartSecret(a, r);
    assert |ca| != |auth| && |ca| != |chart|;
  }

  /**
   * Two clusters in one namespace. Whatever registries they use, the deletion
   * of one takes no secret of the other, if and only if neither name continues
   * the other one with "-registry" or "-chart" (and little enough more that
   * the rest is a registry's name).
   */
  lemma {:induction false} OthersKeptIff(a: string, b: string)
    requires ValidCluster(a) && ValidCluster(b) && a != b
    ensures (forall generated: seq<Secret> :: MadeForEither(generated, a, b) ==> !TakesFrom(generated, a, b))
       <==> !Inside(a, b) && !Inside(b, a)
  {
    hide ValidCluster, ValidRegistry, Inside, MadeForEither, Taken;
    if Inside(a, b) {
      var ra, rb := InsideShares(a, b);
      var generated := Witness(a, ra, b, Secret(ChartSecret(b, rb), Some(rb)));
    } else if Inside(b, a) {
      var rb, ra := InsideShares(b, a);
      var generated := Witness(a, ra, b, Secret(ChartSecret(a, ra), Some(rb)));
    } else {
      forall generated: seq<Secret> | MadeForEither(generated, a, b)
        ensures !TakesFrom(generated, a, b)
      {
        if s :| s in Taken(generated, a) && MadeFor(s, b) {
          var ra := TakenIsNamed(generated, a, b, s);
          var rb := MadeIsNamed(s, b);
          if |a| <= |b| {
            SharedIsInside(s.name, a, ra, b, rb);
          } else {
            SharedIsInside(s.name, b, rb, a, ra);
          }
        }
      }
    }
  }
}
