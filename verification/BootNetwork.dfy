/**
 * Names of the network cards before and after installation
 * (web/baremetal_boot_network.py): the bindings of cards to names, the kernel
 * arguments of the first boot, and what is added to the installer's config so
 * that installed boots keep the same names.
 */
module BootNetwork {
  import opened Names
  import opened Text
  import opened Wrappers

  datatype Error =
    | MissingInterfaces | InvalidMac | DuplicateMac | InvalidName | DuplicateInterface
    | InvalidIfname | ConflictingIfname | ConflictingRule
    | ConflictingArgument | UnsupportedOption | InvalidMtu | InvalidVlan | InvalidAddress | InvalidHostname | UnsupportedMethod

  /** A card as configured; an absent field is the empty text. */
  datatype Interface = Interface(name: string, hwAddr: string, hw_addr: string)
  datatype File = File(path: string, content: string, permissions: string, owner: string)

  datatype Method = Dhcp | Static(ip: string, gateway: string, mask: string) | OtherMethod

  /** The parts of the config that are read but never written here. */
  datatype Net = Net(bond: seq<(string, string)>, mtu: Option<int>, vlan: int, ipMethod: Method, hostname: string, dns: seq<string>)
  datatype Config = Config(interfaces: seq<Interface>, kernelArgs: string, externalStorage: bool, files: seq<File>, net: Net)

  datatype Binding = Binding(name: string, mac: Option<string>)

  // --- bindings ------------------------------------------------------------------------

  predicate HexDigit(c: char) {
    '0' <= c <= '9' || 'a' <= c <= 'f' || 'A' <= c <= 'F'
  }

  /** Six pairs of hexadecimal digits between colons. */
  predicate ValidMac(s: string) {
    |s| == 17 && forall i :: 0 <= i < 17 ==> if i % 3 == 2 then s[i] == ':' else HexDigit(s[i])
  }

  predicate NameChar(c: char) {
    'a' <= c <= 'z' || 'A' <= c <= 'Z' || '0' <= c <= '9' || c == '_' || c == '-'
  }

  predicate ValidName(s: string) {
    1 <= |s| <= 15 && NameChar(s[0]) && forall c :: c in s ==> NameChar(c) || c == '.'
  }

  function Decimal(n: nat): string {
    if n < 10 then [('0' as int + n) as char] else Decimal(n / 10) + [('0' as int + n % 10) as char]
  }

  function MacOf(i: Interface): string {
    if i.hwAddr != "" then i.hwAddr else i.hw_addr
  }

  function NameOf(i: Interface, index: nat): string {
    if MacOf(i) != "" && i.name == "" then "hvboot" + Decimal(index) else i.name
  }

  predicate NameTaken(bs: seq<Binding>, name: string) {
    exists j :: 0 <= j < |bs| && bs[j].name == name
  }

  predicate MacTaken(bs: seq<Binding>, mac: string) {
    exists j :: 0 <= j < |bs| && bs[j].mac == Some(mac)
  }

  function Bind(i: Interface, index: nat, before: seq<Binding>): Result<Binding, Error> {
    var mac, name := MacOf(i), NameOf(i, index);
    if mac != "" && !ValidMac(mac) then Err(InvalidMac)
    else if mac != "" && MacTaken(before, Lower(mac)) then Err(DuplicateMac)
    else if !ValidName(name) then Err(InvalidName)
    else if NameTaken(before, name) then Err(DuplicateInterface)
    else Ok(Binding(name, if mac == "" then None else Some(Lower(mac))))
  }

  function BindFrom(cards: seq<Interface>, before: seq<Binding>): (r: Result<seq<Binding>, Error>)
    requires |before| <= |cards|
    ensures r.Ok? ==> |r.value| == |cards|
    decreases |cards| - |before|
  {
    if |before| == |cards| then Ok(before)
    else
      match Bind(cards[|before|], |before|, before)
      case Err(e) => Err(e)
      case Ok(b) => BindFrom(cards, before + [b])
  }

  /** `_boot_interface_bindings` */
  function Bindings(cards: seq<Interface>): (r: Result<seq<Binding>, Error>)
    ensures r.Ok? ==> |r.value| == |cards|
  {
    if cards == [] then Err(MissingInterfaces) else BindFrom(cards, [])
  }

  method BootInterfaceBindings(cards: seq<Interface>) returns (r: Result<seq<Binding>, Error>)
    ensures r == Bindings(cards)
  {
    if cards == [] {
      return Err(MissingInterfaces);
    }
    var bindings: seq<Binding>, seen: set<string> := [], {};
    for n := 0 to |cards|
      invariant |bindings| == n && BindFrom(cards, bindings) == BindFrom(cards, [])
      invariant forall m :: m in seen <==> MacTaken(bindings, m)
    {
      var mac, name := MacOf(cards[n]), NameOf(cards[n], n);
      ghost var before := bindings;
      if mac != "" {
        if !ValidMac(mac) {
          return Err(InvalidMac);
        }
        if Lower(mac) in seen {
          return Err(DuplicateMac);
        }
      }
      if !ValidName(name) {
        return Err(InvalidName);
      }
      if NameTaken(bindings, name) {
        return Err(DuplicateInterface);
      }
      bindings := bindings + [Binding(name, if mac == "" then None else Some(Lower(mac)))];
      TakenAppend(before, bindings[n]);
      if mac != "" {
        seen := seen + {Lower(mac)};
      }
    }
    return Ok(bindings);
  }

  lemma {:induction false} TakenAppend(bs: seq<Binding>, b: Binding)
    ensures forall m :: MacTaken(bs + [b], m) <==> MacTaken(bs, m) || b.mac == Some(m)
    ensures forall n :: NameTaken(bs + [b], n) <==> NameTaken(bs, n) || b.name == n
  {
    var all := bs + [b];
    assert all[|bs|] == b && forall j :: 0 <= j < |bs| ==> all[j] == bs[j];
    forall m
      ensures MacTaken(all, m) <==> MacTaken(bs, m) || b.mac == Some(m)
    {
      if MacTaken(bs, m) {
        var j :| 0 <= j < |bs| && bs[j].mac == Some(m);
        assert all[j].mac == Some(m);
      }
    }
    forall n
      ensures NameTaken(all, n) <==> NameTaken(bs, n) || b.name == n
    {
      if NameTaken(bs, n) {
        var j :| 0 <= j < |bs| && bs[j].name == n;
        assert all[j].name == n;
      }
    }
  }

  /** One to one: no name and no address is bound twice; all are well formed, addresses in lower case. */
  ghost predicate OneToOne(bs: seq<Binding>) {
    && (forall b :: b in bs ==> ValidName(b.name) && (b.mac.Some? ==> ValidMac(b.mac.value) && Lower(b.mac.value) == b.mac.value))
    && forall i, j :: 0 <= i < j < |bs| ==> bs[i].name != bs[j].name && (bs[i].mac.Some? ==> bs[i].mac != bs[j].mac)
  }

  lemma {:induction false} LowerMac(mac: string)
    requires ValidMac(mac)
    ensures ValidMac(Lower(mac)) && Lower(Lower(mac)) == Lower(mac)
  {
    assert forall i :: 0 <= i < 17 ==> LowerChar(LowerChar(mac[i])) == LowerChar(mac[i]);
  }

  lemma {:induction false} BindIsNew(i: Interface, index: nat, before: seq<Binding>)
    requires OneToOne(before) && Bind(i, index, before).Ok?
    ensures OneToOne(before + [Bind(i, index, before).value])
  {
    var b := Bind(i, index, before).value;
    if b.mac.Some? {
      LowerMac(MacOf(i));
    }
    forall j | 0 <= j < |before|
      ensures before[j].name != b.name && (before[j].mac.Some? ==> before[j].mac != b.mac)
    {
      assert b.mac.Some? ==> !MacTaken(before, b.mac.value);
      assert !NameTaken(before, b.name);
    }
  }

  lemma {:induction false} BoundFrom(cards: seq<Interface>, before: seq<Binding>)
    requires |before| <= |cards| && BindFrom(cards, before).Ok? && OneToOne(before)
    ensures var bs := BindFrom(cards, before).value;
      && |bs| == |cards| && before <= bs && OneToOne(bs)
      && forall k :: |before| <= k < |cards| ==> Bind(cards[k], k, bs[..k]) == Ok(bs[k])
    decreases |cards| - |before|
  {
    if |before| < |cards| {
      var b := Bind(cards[|before|], |before|, before).value;
      BindIsNew(cards[|before|], |before|, before);
      BoundFrom(cards, before + [b]);
      var bs := BindFrom(cards, before).value;
      assert bs[..|before|] == before && bs[|before|] == b;
    }
  }

  /** The number that decimal digits write. */
  function Number(s: string): int {
    if s == "" then 0 else 10 * Number(s[..|s| - 1]) + (s[|s| - 1] as int - '0' as int)
  }

  lemma {:induction false} DecimalReads(n: nat)
    ensures Number(Decimal(n)) == n && Decimal(n) != "" && forall c :: c in Decimal(n) ==> '0' <= c <= '9'
  {
    if n < 10 {
      assert Decimal(n)[..0] == "";
    } else {
      DecimalReads(n / 10);
      assert Decimal(n)[..|Decimal(n)| - 1] == Decimal(n / 10);
    }
  }

  /** The card keeps its configured name, or is numbered; its address is the first of the two fields that is set, in lower case. */
  ghost predicate BoundTo(i: Interface, k: nat, b: Binding) {
    && (if i.name != "" then b.name == i.name else "hvboot" <= b.name && Number(b.name[|"hvboot"|..]) == k && b.mac.Some?)
    && b.mac == if i.hwAddr != "" then Some(Lower(i.hwAddr)) else if i.hw_addr != "" then Some(Lower(i.hw_addr)) else None
  }

  lemma {:induction false} BindIsBound(i: Interface, k: nat, before: seq<Binding>)
    requires Bind(i, k, before).Ok?
    ensures BoundTo(i, k, Bind(i, k, before).value)
  {
    DecimalReads(k);
    assert ("hvboot" + Decimal(k))[|"hvboot"|..] == Decimal(k);
  }

  /** The bindings, one by one. */
  lemma {:induction false} Bound(cards: seq<Interface>)
    requires Bindings(cards).Ok?
    ensures var bs := Bindings(cards).value;
      && |bs| == |cards| && OneToOne(bs) && (forall k :: 0 <= k < |cards| ==> Bind(cards[k], k, bs[..k]) == Ok(bs[k]))
      && forall k :: 0 <= k < |cards| ==> BoundTo(cards[k], k, bs[k])
  {
    hide Bind, BoundTo;
    BoundFrom(cards, []);
    forall k | 0 <= k < |cards|
      ensures BoundTo(cards[k], k, Bindings(cards).value[k])
    {
      BindIsBound(cards[k], k, Bindings(cards).value[..k]);
    }
  }

  /** By their ASCII codes. */
  ghost predicate Letter(c: char) {
    65 <= c as int <= 90 || 97 <= c as int <= 122
  }

  ghost predicate Digit(c: char) {
    48 <= c as int <= 57
  }

  ghost predicate Hex(c: char) {
    Digit(c) || 65 <= c as int <= 70 || 97 <= c as int <= 102
  }

  /** A card's name: up to fifteen letters, digits, dashes, underscores and dots, no dot first. */
  ghost predicate CardName(s: string) {
    1 <= |s| <= 15 && s[0] != '.' && forall c :: c in s ==> Letter(c) || Digit(c) || c in "_-."
  }

  /** An address: six pairs of hexadecimal digits between colons. */
  ghost predicate Address(s: string) {
    |SplitOn(s, ':')| == 6 && forall p :: p in SplitOn(s, ':') ==> |p| == 2 && Hex(p[0]) && Hex(p[1])
  }

  lemma {:induction false} HexIff(c: char)
    ensures Hex(c) <==> HexDigit(c)
  {
  }

  lemma {:induction false} NameCharIff(c: char)
    ensures NameChar(c) || c == '.' <==> Letter(c) || Digit(c) || c in "_-."
  {
    assert c in "_-." <==> c == '_' || c == '-' || c == '.';
  }

  lemma {:induction false} ValidNameIff(s: string)
    ensures ValidName(s) <==> CardName(s)
  {
    hide Letter, Digit, NameChar;
    forall c
      ensures NameChar(c) || c == '.' <==> Letter(c) || Digit(c) || c in "_-."
    {
      NameCharIff(c);
    }
    DotIsNone();
    assert |s| > 0 ==> s[0] in s;
  }

  lemma {:induction false} DotIsNone()
    ensures !NameChar('.')
  {
  }

  lemma {:induction false} SixParts(a: string, b: string, c: string, d: string, e: string, f: string)
    ensures JoinWith([a, b, c, d, e, f], ':') == a + ":" + b + ":" + c + ":" + d + ":" + e + ":" + f
    ensures JoinWith([a, b, c, d, e, f], ':') == a + ":" + (b + ":" + (c + ":" + (d + ":" + (e + ":" + f))))
  {
    assert JoinWith([e, f], ':') == e + ":" + f;
    assert [d, e, f][1..] == [e, f] && [c, d, e, f][1..] == [d, e, f] && [b, c, d, e, f][1..] == [c, d, e, f];
    assert [a, b, c, d, e, f][1..] == [b, c, d, e, f];
    assert JoinWith([c, d, e, f], ':') == c + ":" + (d + ":" + (e + ":" + f));
    assert JoinWith([a, b, c, d, e, f], ':') == a + ":" + (b + ":" + (c + ":" + (d + ":" + (e + ":" + f))));
  }

  lemma {:induction false} ColonIsNoDigit()
    ensures !HexDigit(':')
  {
  }

  lemma {:induction false} ValidMacIff(s: string)
    ensures ValidMac(s) <==> Address(s)
  {
    hide HexDigit, Hex, SplitOn, JoinWith;
    forall c
      ensures Hex(c) <==> HexDigit(c)
    {
      HexIff(c);
    }
    if ValidMac(s) {
      PartsOfMac(s);
      SplitJoin([s[0..2], s[3..5], s[6..8], s[9..11], s[12..14], s[15..17]], ':');
    }
    if Address(s) {
      JoinSplit(s, ':');
      var parts := SplitOn(s, ':');
      assert parts == [parts[0], parts[1], parts[2], parts[3], parts[4], parts[5]];
      SixParts(parts[0], parts[1], parts[2], parts[3], parts[4], parts[5]);
      MacOfParts(s, parts);
    }
  }

  lemma {:induction false} Cut(s: string, i: nat)
    requires i + 2 < |s| && s[i + 2] == ':'
    ensures s[i..] == s[i..i + 2] + ":" + s[i + 3..]
  {
  }

  lemma {:induction false} MacJoins(s: string)
    requires ValidMac(s)
    ensures s == JoinWith([s[0..2], s[3..5], s[6..8], s[9..11], s[12..14], s[15..17]], ':')
  {
    hide HexDigit, JoinWith;
    SixParts(s[0..2], s[3..5], s[6..8], s[9..11], s[12..14], s[15..17]);
    assert s[2] == ':' && s[5] == ':' && s[8] == ':' && s[11] == ':' && s[14] == ':';
    hide ValidMac;
    Cut(s, 0);
    Cut(s, 3);
    Cut(s, 6);
    Cut(s, 9);
    Cut(s, 12);
    assert s[0..] == s && s[15..] == s[15..17];
  }

  lemma {:induction false} PartsOfMac(s: string)
    requires ValidMac(s)
    ensures var parts := [s[0..2], s[3..5], s[6..8], s[9..11], s[12..14], s[15..17]];
      s == JoinWith(parts, ':') && forall p :: p in parts ==> ':' !in p && |p| == 2 && HexDigit(p[0]) && HexDigit(p[1])
  {
    hide HexDigit, JoinWith;
    MacJoins(s);
    Pair(s, 0);
    Pair(s, 3);
    Pair(s, 6);
    Pair(s, 9);
    Pair(s, 12);
    Pair(s, 15);
    hide ValidMac;
  }

  lemma {:induction false} Pair(s: string, i: nat)
    requires ValidMac(s) && i % 3 == 0 && i < 17
    ensures var p := s[i..i + 2]; ':' !in p && |p| == 2 && HexDigit(p[0]) && HexDigit(p[1])
  {
    hide HexDigit;
    ColonIsNoDigit();
    assert i + 2 <= 17 && (i + 1) % 3 == 1;
    assert HexDigit(s[i]) && HexDigit(s[i + 1]);
    assert s[i..i + 2] == [s[i], s[i + 1]];
  }

  lemma {:induction false} MacOfParts(s: string, parts: seq<string>)
    requires |parts| == 6 && forall p :: p in parts ==> |p| == 2 && HexDigit(p[0]) && HexDigit(p[1])
    requires s == parts[0] + ":" + parts[1] + ":" + parts[2] + ":" + parts[3] + ":" + parts[4] + ":" + parts[5]
    ensures ValidMac(s)
  {
    hide HexDigit;
    assert |s| == 17;
    forall i | 0 <= i < 17
      ensures if i % 3 == 2 then s[i] == ':' else HexDigit(s[i])
    {
      assert parts[i / 3] in parts;
      assert s[i] == if i % 3 == 2 then ':' else parts[i / 3][i % 3];
    }
  }

  /** Well formed, and no name and no address used twice. */
  ghost predicate Usable(cards: seq<Interface>) {
    && cards != []
    && (forall k :: 0 <= k < |cards| ==> CardName(NameOf(cards[k], k)) && (MacOf(cards[k]) == "" || Address(MacOf(cards[k]))))
    && forall i, j :: 0 <= i < j < |cards| ==>
         NameOf(cards[i], i) != NameOf(cards[j], j) && (MacOf(cards[i]) != "" && MacOf(cards[j]) != "" ==> Lower(MacOf(cards[i])) != Lower(MacOf(cards[j])))
  }

  function BindingOf(i: Interface, k: nat): Binding {
    Binding(NameOf(i, k), if MacOf(i) == "" then None else Some(Lower(MacOf(i))))
  }

  /** Cards are refused exactly when one is malformed or two clash. */
  lemma {:induction false} BindingsIff(cards: seq<Interface>)
    ensures Bindings(cards).Ok? <==> Usable(cards)
  {
    hide ValidName, ValidMac, CardName, Address, NameOf, MacOf, Lower;
    forall k | 0 <= k < |cards|
      ensures ValidName(NameOf(cards[k], k)) <==> CardName(NameOf(cards[k], k))
      ensures ValidMac(MacOf(cards[k])) <==> Address(MacOf(cards[k]))
    {
      ValidNameIff(NameOf(cards[k], k));
      ValidMacIff(MacOf(cards[k]));
    }
    if Bindings(cards).Ok? {
      BoundFrom(cards, []);
      var bs := Bindings(cards).value;
      forall k | 0 <= k < |cards|
        ensures bs[k] == BindingOf(cards[k], k) && ValidName(NameOf(cards[k], k)) && (MacOf(cards[k]) == "" || ValidMac(MacOf(cards[k])))
      {
        assert Bind(cards[k], k, bs[..k]) == Ok(bs[k]);
      }
    }
    if Usable(cards) {
      var bs := seq(|cards|, k requires 0 <= k < |cards| => BindingOf(cards[k], k));
      forall k | 0 <= k < |cards|
        ensures Bind(cards[k], k, bs[..k]) == Ok(bs[k])
      {
        assert forall j :: 0 <= j < k ==> bs[..k][j] == BindingOf(cards[j], j);
      }
      BindFromIs(cards, bs, 0);
      assert bs[..0] == [];
    }
  }

  lemma {:induction false} BindFromIs(cards: seq<Interface>, bs: seq<Binding>, n: nat)
    requires |bs| == |cards| && n <= |cards| && forall k :: n <= k < |cards| ==> Bind(cards[k], k, bs[..k]) == Ok(bs[k])
    ensures BindFrom(cards, bs[..n]) == Ok(bs)
    decreases |cards| - n
  {
    hide Bind;
    if n < |cards| {
      assert bs[..n] + [bs[n]] == bs[..n + 1];
      BindFromIs(cards, bs, n + 1);
    } else {
      assert bs[..n] == bs;
    }
  }

  // --- what the installer's config receives ---------------------------------------------------

  const IFNAME := "ifname="
  const RULES := "/etc/udev/rules.d/79-harvester-bond-identity.rules"

  function Ifname(name: string, mac: string): string {
    IFNAME + name + ":" + mac
  }

  function Wanted(bs: seq<Binding>): seq<string> {
    if bs == [] then []
    else (if bs[0].mac.Some? then [Ifname(bs[0].name, bs[0].mac.value)] else []) + Wanted(bs[1..])
  }

  /** An existing `ifname=` that is malformed, or gives a selected name or card to another. */
  function TokenError(token: string, bs: seq<Binding>): Option<Error> {
    if !(IFNAME <= token) then None
    else
      var body := token[|IFNAME|..];
      match Colon(body)
      case None => Some(InvalidIfname)
      case Some(c) =>
        var name, mac := body[..c], Lower(body[c + 1..]);
        if (MacTaken(bs, mac) || SelectedName(bs, name)) && Ifname(name, mac) !in Wanted(bs) then Some(ConflictingIfname) else None
  }

  predicate SelectedName(bs: seq<Binding>, name: string) {
    exists j :: 0 <= j < |bs| && bs[j].mac.Some? && bs[j].name == name
  }

  function FirstError(tokens: seq<string>, bs: seq<Binding>): Option<Error> {
    if tokens == [] then None
    else if TokenError(tokens[0], bs).Some? then TokenError(tokens[0], bs)
    else FirstError(tokens[1..], bs)
  }

  predicate Present(tokens: seq<string>, token: string) {
    exists j :: 0 <= j < |tokens| && Lower(tokens[j]) == Lower(token)
  }

  function Added(current: seq<string>, wanted: seq<string>): (r: seq<string>)
    ensures current <= r
    decreases |wanted|
  {
    if wanted == [] then current
    else Added(if Present(current, wanted[0]) then current else current + [wanted[0]], wanted[1..])
  }

  function KernelTokens(cfg: Config, bs: seq<Binding>): seq<string> {
    var current := Words(cfg.kernelArgs);
    Added(if Wanted(bs) != [] && current == [] && !cfg.externalStorage then ["multipath=off"] else current, Wanted(bs))
  }

  /** A clause of a udev rule. */
  datatype Clause = Clause(key: string, op: string, value: string)

  function ClauseText(c: Clause): string {
    c.key + c.op + "\"" + c.value + "\""
  }

  /** The clauses of a line, separated by a comma and a space. */
  function LineParts(cs: seq<Clause>): seq<string>
    requires cs != []
  {
    if |cs| == 1 then [ClauseText(cs[0])]
    else LineParts(cs[..|cs| - 1]) + [" " + ClauseText(cs[|cs| - 1])]
  }

  const PERMANENT := "ATTR{bonding_slave/perm_hwaddr}"

  function RuleClauses(test: string, attribute: string, mac: string, name: string): (cs: seq<Clause>)
    ensures cs != []
  {
    [Clause("SUBSYSTEM", "==", "net"), Clause("ACTION", "==", "add"), Clause("DRIVERS", "==", "?*"),
     Clause("TEST", test, "bonding_slave"), Clause(attribute, "==", mac), Clause("ATTR{type}", "==", "1"), Clause("NAME", ":=", name)]
  }

  function RuleLine(test: string, attribute: string, mac: string, name: string): string {
    JoinWith(LineParts(RuleClauses(test, attribute, mac, name)), ',')
  }

  function Rules(bs: seq<Binding>): seq<string> {
    if bs == [] then []
    else
      (if bs[0].mac.None? then []
       else [RuleLine("!=", "ATTR{address}", bs[0].mac.value, bs[0].name),
             RuleLine("==", PERMANENT, bs[0].mac.value, bs[0].name)])
      + Rules(bs[1..])
  }

  function RuleFile(bs: seq<Binding>): File {
    File(RULES, JoinWith(Rules(bs), '\n') + "\n", "0644", "root:root")
  }

  function SamePath(files: seq<File>, path: string): seq<File> {
    if files == [] then []
    else (if files[0].path == path then [files[0]] else []) + SamePath(files[1..], path)
  }

  function Named(i: Interface, b: Binding): Interface {
    i.(name := b.name, hwAddr := if b.mac.Some? then b.mac.value else i.hwAddr)
  }

  function NamedAll(cards: seq<Interface>, bs: seq<Binding>): (r: seq<Interface>)
    requires |cards| == |bs|
    ensures |r| == |cards| && forall k :: 0 <= k < |cards| ==> r[k] == Named(cards[k], bs[k])
  {
    seq(|cards|, k requires 0 <= k < |cards| => Named(cards[k], bs[k]))
  }

  /** `installer_boot_identity` */
  function Identity(cfg: Config): Result<Config, Error> {
    match Bindings(cfg.interfaces)
    case Err(e) => Err(e)
    case Ok(bs) =>
      match FirstError(Words(cfg.kernelArgs), bs)
      case Some(e) => Err(e)
      case None =>
        var named := cfg.(interfaces := NamedAll(cfg.interfaces, bs));
        if Wanted(bs) == [] then Ok(named)
        else
          var out := named.(kernelArgs := JoinWith(KernelTokens(cfg, bs), ' '));
          var same := SamePath(cfg.files, RULES);
          if same == [] then Ok(out.(files := cfg.files + [RuleFile(bs)]))
          else if same == [RuleFile(bs)] then Ok(out)
          else Err(ConflictingRule)
  }

  // --- applying it twice ------------------------------------------------------------------------

  lemma {:induction false} NamedBinds(i: Interface, k: nat, before: seq<Binding>)
    requires Bind(i, k, before).Ok?
    ensures Bind(Named(i, Bind(i, k, before).value), k, before) == Bind(i, k, before)
    ensures Named(Named(i, Bind(i, k, before).value), Bind(i, k, before).value) == Named(i, Bind(i, k, before).value)
  {
    if MacOf(i) != "" {
      LowerMac(MacOf(i));
    }
  }

  /** The renamed cards have the same bindings. */
  lemma {:induction false} SameBindings(cards: seq<Interface>)
    requires Bindings(cards).Ok?
    ensures var bs := Bindings(cards).value;
      && Bindings(NamedAll(cards, bs)) == Ok(bs)
      && NamedAll(NamedAll(cards, bs), bs) == NamedAll(cards, bs)
  {
    var bs := Bindings(cards).value;
    var named := NamedAll(cards, bs);
    Bound(cards);
    forall k | 0 <= k < |cards|
      ensures Bind(named[k], k, bs[..k]) == Ok(bs[k]) && Named(named[k], bs[k]) == named[k]
    {
      NamedBinds(cards[k], k, bs[..k]);
    }
    assert bs[..0] == [];
    BindFromIs(named, bs, 0);
  }

  lemma {:induction false} IfnameParts(name: string, mac: string)
    requires ':' !in name
    ensures var t := Ifname(name, mac);
      && IFNAME <= t && t[|IFNAME|..] == name + ":" + mac && Colon(t[|IFNAME|..]) == Some(|name|)
      && t[|IFNAME|..][..|name|] == name && t[|IFNAME|..][|name| + 1..] == mac
  {
    var t := Ifname(name, mac);
    assert t == IFNAME + (name + ":" + mac);
    assert t[|IFNAME|..] == name + ":" + mac;
    ColonAfter(name, mac);
  }

  lemma {:induction false} WantedIs(bs: seq<Binding>, token: string)
    ensures token in Wanted(bs) <==> exists i :: 0 <= i < |bs| && bs[i].mac.Some? && token == Ifname(bs[i].name, bs[i].mac.value)
  {
    if bs == [] {
    } else {
      WantedIs(bs[1..], token);
      if i :| 0 <= i < |bs| && bs[i].mac.Some? && token == Ifname(bs[i].name, bs[i].mac.value) {
        if i > 0 {
          assert bs[1..][i - 1] == bs[i];
        }
      }
      if i :| 0 <= i < |bs| - 1 && bs[1..][i].mac.Some? && token == Ifname(bs[1..][i].name, bs[1..][i].mac.value) {
        assert bs[i + 1] == bs[1..][i];
      }
    }
  }

  lemma {:induction false} WantedIsFine(bs: seq<Binding>, token: string)
    requires OneToOne(bs) && token in Wanted(bs)
    ensures IsWord(token) && TokenError(token, bs).None?
  {
    WantedIs(bs, token);
    var i :| 0 <= i < |bs| && bs[i].mac.Some? && token == Ifname(bs[i].name, bs[i].mac.value);
    assert bs[i] in bs;
    IfnameParts(bs[i].name, bs[i].mac.value);
    NoSpaces(bs[i].name, bs[i].mac.value);
  }

  lemma {:induction false} NoSpaces(name: string, mac: string)
    requires ValidName(name) && ValidMac(mac)
    ensures IsWord(Ifname(name, mac)) && ':' !in name
  {
    forall c | c in mac
      ensures !IsSpace(c)
    {
      var j :| 0 <= j < |mac| && mac[j] == c;
    }
  }

  lemma {:induction false} AddedHolds(current: seq<string>, wanted: seq<string>)
    ensures forall t :: t in Added(current, wanted) ==> t in current || t in wanted
    ensures forall t :: t in wanted ==> Present(Added(current, wanted), t)
    decreases |wanted|
  {
    if wanted == [] {
    } else {
      var next := if Present(current, wanted[0]) then current else current + [wanted[0]];
      AddedHolds(next, wanted[1..]);
      if !Present(current, wanted[0]) {
        assert next[|current|] == wanted[0];
      }
      PresentStays(next, Added(next, wanted[1..]), wanted[0]);
    }
  }

  lemma {:induction false} PresentStays(a: seq<string>, b: seq<string>, t: string)
    requires a <= b && Present(a, t)
    ensures Present(b, t)
  {
    var j :| 0 <= j < |a| && Lower(a[j]) == Lower(t);
    assert b[j] == a[j];
  }

  lemma {:induction false} NothingAdded(current: seq<string>, wanted: seq<string>)
    requires forall t :: t in wanted ==> Present(current, t)
    ensures Added(current, wanted) == current
    decreases |wanted|
  {
    if wanted == [] {
    } else {
      assert wanted[0] in wanted && forall t :: t in wanted[1..] ==> t in wanted;
      NothingAdded(current, wanted[1..]);
    }
  }

  lemma {:induction false} NoErrorIff(tokens: seq<string>, bs: seq<Binding>)
    ensures FirstError(tokens, bs).None? <==> forall t :: t in tokens ==> TokenError(t, bs).None?
  {
    if tokens == [] {
    } else {
      NoErrorIff(tokens[1..], bs);
      assert forall t :: t in tokens <==> t == tokens[0] || t in tokens[1..];
    }
  }

  lemma {:induction false} MultipathIsFine(bs: seq<Binding>)
    ensures IsWord("multipath=off") && TokenError("multipath=off", bs).None?
  {
    var t := "multipath=off";
    assert t[0] != IFNAME[0];
  }

  /** The kernel arguments written are the words they were made of, raise nothing, and need nothing more. */
  lemma {:induction false} TokensSettle(cfg: Config, bs: seq<Binding>)
    requires OneToOne(bs) && Wanted(bs) != [] && FirstError(Words(cfg.kernelArgs), bs).None?
    ensures var tokens := KernelTokens(cfg, bs);
      && Words(JoinWith(tokens, ' ')) == tokens && tokens != [] && FirstError(tokens, bs).None?
      && Added(tokens, Wanted(bs)) == tokens
      && forall t :: t in Wanted(bs) ==> Present(tokens, t)
  {
    hide TokenError, Wanted;
    var current := Words(cfg.kernelArgs);
    var start := if current == [] && !cfg.externalStorage then ["multipath=off"] else current;
    var tokens := KernelTokens(cfg, bs);
    AddedHolds(start, Wanted(bs));
    NoErrorIff(current, bs);
    forall t | t in tokens
      ensures IsWord(t) && TokenError(t, bs).None?
    {
      if t in Wanted(bs) {
        WantedIsFine(bs, t);
      } else if t !in current {
        MultipathIsFine(bs);
      }
    }
    NoErrorIff(tokens, bs);
    WordsOfJoin(tokens);
    assert Wanted(bs)[0] in Wanted(bs);
    NothingAdded(tokens, Wanted(bs));
  }

  lemma {:induction false} SamePathAppend(files: seq<File>, f: File)
    ensures SamePath(files + [f], f.path) == SamePath(files, f.path) + [f]
  {
    if files == [] {
      assert files + [f] == [f] && [f][1..] == [];
    } else {
      assert (files + [f])[1..] == files[1..] + [f];
      SamePathAppend(files[1..], f);
    }
  }

  /** Applied to what it returned, it returns the same again. */
  lemma {:induction false} IdentityIdempotent(cfg: Config)
    requires Identity(cfg).Ok?
    ensures Identity(Identity(cfg).value) == Identity(cfg)
  {
    hide TokenError, Rules, Added, Words, JoinWith, SamePath, Bind, BindFrom;
    var bs, out := Bindings(cfg.interfaces).value, Identity(cfg).value;
    Bound(cfg.interfaces);
    SameBindings(cfg.interfaces);
    if Wanted(bs) != [] {
      TokensSettle(cfg, bs);
      SamePathAppend(cfg.files, RuleFile(bs));
      assert [] + [RuleFile(bs)] == [RuleFile(bs)];
    }
  }

  predicate HasAddress(cards: seq<Interface>) {
    exists k :: 0 <= k < |cards| && MacOf(cards[k]) != ""
  }

  lemma {:induction false} WantedIff(cards: seq<Interface>)
    requires Bindings(cards).Ok?
    ensures Wanted(Bindings(cards).value) != [] <==> HasAddress(cards)
  {
    hide Bind, BindFrom, OneToOne;
    var bs := Bindings(cards).value;
    Bound(cards);
    if Wanted(bs) != [] {
      WantedIs(bs, Wanted(bs)[0]);
      var i :| 0 <= i < |bs| && bs[i].mac.Some?;
      assert BoundTo(cards[i], i, bs[i]);
    }
    if k :| 0 <= k < |cards| && MacOf(cards[k]) != "" {
      assert BoundTo(cards[k], k, bs[k]);
      WantedIs(bs, Ifname(bs[k].name, bs[k].mac.value));
    }
  }

  lemma {:induction false} AddedAfter(current: seq<string>, wanted: seq<string>)
    ensures forall t :: t in Added(current, wanted)[|current|..] ==> t in wanted && !Present(current, t)
    decreases |wanted|
  {
    hide Present;
    if wanted == [] {
    } else {
      var next := if Present(current, wanted[0]) then current else current + [wanted[0]];
      var all := Added(next, wanted[1..]);
      AddedAfter(next, wanted[1..]);
      forall t | t in all[|current|..]
        ensures t in wanted && !Present(current, t)
      {
        if t in all[|next|..] {
          NotBefore(current, next, t);
        } else {
          assert all[|current|..] == all[|current|..|next|] + all[|next|..] && all[..|next|] == next;
          assert t == wanted[0] && !Present(current, wanted[0]);
        }
      }
    }
  }

  lemma {:induction false} NotBefore(a: seq<string>, b: seq<string>, t: string)
    requires a <= b && !Present(b, t)
    ensures !Present(a, t)
  {
    if Present(a, t) {
      PresentStays(a, b, t);
    }
  }

  /**
   * Nothing that was there moves or goes: kernel arguments, files, and all the
   * rest. What follows the arguments are `ifname=` that were not there; where
   * there was no argument at all, the installer's own default is kept before
   * them unless external storage is enabled.
   */
  lemma {:induction false} IdentityKeepsOrder(cfg: Config)
    requires Identity(cfg).Ok?
    ensures var out := Identity(cfg).value;
      && Words(cfg.kernelArgs) <= Words(out.kernelArgs) && cfg.files <= out.files
      && out.net == cfg.net && out.externalStorage == cfg.externalStorage && |out.interfaces| == |cfg.interfaces|
      && forall k :: 0 <= k < |cfg.interfaces| ==> out.interfaces[k].hw_addr == cfg.interfaces[k].hw_addr
    ensures !HasAddress(cfg.interfaces) ==> Identity(cfg).value.kernelArgs == cfg.kernelArgs && Identity(cfg).value.files == cfg.files
    ensures HasAddress(cfg.interfaces) ==>
      var given, words := Words(cfg.kernelArgs), Words(Identity(cfg).value.kernelArgs);
      var start := if given == [] && !cfg.externalStorage then ["multipath=off"] else given;
      && start <= words
      && forall t :: t in words[|start|..] ==> IFNAME <= t && !Present(start, t)
  {
    hide TokenError, Rules, RuleFile, Added, Words, JoinWith, SamePath, Bind, BindFrom, HasAddress, BoundTo, Present;
    var bs := Bindings(cfg.interfaces).value;
    Bound(cfg.interfaces);
    WantedIff(cfg.interfaces);
    if Wanted(bs) != [] {
      TokensSettle(cfg, bs);
      var given := Words(cfg.kernelArgs);
      var start := if given == [] && !cfg.externalStorage then ["multipath=off"] else given;
      AddedAfter(start, Wanted(bs));
      forall t | t in Wanted(bs)
        ensures IFNAME <= t
      {
        WantedIs(bs, t);
      }
    }
  }

  /** Every card gets the name it is bound by and keeps its address, in lower case. */
  lemma {:induction false} IdentityNames(cfg: Config)
    requires Identity(cfg).Ok?
    ensures forall k :: 0 <= k < |cfg.interfaces| ==>
      var i, o := cfg.interfaces[k], Identity(cfg).value.interfaces[k];
      && (if i.name != "" then o.name == i.name else "hvboot" <= o.name && Number(o.name[|"hvboot"|..]) == k)
      && o.hwAddr == if i.hwAddr != "" then Lower(i.hwAddr) else if i.hw_addr != "" then Lower(i.hw_addr) else ""
  {
    hide Rules, RuleFile, KernelTokens, Words, JoinWith, SamePath, Bind, BindFrom, Wanted, FirstError, OneToOne, Number;
    Bound(cfg.interfaces);
    forall k | 0 <= k < |cfg.interfaces|
      ensures BoundTo(cfg.interfaces[k], k, Bindings(cfg.interfaces).value[k])
    {
    }
  }

  /**
   * After it, an `ifname=` that names a selected card or gives its address is
   * the binding of that card; and every selected card has its own.
   */
  lemma {:induction false} IfnamesMatch(cfg: Config)
    requires Identity(cfg).Ok?
    ensures var bs, tokens := Bindings(cfg.interfaces).value, Words(Identity(cfg).value.kernelArgs);
      && (forall name, mac :: Ifname(name, mac) in tokens && ':' !in name && (SelectedName(bs, name) || MacTaken(bs, Lower(mac))) ==>
            exists i :: 0 <= i < |bs| && bs[i] == Binding(name, Some(Lower(mac))))
      && (forall i :: 0 <= i < |bs| && bs[i].mac.Some? ==> Present(tokens, Ifname(bs[i].name, bs[i].mac.value)))
  {
    hide Rules, RuleFile, Added, Words, JoinWith, SamePath, Bind, BindFrom;
    var bs, out := Bindings(cfg.interfaces).value, Identity(cfg).value;
    var tokens := Words(out.kernelArgs);
    Bound(cfg.interfaces);
    if Wanted(bs) != [] {
      TokensSettle(cfg, bs);
    }
    NoErrorIff(tokens, bs);
    forall name, mac | Ifname(name, mac) in tokens && ':' !in name && (SelectedName(bs, name) || MacTaken(bs, Lower(mac)))
      ensures exists i :: 0 <= i < |bs| && bs[i] == Binding(name, Some(Lower(mac)))
    {
      IfnameParts(name, mac);
      assert TokenError(Ifname(name, mac), bs).None?;
      assert Ifname(name, Lower(mac)) in Wanted(bs);
      BoundBy(bs, name, Lower(mac));
    }
    forall i | 0 <= i < |bs| && bs[i].mac.Some?
      ensures Present(tokens, Ifname(bs[i].name, bs[i].mac.value))
    {
      WantedIs(bs, Ifname(bs[i].name, bs[i].mac.value));
    }
  }

  lemma {:induction false} BoundBy(bs: seq<Binding>, name: string, mac: string)
    requires OneToOne(bs) && ':' !in name && Ifname(name, mac) in Wanted(bs)
    ensures exists i :: 0 <= i < |bs| && bs[i] == Binding(name, Some(mac))
  {
    WantedIs(bs, Ifname(name, mac));
    var i :| 0 <= i < |bs| && bs[i].mac.Some? && Ifname(name, mac) == Ifname(bs[i].name, bs[i].mac.value);
    assert bs[i] in bs;
    NoSpaces(bs[i].name, bs[i].mac.value);
    IfnameParts(name, mac);
    IfnameParts(bs[i].name, bs[i].mac.value);
    assert bs[i] == Binding(name, Some(mac));
  }

  /** An `ifname=` without an address, or that gives a selected name or address to another. */
  ghost predicate Clashes(token: string, bs: seq<Binding>) {
    || (exists body :: token == IFNAME + body && ':' !in body)
    || exists name, mac :: token == Ifname(name, mac) && ':' !in name && Binding(name, Some(Lower(mac))) !in bs
         && exists b :: b in bs && b.mac.Some? && (b.name == name || b.mac == Some(Lower(mac)))
  }

  lemma {:induction false} NoColon(s: string)
    ensures Colon(s).None? <==> ':' !in s
    ensures Colon(s).Some? ==> Colon(s).value < |s| && s[Colon(s).value] == ':' && ':' !in s[..Colon(s).value]
  {
    if s == "" {
    } else {
      NoColon(s[1..]);
      assert s == [s[0]] + s[1..];
      if s[0] != ':' && Colon(s[1..]).Some? {
        var c := Colon(s[1..]).value;
        assert s[..c + 1] == [s[0]] + s[1..][..c];
      }
    }
  }

  lemma {:induction false} Selects(bs: seq<Binding>, name: string, mac: string)
    ensures MacTaken(bs, mac) || SelectedName(bs, name) <==> exists b :: b in bs && b.mac.Some? && (b.name == name || b.mac == Some(mac))
  {
    if b :| b in bs && b.mac.Some? && (b.name == name || b.mac == Some(mac)) {
      var j :| 0 <= j < |bs| && bs[j] == b;
    }
    if MacTaken(bs, mac) {
      var j :| 0 <= j < |bs| && bs[j].mac == Some(mac);
      assert bs[j] in bs;
    }
    if SelectedName(bs, name) {
      var j :| 0 <= j < |bs| && bs[j].mac.Some? && bs[j].name == name;
      assert bs[j] in bs;
    }
  }

  lemma {:induction false} WantedBinding(bs: seq<Binding>, name: string, mac: string)
    requires OneToOne(bs) && ':' !in name
    ensures Ifname(name, mac) in Wanted(bs) <==> Binding(name, Some(mac)) in bs
  {
    WantedIs(bs, Ifname(name, mac));
    if Ifname(name, mac) in Wanted(bs) {
      BoundBy(bs, name, mac);
    }
    if Binding(name, Some(mac)) in bs {
      var i :| 0 <= i < |bs| && bs[i] == Binding(name, Some(mac));
    }
  }

  lemma {:induction false} NamedError(name: string, mac: string, bs: seq<Binding>)
    requires OneToOne(bs) && ':' !in name
    ensures TokenError(Ifname(name, mac), bs).Some? <==>
      Binding(name, Some(Lower(mac))) !in bs && exists b :: b in bs && b.mac.Some? && (b.name == name || b.mac == Some(Lower(mac)))
  {
    hide Wanted, MacTaken, SelectedName, Ifname, OneToOne, Lower;
    IfnameParts(name, mac);
    WantedBinding(bs, name, Lower(mac));
    Selects(bs, name, Lower(mac));
  }

  lemma {:induction false} SameIfname(name: string, mac: string, name': string, mac': string)
    requires ':' !in name && ':' !in name' && Ifname(name, mac) == Ifname(name', mac')
    ensures name == name' && mac == mac'
  {
    IfnameParts(name, mac);
    IfnameParts(name', mac');
  }

  lemma {:induction false} BodyOf(token: string)
    requires IFNAME <= token
    ensures token == IFNAME + token[|IFNAME|..]
  {
  }

  lemma {:induction false} NameBefore(body: string, c: nat)
    requires c < |body| && body[c] == ':'
    ensures IFNAME + body == Ifname(body[..c], body[c + 1..])
  {
    assert body == body[..c] + ":" + body[c + 1..];
  }

  lemma {:induction false} TokenErrorIff(token: string, bs: seq<Binding>)
    requires OneToOne(bs)
    ensures TokenError(token, bs).Some? <==> Clashes(token, bs)
  {
    hide Wanted, MacTaken, SelectedName, Ifname, OneToOne, Lower, IFNAME;
    if !(IFNAME <= token) {
      forall name, mac
        ensures token != Ifname(name, mac)
      {
        NotPrefixed(token, name, mac);
      }
    } else {
      var body := token[|IFNAME|..];
      BodyOf(token);
      NoColon(body);
      if Colon(body).Some? {
        var c := Colon(body).value;
        var name, mac := body[..c], body[c + 1..];
        NameBefore(body, c);
        NamedError(name, mac, bs);
        OneReading(token, body, name, mac);
      }
    }
  }

  lemma {:induction false} NotPrefixed(token: string, name: string, mac: string)
    requires !(IFNAME <= token)
    ensures token != Ifname(name, mac) && forall body: string :: token != IFNAME + body
  {
    assert Ifname(name, mac) == IFNAME + (name + ":" + mac);
    forall body: string
      ensures IFNAME <= IFNAME + body
    {
    }
  }

  lemma {:induction false} OneReading(token: string, body: string, name: string, mac: string)
    requires token == IFNAME + body == Ifname(name, mac) && ':' !in name && ':' in body
    ensures forall b: string :: token == IFNAME + b ==> b == body
    ensures forall n, m :: ':' !in n && token == Ifname(n, m) ==> n == name && m == mac
  {
    forall b: string | token == IFNAME + b
      ensures b == body
    {
      assert (IFNAME + b)[|IFNAME|..] == b && (IFNAME + body)[|IFNAME|..] == body;
    }
    forall n, m | ':' !in n && token == Ifname(n, m)
      ensures n == name && m == mac
    {
      SameIfname(n, m, name, mac);
    }
  }

  /** No file has the path, or one alone does and it is this one. */
  ghost predicate RoomFor(files: seq<File>, f: File) {
    || (forall g :: g in files ==> g.path != f.path)
    || exists i :: 0 <= i < |files| && files[i] == f && forall j :: 0 <= j < |files| && j != i ==> files[j].path != f.path
  }

  lemma {:induction false} SamePathNone(files: seq<File>, path: string)
    ensures SamePath(files, path) == [] <==> forall g :: g in files ==> g.path != path
  {
    if files == [] {
    } else {
      SamePathNone(files[1..], path);
      assert forall g :: g in files <==> g == files[0] || g in files[1..];
    }
  }

  lemma {:induction false} SamePathIff(files: seq<File>, f: File)
    ensures SamePath(files, f.path) == [] || SamePath(files, f.path) == [f] <==> RoomFor(files, f)
  {
    SamePathNone(files, f.path);
    if files == [] {
    } else {
      var rest := files[1..];
      SamePathNone(rest, f.path);
      if files[0].path == f.path {
        var same := SamePath(files, f.path);
        assert same == [files[0]] + SamePath(rest, f.path) && same[0] == files[0] && same[1..] == SamePath(rest, f.path);
        assert files[0] in files;
        if SamePath(files, f.path) == [f] {
          assert same[0] == f && same[1..] == [];
          forall j | 0 < j < |files|
            ensures files[j].path != f.path
          {
            assert files[j] == rest[j - 1] && rest[j - 1] in rest;
          }
        }
        if RoomFor(files, f) {
          var i :| 0 <= i < |files| && files[i] == f && forall j :: 0 <= j < |files| && j != i ==> files[j].path != f.path;
          assert i == 0;
          assert forall g :: g in rest ==> g.path != f.path by {
            forall g | g in rest
              ensures g.path != f.path
            {
              var j :| 0 <= j < |rest| && rest[j] == g;
              assert files[j + 1] == g;
            }
          }
        }
      } else {
        SamePathIff(rest, f);
        assert SamePath(files, f.path) == SamePath(rest, f.path);
        RoomInRest(files, f);
      }
    }
  }

  lemma {:induction false} RoomInRest(files: seq<File>, f: File)
    requires files != [] && files[0].path != f.path
    ensures RoomFor(files, f) <==> RoomFor(files[1..], f)
  {
    var rest := files[1..];
    assert forall g :: g in files <==> g == files[0] || g in rest;
    if i :| 0 <= i < |files| && files[i] == f && forall j :: 0 <= j < |files| && j != i ==> files[j].path != f.path {
      assert i > 0 && rest[i - 1] == f;
      assert forall j :: 0 <= j < |rest| && j != i - 1 ==> rest[j] == files[j + 1];
    }
    if i :| 0 <= i < |rest| && rest[i] == f && forall j :: 0 <= j < |rest| && j != i ==> rest[j].path != f.path {
      assert files[i + 1] == f;
      assert forall j :: 0 < j < |files| ==> files[j] == rest[j - 1];
    }
  }

  /**
   * It is refused exactly for cards that cannot be bound, an `ifname=` that
   * clashes with them, or a rule file that is there and is another.
   */
  lemma {:induction false} IdentityIff(cfg: Config)
    ensures Identity(cfg).Ok? <==>
      && Bindings(cfg.interfaces).Ok? && (forall t :: t in Words(cfg.kernelArgs) ==> !Clashes(t, Bindings(cfg.interfaces).value))
      && (HasAddress(cfg.interfaces) ==> RoomFor(cfg.files, RuleFile(Bindings(cfg.interfaces).value)))
  {
    hide TokenError, Rules, Added, Words, JoinWith, SamePath, Bind, BindFrom, HasAddress, Clashes, RoomFor, BoundTo, OneToOne;
    if Bindings(cfg.interfaces).Ok? {
      var bs := Bindings(cfg.interfaces).value;
      Bound(cfg.interfaces);
      WantedIff(cfg.interfaces);
      NoErrorIff(Words(cfg.kernelArgs), bs);
      SamePathIff(cfg.files, RuleFile(bs));
      forall t | t in Words(cfg.kernelArgs)
        ensures TokenError(t, bs).Some? <==> Clashes(t, bs)
      {
        TokenErrorIff(t, bs);
      }
    }
  }

  // --- the kernel arguments of the first boot ---------------------------------------------------

  const MANAGED_ARGS := {"ip", "ifname", "bond", "vlan", "bootdev", "BOOTIF", "nameserver",
                         "rd.neednet", "rd.bootif", "rd.route", "net.ifnames", "biosdevname"}

  /** IPv4 parsing, left to the language's own library. */
  datatype Addresses = Addresses(
    parse: string -> Option<string>, netmask: (string, string) -> Option<string>, inside: (string, string, string) -> bool)

  function BeforeEquals(token: string): string {
    if token == "" || token[0] == '=' then "" else [token[0]] + BeforeEquals(token[1..])
  }

  predicate Competes(token: string) {
    BeforeEquals(token) in MANAGED_ARGS
  }

  function Lookup(pairs: seq<(string, string)>, key: string): Option<string> {
    if pairs == [] then None else if pairs[0].0 == key then Some(pairs[0].1) else Lookup(pairs[1..], key)
  }

  function Keys(pairs: seq<(string, string)>): seq<string> {
    if pairs == [] then [] else [pairs[0].0] + Keys(pairs[1..])
  }

  /** The bond options, with a mode and a monitoring interval if the config gives none. */
  function Options(bond: seq<(string, string)>): seq<(string, string)> {
    var moded := if Lookup(bond, "mode").None? then bond + [("mode", "active-backup")] else bond;
    if Lookup(moded, "miimon").None? then moded + [("miimon", "100")] else moded
  }

  predicate OptionChar(c: char) {
    'a' <= c <= 'z' || 'A' <= c <= 'Z' || '0' <= c <= '9' || c == '_'
  }

  function Rendered(keys: seq<string>, pairs: seq<(string, string)>): Option<seq<string>> {
    if keys == [] then Some([])
    else
      var key, found := keys[0], Lookup(pairs, keys[0]);
      var value := if found.None? then "" else found.value;
      if key == "" || value == "" || (exists c :: c in key && !OptionChar(c)) || (exists c :: c in value && !OptionChar(c) && c !in ".+-")
      then None
      else match Rendered(keys[1..], pairs) case None => None case Some(rest) => Some([key + "=" + value] + rest)
  }

  function SlaveNames(bs: seq<Binding>): seq<string> {
    if bs == [] then [] else [bs[0].name] + SlaveNames(bs[1..])
  }

  predicate ValidHostname(h: string) {
    h == "" || (|h| <= 253 && forall c :: c in h ==> 'a' <= c <= 'z' || '0' <= c <= '9' || c == '.' || c == '-')
  }

  function Device(vlan: int): string
    requires vlan >= 0
  {
    if vlan == 0 then "hvbond0" else "hvbond0." + Decimal(vlan)
  }

  function Arg(key: string, value: string): string {
    key + "=" + value
  }

  function IpValue(net: Net, device: string, a: Addresses): Result<string, Error> {
    match net.ipMethod
    case Dhcp => Ok(JoinWith([device, "dhcp"], ':'))
    case OtherMethod => Err(UnsupportedMethod)
    case Static(ip, gateway, mask) =>
      var i, g := a.parse(ip), a.parse(gateway);
      if i.None? || g.None? then Err(InvalidAddress)
      else
        var m := a.netmask(i.value, mask);
        if m.None? || !a.inside(g.value, i.value, m.value) then Err(InvalidAddress)
        else if !ValidHostname(net.hostname) then Err(InvalidHostname)
        else Ok(JoinWith([i.value, "", g.value, m.value, net.hostname, device, "none"], ':'))
  }

  function DnsTokens(dns: seq<string>, a: Addresses): Result<seq<string>, Error> {
    if dns == [] then Ok([])
    else
      match a.parse(dns[0])
      case None => Err(InvalidAddress)
      case Some(d) => match DnsTokens(dns[1..], a) case Err(e) => Err(e) case Ok(rest) => Ok([Arg("nameserver", d)] + rest)
  }

  function BondValue(bs: seq<Binding>, rendered: seq<string>, mtu: Option<int>): string
    requires mtu.Some? ==> mtu.value >= 0
  {
    JoinWith(["hvbond0", JoinWith(SlaveNames(bs), ','), JoinWith(rendered, ',')] + (if mtu.Some? then [Decimal(mtu.value)] else []), ':')
  }

  /** The arguments of `boot_network_args`, one by one. */
  function BootTokens(cfg: Config, a: Addresses): Result<seq<string>, Error> {
    match Bindings(cfg.interfaces)
    case Err(e) => Err(e)
    case Ok(bs) =>
      var net := cfg.net;
      match Rendered(Sorted(Keys(Options(net.bond))), Options(net.bond))
      case None => Err(UnsupportedOption)
      case Some(rendered) =>
        if net.mtu.Some? && !(576 <= net.mtu.value <= 9000) then Err(InvalidMtu)
        else if !(0 <= net.vlan <= 4094) then Err(InvalidVlan)
        else
          var device := Device(net.vlan);
          match IpValue(net, device, a)
          case Err(e) => Err(e)
          case Ok(ip) =>
            match DnsTokens(net.dns, a)
            case Err(e) => Err(e)
            case Ok(dns) =>
              Ok([Arg("rd.neednet", "1"), Arg("rd.bootif", "0")] + Wanted(bs) + [Arg("bond", BondValue(bs, rendered, net.mtu))]
                 + (if net.vlan == 0 then [] else [Arg("vlan", device + ":hvbond0")]) + [Arg("ip", ip), Arg("bootdev", device)] + dns)
  }

  /** `boot_network_args` */
  function BootArgs(cfg: Config, extra: string, a: Addresses): Result<string, Error> {
    if exists t :: t in Words(extra) && Competes(t) then Err(ConflictingArgument)
    else match BootTokens(cfg, a) case Err(e) => Err(e) case Ok(tokens) => Ok(JoinWith(tokens, ' '))
  }

  /** The first boot gets the same arguments from the config as given and as prepared for the installer. */
  lemma {:induction false} SameBootArgs(cfg: Config, extra: string, a: Addresses)
    requires Identity(cfg).Ok?
    ensures BootArgs(Identity(cfg).value, extra, a) == BootArgs(cfg, extra, a)
  {
    hide Rules, Added, Words, JoinWith, SamePath, Bind, BindFrom, Rendered, IpValue, DnsTokens, BondValue;
    hide FirstError, Wanted, KernelTokens, Options, Keys, Sorted, SlaveNames, Decimal;
    Bound(cfg.interfaces);
    SameBindings(cfg.interfaces);
  }

  function Ifnames(tokens: seq<string>): seq<string> {
    if tokens == [] then []
    else (if IFNAME <= tokens[0] then [tokens[0]] else []) + Ifnames(tokens[1..])
  }

  lemma {:induction false} IfnamesAppend(a: seq<string>, b: seq<string>)
    ensures Ifnames(a + b) == Ifnames(a) + Ifnames(b)
    decreases |a|
  {
    if a == [] {
      assert a + b == b;
    } else {
      assert (a + b)[1..] == a[1..] + b;
      IfnamesAppend(a[1..], b);
    }
  }

  lemma {:induction false} AllIfnames(bs: seq<Binding>)
    requires OneToOne(bs)
    ensures Ifnames(Wanted(bs)) == Wanted(bs)
  {
    if bs == [] {
    } else {
      assert bs[0] in bs && forall b :: b in bs[1..] ==> b in bs;
      AllIfnames(bs[1..]);
      if bs[0].mac.Some? {
        NoSpaces(bs[0].name, bs[0].mac.value);
        IfnameParts(bs[0].name, bs[0].mac.value);
        IfnamesAppend([Ifname(bs[0].name, bs[0].mac.value)], Wanted(bs[1..]));
        OneIfname(Ifname(bs[0].name, bs[0].mac.value));
      } else {
        assert [] + Wanted(bs[1..]) == Wanted(bs[1..]);
      }
    }
  }

  lemma {:induction false} OneIfname(token: string)
    ensures Ifnames([token]) == if IFNAME <= token then [token] else []
  {
    assert [token][1..] == [];
  }

  lemma {:induction false} NotIfname(token: string)
    requires |token| >= 2 && (token[0] != 'i' || token[1] != 'f')
    ensures !(IFNAME <= token)
  {
    assert IFNAME[0] == 'i' && IFNAME[1] == 'f';
  }

  lemma {:induction false} DnsNoIfnames(dns: seq<string>, a: Addresses)
    requires DnsTokens(dns, a).Ok?
    ensures Ifnames(DnsTokens(dns, a).value) == []
  {
    if dns == [] {
    } else {
      DnsNoIfnames(dns[1..], a);
      var first := Arg("nameserver", a.parse(dns[0]).value);
      assert first[0] == 'n';
      NotIfname(first);
      IfnamesAppend([first], DnsTokens(dns[1..], a).value);
      OneIfname(first);
    }
  }

  lemma {:induction false} FirstLetters(bond: string, vlan: string, ip: string, bootdev: string)
    ensures Ifnames([Arg("rd.neednet", "1"), Arg("rd.bootif", "0")]) == [] && Ifnames([Arg("bond", bond)]) == []
    ensures Ifnames([Arg("vlan", vlan)]) == [] && Ifnames([Arg("ip", ip), Arg("bootdev", bootdev)]) == [] && Ifnames([]) == []
  {
    NotIfname(Arg("rd.neednet", "1"));
    NotIfname(Arg("rd.bootif", "0"));
    NotIfname(Arg("bond", bond));
    NotIfname(Arg("vlan", vlan));
    NotIfname(Arg("ip", ip));
    NotIfname(Arg("bootdev", bootdev));
    hide Arg;
    var t0, t1, t2, t3 := Arg("rd.neednet", "1"), Arg("rd.bootif", "0"), Arg("ip", ip), Arg("bootdev", bootdev);
    assert [t0, t1][1..] == [t1] && [t1][1..] == [] && [t2, t3][1..] == [t3] && [t3][1..] == [];
    OneIfname(Arg("bond", bond));
    OneIfname(Arg("vlan", vlan));
  }

  /** The cards that the first boot names are exactly the bound ones, each by its own address, in order. */
  lemma {:induction false} BootNamesTheBoundCards(cfg: Config, a: Addresses)
    requires BootTokens(cfg, a).Ok?
    ensures Ifnames(BootTokens(cfg, a).value) == Wanted(Bindings(cfg.interfaces).value)
    ensures OneToOne(Bindings(cfg.interfaces).value)
  {
    hide Ifnames, Wanted, Bind, BindFrom, Rendered, BondValue, IFNAME, Arg;
    var bs, net := Bindings(cfg.interfaces).value, cfg.net;
    Bound(cfg.interfaces);
    AllIfnames(bs);
    var rendered := Rendered(Sorted(Keys(Options(net.bond))), Options(net.bond)).value;
    var bond, device := BondValue(bs, rendered, net.mtu), Device(net.vlan);
    var ip, dns := IpValue(net, device, a).value, DnsTokens(net.dns, a).value;
    var vlans := if net.vlan == 0 then [] else [Arg("vlan", device + ":hvbond0")];
    DnsNoIfnames(net.dns, a);
    FirstLetters(bond, device + ":hvbond0", ip, device);
    var t0, t1, t2 := [Arg("rd.neednet", "1"), Arg("rd.bootif", "0")], Wanted(bs), [Arg("bond", bond)];
    var t3 := [Arg("ip", ip), Arg("bootdev", device)];
    IfnamesAppend(t0, t1);
    IfnamesAppend(t0 + t1, t2);
    IfnamesAppend(t0 + t1 + t2, vlans);
    IfnamesAppend(t0 + t1 + t2 + vlans, t3);
    IfnamesAppend(t0 + t1 + t2 + vlans + t3, dns);
    assert [] + Wanted(bs) + [] + [] + [] + [] == Wanted(bs);
  }

  // --- the loops of installer_boot_identity ------------------------------------------------------

  method InstallerBootIdentity(cfg: Config) returns (r: Result<Config, Error>)
    ensures r == Identity(cfg)
  {
    var bound := BootInterfaceBindings(cfg.interfaces);
    if bound.Err? {
      return Err(bound.error);
    }
    var bs := bound.value;
    var current, wanted := Words(cfg.kernelArgs), Wanted(bs);
    ghost var words := current;
    assert words[0..] == words;
    for n := 0 to |current|
      invariant current == words && FirstError(words[n..], bs) == FirstError(words, bs)
    {
      assert words[n..][0] == words[n] && words[n..][1..] == words[n + 1..];
      var e := TokenError(current[n], bs);
      if e.Some? {
        return Err(e.value);
      }
    }
    var interfaces := NamedAll(cfg.interfaces, bs);
    if wanted == [] {
      return Ok(cfg.(interfaces := interfaces));
    }
    if current == [] && !cfg.externalStorage {
      current := ["multipath=off"];
    }
    ghost var start := current;
    assert wanted[0..] == wanted;
    for n := 0 to |wanted|
      invariant Added(current, wanted[n..]) == Added(start, wanted)
    {
      assert wanted[n..][0] == wanted[n] && wanted[n..][1..] == wanted[n + 1..];
      if !Present(current, wanted[n]) {
        current := current + [wanted[n]];
      }
    }
    var out := cfg.(interfaces := interfaces, kernelArgs := JoinWith(current, ' '));
    var same := SamePath(cfg.files, RULES);
    if same == [] {
      return Ok(out.(files := cfg.files + [RuleFile(bs)]));
    }
    return if same == [RuleFile(bs)] then Ok(out) else Err(ConflictingRule);
  }
}
