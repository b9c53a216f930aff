/**
 * What the kernel arguments of the first boot mean (dracut.cmdline(7)): the
 * text split into arguments, each into its key and value, and the values that
 * have fields into these. Read this way they give the network of the config.
 */
module FirstBoot {
  import opened BootNetwork
  import opened Names
  import opened Text
  import opened Wrappers

  /** The values given for a key, in order. */
  function Values(tokens: seq<string>, key: string): seq<string> {
    if tokens == [] then []
    else (if BeforeEquals(tokens[0]) == key && |key| < |tokens[0]| then [tokens[0][|key| + 1..]] else []) + Values(tokens[1..], key)
  }

  lemma {:induction false} KeyIs(key: string, value: string)
    requires '=' !in key
    ensures BeforeEquals(Arg(key, value)) == key && Arg(key, value)[|key| + 1..] == value
  {
    if key == "" {
      assert Arg(key, value) == "=" + value;
    } else {
      assert Arg(key, value) == [key[0]] + Arg(key[1..], value) && Arg(key, value)[1..] == Arg(key[1..], value);
      KeyIs(key[1..], value);
    }
  }

  lemma {:induction false} ValuesAppend(a: seq<string>, b: seq<string>, key: string)
    ensures Values(a + b, key) == Values(a, key) + Values(b, key)
    decreases |a|
  {
    hide BeforeEquals;
    if a == [] {
      assert a + b == b;
    } else {
      assert (a + b)[1..] == a[1..] + b;
      ValuesAppend(a[1..], b, key);
    }
  }

  /** The value for `key` in one argument. */
  lemma {:induction false} OneValue(k: string, v: string, key: string)
    requires '=' !in k
    ensures Values([Arg(k, v)], key) == if k == key then [v] else []
  {
    hide BeforeEquals, Arg;
    KeyIs(k, v);
    LongerThanKey(k, v);
    assert [Arg(k, v)][1..] == [];
  }

  lemma {:induction false} LongerThanKey(k: string, v: string)
    ensures |k| < |Arg(k, v)|
  {
  }

  function Known(): set<string> {
    {"ip", "ifname", "bond", "vlan", "bootdev", "nameserver", "rd.neednet", "rd.bootif"}
  }

  /** Arguments that would name cards or routes otherwise. */
  function Rivals(): set<string> {
    {"BOOTIF", "rd.route", "net.ifnames", "biosdevname"}
  }

  predicate Clear(s: string) {
    ':' !in s && ',' !in s && '=' !in s && forall c :: c in s ==> !IsSpace(c)
  }

  /** The language's own library writes addresses and masks in digits and dots. */
  ghost predicate Dotted(a: Addresses) {
    && (forall s :: a.parse(s).Some? ==> Clear(a.parse(s).value))
    && forall s, m :: a.netmask(s, m).Some? ==> Clear(a.netmask(s, m).value)
  }

  // --- the options of the bond -----------------------------------------------------------

  /** The value of an option: the one of the config, else the default of the two that have one. */
  function Chosen(bond: seq<(string, string)>, key: string): Option<string> {
    if Lookup(bond, key).Some? then Lookup(bond, key)
    else if key == "mode" then Some("active-backup")
    else if key == "miimon" then Some("100")
    else None
  }

  ghost predicate OptionText(key: string, value: string) {
    && key != "" && value != "" && (forall c :: c in key ==> Letter(c) || Digit(c) || c == '_')
    && forall c :: c in value ==> Letter(c) || Digit(c) || c in "_.+-"
  }

  lemma {:induction false} LookupAppend(pairs: seq<(string, string)>, k: string, v: string, key: string)
    ensures Lookup(pairs + [(k, v)], key) == if Lookup(pairs, key).Some? then Lookup(pairs, key) else if k == key then Some(v) else None
  {
    if pairs == [] {
      assert pairs + [(k, v)] == [(k, v)] && [(k, v)][1..] == [];
    } else {
      assert (pairs + [(k, v)])[1..] == pairs[1..] + [(k, v)] && (pairs + [(k, v)])[0] == pairs[0];
      LookupAppend(pairs[1..], k, v, key);
    }
  }

  lemma {:induction false} OptionsChosen(bond: seq<(string, string)>, key: string)
    ensures Lookup(Options(bond), key) == Chosen(bond, key)
  {
    hide Lookup;
    var moded := if Lookup(bond, "mode").None? then bond + [("mode", "active-backup")] else bond;
    LookupAppend(bond, "mode", "active-backup", key);
    LookupAppend(bond, "mode", "active-backup", "miimon");
    LookupAppend(moded, "miimon", "100", key);
  }

  lemma {:induction false} KeysLookup(pairs: seq<(string, string)>)
    ensures forall k :: k in Keys(pairs) <==> Lookup(pairs, k).Some?
  {
    if pairs != [] {
      KeysLookup(pairs[1..]);
      assert forall k :: k in Keys(pairs) <==> k == pairs[0].0 || k in Keys(pairs[1..]);
    }
  }

  ghost predicate Renderable(key: string, pairs: seq<(string, string)>) {
    Lookup(pairs, key).Some? && OptionText(key, Lookup(pairs, key).value)
  }

  lemma {:induction false} OneRendered(key: string, pairs: seq<(string, string)>)
    requires Lookup(pairs, key).Some?
    ensures var value := Lookup(pairs, key).value;
      key == "" || value == "" || (exists c :: c in key && !OptionChar(c)) || (exists c :: c in value && !OptionChar(c) && c !in ".+-")
      <==> !Renderable(key, pairs)
  {
    hide Letter, Digit, OptionChar, Lookup;
    forall c: char
      ensures OptionChar(c) <==> Letter(c) || Digit(c) || c == '_'
      ensures c in "_.+-" <==> c == '_' || c == '.' || c == '+' || c == '-'
      ensures c in ".+-" <==> c == '.' || c == '+' || c == '-'
    {
      OptionCharIff(c);
    }
  }

  lemma {:induction false} OptionCharIff(c: char)
    ensures OptionChar(c) <==> Letter(c) || Digit(c) || c == '_'
    ensures c in "_.+-" <==> c == '_' || c == '.' || c == '+' || c == '-'
    ensures c in ".+-" <==> c == '.' || c == '+' || c == '-'
  {
  }

  lemma {:induction false} RenderedIff(keys: seq<string>, pairs: seq<(string, string)>)
    requires forall k :: k in keys ==> Lookup(pairs, k).Some?
    ensures Rendered(keys, pairs).Some? <==> forall k :: k in keys ==> Renderable(k, pairs)
    ensures Rendered(keys, pairs).Some? ==>
      var r := Rendered(keys, pairs).value;
      |r| == |keys| && forall j :: 0 <= j < |keys| ==> r[j] == Arg(keys[j], Lookup(pairs, keys[j]).value)
  {
    hide Lookup, OptionChar, Renderable, Arg;
    if keys == [] {
    } else {
      assert keys[0] in keys && forall k :: k in keys <==> k == keys[0] || k in keys[1..];
      RenderedIff(keys[1..], pairs);
      OneRendered(keys[0], pairs);
      ArgIs(keys[0], Lookup(pairs, keys[0]).value);
    }
  }

  lemma {:induction false} ArgIs(key: string, value: string)
    ensures Arg(key, value) == key + "=" + value
  {
  }

  /** Every option of the bond can be written. */
  ghost predicate Writable(bond: seq<(string, string)>) {
    forall k :: Chosen(bond, k).Some? ==> OptionText(k, Chosen(bond, k).value)
  }

  function Spelled(bond: seq<(string, string)>): Option<seq<string>> {
    Rendered(Sorted(Keys(Options(bond))), Options(bond))
  }

  lemma {:induction false} SpelledIff(bond: seq<(string, string)>)
    ensures Spelled(bond).Some? <==> Writable(bond)
    ensures Spelled(bond).Some? ==>
      var keys, r := Sorted(Keys(Options(bond))), Spelled(bond).value;
      && Ascending(keys) && |r| == |keys| && keys != []
      && (forall k :: k in keys <==> Chosen(bond, k).Some?)
      && forall j :: 0 <= j < |r| ==> Chosen(bond, keys[j]).Some? && r[j] == Arg(keys[j], Chosen(bond, keys[j]).value)
  {
    hide Lookup, OptionText, Rendered, Sorted, Options, Keys, Arg;
    var pairs := Options(bond);
    var keys := Sorted(Keys(pairs));
    SortedHolds(Keys(pairs));
    KeysLookup(pairs);
    forall k
      ensures Lookup(pairs, k) == Chosen(bond, k)
    {
      OptionsChosen(bond, k);
    }
    RenderedIff(keys, pairs);
    assert Chosen(bond, "mode").Some?;
  }

  lemma {:induction false} OptionTextClear(key: string, value: string)
    requires OptionText(key, value)
    ensures Clear(key) && Clear(value)
  {
  }

  /** A pair `key=value` split at the sign. */
  lemma {:induction false} PairReads(key: string, value: string)
    requires Clear(key) && Clear(value)
    ensures SplitOn(Arg(key, value), '=') == [key, value]
    ensures ':' !in Arg(key, value) && ',' !in Arg(key, value) && forall c :: c in Arg(key, value) ==> !IsSpace(c)
  {
    assert JoinWith([key, value], '=') == Arg(key, value) by {
      assert [key, value][1..] == [value];
    }
    SplitJoin([key, value], '=');
    assert forall c :: c in Arg(key, value) ==> c in key || c == '=' || c in value;
  }

  /** The options as read: pairs in the order of their keys, each option once with its value, and no other. */
  ghost predicate OptionsRead(text: string, bond: seq<(string, string)>) {
    var parts := SplitOn(text, ',');
    && (forall j :: 0 <= j < |parts| ==> OptionRead(parts[j], bond))
    && (forall i, j :: 0 <= i < j < |parts| ==> Less(SplitOn(parts[i], '=')[0], SplitOn(parts[j], '=')[0]))
    && forall k :: Chosen(bond, k).Some? ==> exists j :: 0 <= j < |parts| && SplitOn(parts[j], '=')[0] == k
  }

  ghost predicate OptionRead(part: string, bond: seq<(string, string)>) {
    var pair := SplitOn(part, '=');
    |pair| == 2 && Chosen(bond, pair[0]) == Some(pair[1])
  }

  lemma {:induction false} OptionsAreRead(bond: seq<(string, string)>)
    requires Spelled(bond).Some?
    ensures var text := JoinWith(Spelled(bond).value, ',');
      OptionsRead(text, bond) && ':' !in text && forall c :: c in text ==> !IsSpace(c)
  {
    hide SplitOn, JoinWith, Chosen, OptionText, Spelled, Less, IsSpace, Sorted, Keys, Options, Clear, Arg;
    SpelledIff(bond);
    var keys, r := Sorted(Keys(Options(bond))), Spelled(bond).value;
    forall j | 0 <= j < |r|
      ensures SplitOn(r[j], '=') == [keys[j], Chosen(bond, keys[j]).value] && ':' !in r[j] && ',' !in r[j] && NoSpace(r[j])
    {
      OptionTextClear(keys[j], Chosen(bond, keys[j]).value);
      PairReads(keys[j], Chosen(bond, keys[j]).value);
    }
    SeparatorsNoSpace();
    SplitJoin(r, ',');
    JoinHasNo(r, ',', ':');
    JoinNoSpace(r, ',');
    forall k | Chosen(bond, k).Some?
      ensures exists j :: 0 <= j < |r| && SplitOn(r[j], '=')[0] == k
    {
      var j :| 0 <= j < |keys| && keys[j] == k;
      assert SplitOn(r[j], '=')[0] == k;
    }
  }

  predicate NoSpace(s: string) {
    forall c :: c in s ==> !IsSpace(c)
  }

  lemma {:induction false} JoinNoSpace(parts: seq<string>, sep: char)
    requires !IsSpace(sep) && forall p :: p in parts ==> NoSpace(p)
    ensures NoSpace(JoinWith(parts, sep))
  {
    hide IsSpace;
    if parts == [] {
    } else {
      assert parts[0] in parts && forall p :: p in parts[1..] ==> p in parts;
      JoinNoSpace(parts[1..], sep);
      assert forall c :: c in JoinWith(parts, sep) ==> c in parts[0] || c == sep || c in JoinWith(parts[1..], sep);
    }
  }

  // --- the fields of the arguments ---------------------------------------------------------

  /** The bond: its name, its cards in order, its options, and the size of its packets if the config sets one. */
  ghost predicate BondRead(value: string, cards: seq<Interface>, net: Net) {
    var fields := SplitOn(value, ':');
    && |fields| == (if net.mtu.Some? then 4 else 3) && fields[0] == "hvbond0"
    && |SplitOn(fields[1], ',')| == |cards|
    && (forall k :: 0 <= k < |cards| ==> SplitOn(fields[1], ',')[k] == NameOf(cards[k], k))
    && OptionsRead(fields[2], net.bond)
    && (net.mtu.Some? ==> Number(fields[3]) == net.mtu.value)
  }

  lemma {:induction false} SlavesAre(bs: seq<Binding>)
    ensures |SlaveNames(bs)| == |bs| && forall k :: 0 <= k < |bs| ==> SlaveNames(bs)[k] == bs[k].name
  {
    if bs != [] {
      SlavesAre(bs[1..]);
    }
  }

  lemma {:induction false} NameClear(name: string)
    requires ValidName(name)
    ensures Clear(name)
  {
  }

  lemma {:induction false} DigitsClear(n: nat)
    ensures Clear(Decimal(n))
  {
    DecimalReads(n);
    assert forall c :: '0' <= c <= '9' ==> c != ':' && c != ',' && c != '=' && !IsSpace(c);
  }

  lemma {:induction false} BondIsRead(cards: seq<Interface>, net: Net)
    requires Bindings(cards).Ok? && Spelled(net.bond).Some? && (net.mtu.Some? ==> net.mtu.value >= 0)
    ensures BondRead(BondValue(Bindings(cards).value, Spelled(net.bond).value, net.mtu), cards, net)
    ensures NoSpace(BondValue(Bindings(cards).value, Spelled(net.bond).value, net.mtu))
  {
    hide SplitOn, JoinWith, OptionsRead, Spelled, Decimal, Number, ValidName, Clear, Bind, BindFrom, IsSpace;
    var bs := Bindings(cards).value;
    var names, options := JoinWith(SlaveNames(bs), ','), JoinWith(Spelled(net.bond).value, ',');
    Bound(cards);
    SlavesAre(bs);
    forall n | n in SlaveNames(bs)
      ensures ':' !in n && ',' !in n && NoSpace(n)
    {
      var k :| 0 <= k < |bs| && SlaveNames(bs)[k] == n;
      assert bs[k] in bs;
      NameClear(n);
      ClearMeans(n);
    }
    forall k | 0 <= k < |bs|
      ensures bs[k].name == NameOf(cards[k], k)
    {
      BoundName(cards[k], k, bs[..k]);
    }
    SeparatorsNoSpace();
    SplitJoin(SlaveNames(bs), ',');
    JoinHasNo(SlaveNames(bs), ',', ':');
    JoinNoSpace(SlaveNames(bs), ',');
    OptionsAreRead(net.bond);
    var fields := ["hvbond0", names, options] + (if net.mtu.Some? then [Decimal(net.mtu.value)] else []);
    HvbondClear();
    if net.mtu.Some? {
      DecimalReads(net.mtu.value);
      DigitsClear(net.mtu.value);
      ClearMeans(Decimal(net.mtu.value));
    }
    SplitJoin(fields, ':');
    JoinNoSpace(fields, ':');
  }

  lemma {:induction false} BoundName(i: Interface, k: nat, before: seq<Binding>)
    requires Bind(i, k, before).Ok?
    ensures Bind(i, k, before).value.name == NameOf(i, k)
  {
  }

  lemma {:induction false} ClearMeans(s: string)
    requires Clear(s)
    ensures ':' !in s && ',' !in s && NoSpace(s)
  {
  }

  lemma {:induction false} HvbondClear()
    ensures Clear("hvbond0") && ':' !in "hvbond0" && NoSpace("hvbond0")
  {
  }

  lemma {:induction false} SeparatorsNoSpace()
    ensures !IsSpace(':') && !IsSpace(',') && !IsSpace('=')
  {
  }

  /** The device that the first boot uses: the bond, or the network of that number on it. */
  ghost predicate DeviceRead(device: string, vlan: int) {
    if vlan == 0 then device == "hvbond0" else "hvbond0." <= device && Number(device[|"hvbond0."|..]) == vlan
  }

  lemma {:induction false} DeviceIsRead(vlan: int)
    requires vlan >= 0
    ensures DeviceRead(Device(vlan), vlan) && Clear(Device(vlan))
  {
    hide Number, Decimal, Clear;
    HvbondClear();
    if vlan > 0 {
      DecimalReads(vlan);
      DigitsClear(vlan);
      DotDigits(Decimal(vlan));
      assert Device(vlan)[|"hvbond0."|..] == Decimal(vlan);
    }
  }

  lemma {:induction false} DotDigits(d: string)
    requires Clear(d)
    ensures Clear("hvbond0." + d)
  {
    assert forall c :: c in "hvbond0." + d ==> c in "hvbond0." || c in d;
  }

  /** `ip=`: the address, gateway, mask, host name and device of the config, or the device alone. */
  ghost predicate IpRead(value: string, net: Net, device: string, a: Addresses) {
    var fields := SplitOn(value, ':');
    match net.ipMethod
    case Dhcp => fields == [device, "dhcp"]
    case OtherMethod => false
    case Static(ip, gateway, mask) =>
      && |fields| == 7 && a.parse(ip) == Some(fields[0]) && fields[1] == "" && a.parse(gateway) == Some(fields[2])
      && a.netmask(fields[0], mask) == Some(fields[3]) && a.inside(fields[2], fields[0], fields[3])
      && fields[4] == net.hostname && fields[5] == device && fields[6] == "none"
  }

  ghost predicate HostText(h: string) {
    |h| <= 253 && forall c :: c in h ==> 97 <= c as int <= 122 || Digit(c) || c == '.' || c == '-'
  }

  lemma {:induction false} HostTextIff(h: string)
    ensures ValidHostname(h) <==> HostText(h)
  {
  }

  ghost predicate Reachable(net: Net, a: Addresses) {
    match net.ipMethod
    case Dhcp => true
    case OtherMethod => false
    case Static(ip, gateway, mask) =>
      && HostText(net.hostname)
      && exists i, g, m :: a.parse(ip) == Some(i) && a.parse(gateway) == Some(g) && a.netmask(i, mask) == Some(m) && a.inside(g, i, m)
  }

  lemma {:induction false} IpIff(net: Net, device: string, a: Addresses)
    ensures IpValue(net, device, a).Ok? <==> Reachable(net, a)
  {
    hide JoinWith, ValidHostname, HostText;
    HostTextIff(net.hostname);
  }

  lemma {:induction false} HostnameClear(h: string)
    requires ValidHostname(h)
    ensures ':' !in h && NoSpace(h)
  {
  }

  lemma {:induction false} WordsClear()
    ensures Clear("dhcp") && Clear("none") && Clear("") && Clear("1") && Clear("0")
  {
  }

  lemma {:induction false} IpIsRead(net: Net, device: string, a: Addresses)
    requires IpValue(net, device, a).Ok? && Dotted(a) && Clear(device)
    ensures IpRead(IpValue(net, device, a).value, net, device, a) && NoSpace(IpValue(net, device, a).value)
  {
    hide JoinWith, SplitOn, ValidHostname, Clear, NoSpace, IsSpace;
    WordsClear();
    SeparatorsNoSpace();
    ClearMeans(device);
    ClearMeans("");
    ClearMeans("dhcp");
    ClearMeans("none");
    match net.ipMethod {
      case Dhcp =>
        SplitJoin([device, "dhcp"], ':');
        JoinNoSpace([device, "dhcp"], ':');
      case OtherMethod =>
      case Static(ip, gateway, mask) =>
        var i, g := a.parse(ip).value, a.parse(gateway).value;
        var m := a.netmask(i, mask).value;
        ClearMeans(i);
        ClearMeans(g);
        ClearMeans(m);
        HostnameClear(net.hostname);
        var fields := [i, "", g, m, net.hostname, device, "none"];
        SplitJoin(fields, ':');
        JoinNoSpace(fields, ':');
    }
  }

  lemma {:induction false} DnsIff(dns: seq<string>, a: Addresses)
    ensures DnsTokens(dns, a).Ok? <==> forall d :: d in dns ==> a.parse(d).Some?
    ensures DnsTokens(dns, a).Ok? ==>
      var tokens := DnsTokens(dns, a).value;
      |tokens| == |dns| && forall k :: 0 <= k < |dns| ==> a.parse(dns[k]).Some? && tokens[k] == Arg("nameserver", a.parse(dns[k]).value)
  {
    hide Arg;
    if dns == [] {
    } else {
      assert dns[0] in dns && forall d :: d in dns <==> d == dns[0] || d in dns[1..];
      DnsIff(dns[1..], a);
    }
  }

  /** The values of arguments that all have one key. */
  lemma {:induction false} ValuesOf(tokens: seq<string>, values: seq<string>, k: string, key: string)
    requires '=' !in k && |tokens| == |values| && forall j :: 0 <= j < |tokens| ==> tokens[j] == Arg(k, values[j])
    ensures Values(tokens, key) == if k == key then values else []
  {
    hide Arg, BeforeEquals;
    if tokens == [] {
    } else {
      ValuesOf(tokens[1..], values[1..], k, key);
      assert tokens == [tokens[0]] + tokens[1..] && values == [values[0]] + values[1..];
      ValuesAppend([tokens[0]], tokens[1..], key);
      OneValue(k, values[0], key);
      assert [] + Values(tokens[1..], key) == Values(tokens[1..], key);
    }
  }

  function CardValues(bs: seq<Binding>): seq<string> {
    if bs == [] then [] else (if bs[0].mac.Some? then [bs[0].name + ":" + bs[0].mac.value] else []) + CardValues(bs[1..])
  }

  lemma {:induction false} IfnameArg(name: string, mac: string)
    ensures Ifname(name, mac) == Arg("ifname", name + ":" + mac)
  {
    assert IFNAME == "ifname" + "=";
  }

  lemma {:induction false} CardValuesAre(bs: seq<Binding>)
    ensures |Wanted(bs)| == |CardValues(bs)| && forall j :: 0 <= j < |Wanted(bs)| ==> Wanted(bs)[j] == Arg("ifname", CardValues(bs)[j])
  {
    hide Arg, Ifname;
    if bs != [] {
      CardValuesAre(bs[1..]);
      if bs[0].mac.Some? {
        IfnameArg(bs[0].name, bs[0].mac.value);
      }
    }
  }

  // --- all the arguments -----------------------------------------------------------------------

  ghost predicate Numbers(net: Net) {
    (net.mtu.Some? ==> 576 <= net.mtu.value <= 9000) && 0 <= net.vlan <= 4094
  }

  ghost predicate Servers(dns: seq<string>, a: Addresses) {
    forall d :: d in dns ==> a.parse(d).Some?
  }

  lemma {:induction false} TokensIff(cfg: Config, a: Addresses)
    ensures BootTokens(cfg, a).Ok? <==>
      Bindings(cfg.interfaces).Ok? && Spelled(cfg.net.bond).Some? && Numbers(cfg.net) && Reachable(cfg.net, a) && Servers(cfg.net.dns, a)
  {
    hide JoinWith, Bind, BindFrom, Bindings, Rendered, IpValue, DnsTokens, BondValue, Wanted, Arg, Sorted, Keys, Options, Reachable, Device;
    DnsIff(cfg.net.dns, a);
    if Bindings(cfg.interfaces).Ok? && Spelled(cfg.net.bond).Some? && Numbers(cfg.net) {
      IpIff(cfg.net, Device(cfg.net.vlan), a);
    }
  }

  /** The config is refused exactly when a card, an option, a number or an address is not usable, or an argument given besides competes. */
  lemma {:induction false} BootArgsIff(cfg: Config, extra: string, a: Addresses)
    ensures BootArgs(cfg, extra, a).Ok? <==>
      && (forall t :: t in Words(extra) ==> !Competes(t))
      && Usable(cfg.interfaces) && Writable(cfg.net.bond) && Numbers(cfg.net) && Reachable(cfg.net, a) && Servers(cfg.net.dns, a)
  {
    hide JoinWith, BootTokens, Bindings, Spelled, Usable, Writable, Reachable, Servers, Competes;
    BindingsIff(cfg.interfaces);
    SpelledIff(cfg.net.bond);
    TokensIff(cfg, a);
  }

  ghost predicate Network(tokens: seq<string>, cfg: Config, a: Addresses) {
    var device, servers := Values(tokens, "bootdev"), Values(tokens, "nameserver");
    && Values(tokens, "rd.neednet") == ["1"] && Values(tokens, "rd.bootif") == ["0"]
    && |device| == 1 && DeviceRead(device[0], cfg.net.vlan)
    && Values(tokens, "vlan") == (if cfg.net.vlan == 0 then [] else [device[0] + ":hvbond0"])
    && (|Values(tokens, "bond")| == 1 && BondRead(Values(tokens, "bond")[0], cfg.interfaces, cfg.net))
    && (|Values(tokens, "ip")| == 1 && IpRead(Values(tokens, "ip")[0], cfg.net, device[0], a))
    && (|servers| == |cfg.net.dns| && forall k :: 0 <= k < |servers| ==> a.parse(cfg.net.dns[k]) == Some(servers[k]))
    && forall v :: v in Values(tokens, "ifname") <==> CardNamed(v, cfg.interfaces)
  }

  /** `name:address` of a card of the config. */
  ghost predicate CardNamed(v: string, cards: seq<Interface>) {
    exists k :: 0 <= k < |cards| && MacOf(cards[k]) != "" && v == NameOf(cards[k], k) + ":" + Lower(MacOf(cards[k]))
  }

  function Written(bs: seq<Binding>, bond: string, device: string, vlan: int, ip: string, servers: seq<string>, key: string): seq<string> {
    match key
    case "rd.neednet" => ["1"]
    case "rd.bootif" => ["0"]
    case "ifname" => CardValues(bs)
    case "bond" => [bond]
    case "vlan" => if vlan == 0 then [] else [device + ":hvbond0"]
    case "ip" => [ip]
    case "bootdev" => [device]
    case "nameserver" => servers
    case _ => []
  }

  /** The values of all the arguments for a key. */
  lemma {:induction false} AllValues(bs: seq<Binding>, bond: string, device: string, vlan: int, ip: string,
                                     dns: seq<string>, servers: seq<string>, key: string)
    requires |dns| == |servers| && forall k :: 0 <= k < |dns| ==> dns[k] == Arg("nameserver", servers[k])
    ensures Values([Arg("rd.neednet", "1"), Arg("rd.bootif", "0")] + Wanted(bs) + [Arg("bond", bond)]
                   + (if vlan == 0 then [] else [Arg("vlan", device + ":hvbond0")]) + [Arg("ip", ip), Arg("bootdev", device)] + dns, key)
         == Written(bs, bond, device, vlan, ip, servers, key)
  {
    hide Values, Wanted, CardValues, Arg;
    var a, b, c, d := [Arg("rd.neednet", "1")], [Arg("rd.bootif", "0")], Wanted(bs), [Arg("bond", bond)];
    var e := if vlan == 0 then [] else [Arg("vlan", device + ":hvbond0")];
    var f, g := [Arg("ip", ip)], [Arg("bootdev", device)];
    assert [Arg("rd.neednet", "1"), Arg("rd.bootif", "0")] == a + b && [Arg("ip", ip), Arg("bootdev", device)] == f + g;
    ValuesAppend(a, b, key);
    ValuesAppend(a + b, c, key);
    ValuesAppend(a + b + c, d, key);
    ValuesAppend(a + b + c + d, e, key);
    ValuesAppend(f, g, key);
    ValuesAppend(a + b + c + d + e, f + g, key);
    ValuesAppend(a + b + c + d + e + (f + g), dns, key);
    OneValue("rd.neednet", "1", key);
    OneValue("rd.bootif", "0", key);
    CardValuesAre(bs);
    ValuesOf(c, CardValues(bs), "ifname", key);
    OneValue("bond", bond, key);
    OneValue("vlan", device + ":hvbond0", key);
    OneValue("ip", ip, key);
    OneValue("bootdev", device, key);
    ValuesOf(dns, servers, "nameserver", key);
    NoValues(key);
  }

  lemma {:induction false} NoValues(key: string)
    ensures Values([], key) == []
  {
  }

  lemma {:induction false} CardValuesIff(bs: seq<Binding>, v: string)
    ensures v in CardValues(bs) <==> exists k :: 0 <= k < |bs| && bs[k].mac.Some? && v == bs[k].name + ":" + bs[k].mac.value
  {
    if bs == [] {
    } else {
      CardValuesIff(bs[1..], v);
      if k :| 0 <= k < |bs| && bs[k].mac.Some? && v == bs[k].name + ":" + bs[k].mac.value {
        if k > 0 {
          assert bs[1..][k - 1] == bs[k];
        }
      }
      if k :| 0 <= k < |bs[1..]| && bs[1..][k].mac.Some? && v == bs[1..][k].name + ":" + bs[1..][k].mac.value {
        assert bs[k + 1] == bs[1..][k];
      }
    }
  }

  lemma {:induction false} BindingIs(i: Interface, k: nat, before: seq<Binding>)
    requires Bind(i, k, before).Ok?
    ensures Bind(i, k, before).value == BindingOf(i, k)
  {
  }

  lemma {:induction false} CardsNamed(cards: seq<Interface>)
    requires Bindings(cards).Ok?
    ensures forall v :: v in CardValues(Bindings(cards).value) <==> CardNamed(v, cards)
  {
    hide Bind, BindFrom, Bindings, CardValues, NameOf, MacOf, Lower, OneToOne, BoundTo;
    var bs := Bindings(cards).value;
    Bound(cards);
    forall k | 0 <= k < |cards|
      ensures bs[k] == BindingOf(cards[k], k)
    {
      BindingIs(cards[k], k, bs[..k]);
    }
    forall v
      ensures v in CardValues(bs) <==> CardNamed(v, cards)
    {
      CardValuesIff(bs, v);
      if v in CardValues(bs) {
        var k :| 0 <= k < |bs| && bs[k].mac.Some? && v == bs[k].name + ":" + bs[k].mac.value;
        assert MacOf(cards[k]) != "";
      }
      if k :| 0 <= k < |cards| && MacOf(cards[k]) != "" && v == NameOf(cards[k], k) + ":" + Lower(MacOf(cards[k])) {
        assert bs[k].mac.Some?;
      }
    }
  }

  lemma {:induction false} TokensRead(cfg: Config, a: Addresses)
    requires BootTokens(cfg, a).Ok? && Dotted(a)
    ensures Network(BootTokens(cfg, a).value, cfg, a)
    ensures forall key :: Values(BootTokens(cfg, a).value, key) != [] ==> key in Known()
  {
    hide Values, Bindings, Rendered, Sorted, Keys, Options, IpValue, DnsTokens, BondValue, Wanted, Arg, Device;
    hide BondRead, IpRead, DeviceRead, Clear, CardValues, CardNamed, Dotted;
    var bs, net, spelled := Bindings(cfg.interfaces).value, cfg.net, Spelled(cfg.net.bond).value;
    var device, bond := Device(net.vlan), BondValue(Bindings(cfg.interfaces).value, spelled, net.mtu);
    var ip, dns := IpValue(net, device, a).value, DnsTokens(net.dns, a).value;
    DnsIff(net.dns, a);
    var servers := seq(|dns|, k requires 0 <= k < |dns| => a.parse(net.dns[k]).value);
    forall key
      ensures Values(BootTokens(cfg, a).value, key) == Written(bs, bond, device, net.vlan, ip, servers, key)
    {
      AllValues(bs, bond, device, net.vlan, ip, dns, servers, key);
    }
    DeviceIsRead(net.vlan);
    BondIsRead(cfg.interfaces, net);
    IpIsRead(net, device, a);
    CardsNamed(cfg.interfaces);
  }

  // --- the text of all the arguments --------------------------------------------------------

  lemma {:induction false} ArgIsWord(key: string, value: string)
    requires NoSpace(key) && NoSpace(value)
    ensures IsWord(Arg(key, value))
  {
    hide IsSpace;
    SeparatorsNoSpace();
    assert Arg(key, value) != "";
    assert forall c :: c in Arg(key, value) ==> c in key || c == '=' || c in value;
  }

  lemma {:induction false} KnownKeysNoSpace()
    ensures forall k :: k in Known() ==> NoSpace(k)
  {
  }

  lemma {:induction false} VlanNoSpace(device: string)
    requires NoSpace(device)
    ensures NoSpace(device + ":hvbond0")
  {
    assert forall c :: c in device + ":hvbond0" ==> c in device || c in ":hvbond0";
  }

  lemma {:induction false} TokensAreWords(cfg: Config, a: Addresses)
    requires BootTokens(cfg, a).Ok? && Dotted(a)
    ensures forall t :: t in BootTokens(cfg, a).value ==> IsWord(t)
  {
    hide Values, Bindings, Rendered, Sorted, Keys, Options, IpValue, DnsTokens, BondValue, Wanted, Arg, Device, Clear, NoSpace, IsWord, OneToOne;
    var bs, net, spelled := Bindings(cfg.interfaces).value, cfg.net, Spelled(cfg.net.bond).value;
    var device, bond := Device(net.vlan), BondValue(Bindings(cfg.interfaces).value, spelled, net.mtu);
    var ip, dns := IpValue(net, device, a).value, DnsTokens(net.dns, a).value;
    KnownKeysNoSpace();
    WordsClear();
    ClearMeans("1");
    ClearMeans("0");
    DeviceIsRead(net.vlan);
    ClearMeans(device);
    VlanNoSpace(device);
    BondIsRead(cfg.interfaces, net);
    IpIsRead(net, device, a);
    DnsIff(net.dns, a);
    Bound(cfg.interfaces);
    forall t | t in Wanted(bs)
      ensures IsWord(t)
    {
      WantedIsFine(bs, t);
    }
    forall t | t in dns
      ensures IsWord(t)
    {
      var k :| 0 <= k < |dns| && dns[k] == t;
      ClearMeans(a.parse(net.dns[k]).value);
      ArgIsWord("nameserver", a.parse(net.dns[k]).value);
    }
    ArgIsWord("rd.neednet", "1");
    ArgIsWord("rd.bootif", "0");
    ArgIsWord("bond", bond);
    ArgIsWord("vlan", device + ":hvbond0");
    ArgIsWord("ip", ip);
    ArgIsWord("bootdev", device);
  }

  lemma {:induction false} NoneBesides(tokens: seq<string>, key: string)
    requires forall t :: t in tokens ==> BeforeEquals(t) != key
    ensures Values(tokens, key) == []
  {
    hide BeforeEquals;
    if tokens == [] {
    } else {
      assert tokens[0] in tokens && forall t :: t in tokens[1..] ==> t in tokens;
      NoneBesides(tokens[1..], key);
    }
  }

  lemma {:induction false} KnownManaged()
    ensures Known() + Rivals() <= MANAGED_ARGS && Known() !! Rivals()
  {
  }

  /**
   * The text of the arguments, followed by those given besides, read as the
   * first boot reads it, is the network of the config: the bond of its cards
   * with its options, the addresses, the device, the name servers. What is
   * given besides changes none of it, and there is no argument that would name
   * the cards otherwise.
   */
  lemma {:induction false} FirstBootReads(cfg: Config, extra: string, a: Addresses)
    requires BootArgs(cfg, extra, a).Ok? && Dotted(a)
    ensures Network(Words(BootArgs(cfg, extra, a).value) + Words(extra), cfg, a)
    ensures forall key :: key in Rivals() ==> Values(Words(BootArgs(cfg, extra, a).value) + Words(extra), key) == []
  {
    hide Words, JoinWith, BootTokens, Network, Values, MANAGED_ARGS, BeforeEquals, Known, Rivals, Dotted, IsWord;
    var tokens := BootTokens(cfg, a).value;
    TokensRead(cfg, a);
    TokensAreWords(cfg, a);
    WordsOfJoin(tokens);
    KnownManaged();
    forall key | key in Known() + Rivals()
      ensures Values(tokens + Words(extra), key) == Values(tokens, key)
    {
      NoneBesides(Words(extra), key);
      ValuesAppend(tokens, Words(extra), key);
    }
    SameNetwork(tokens, tokens + Words(extra), cfg, a);
  }

  lemma {:induction false} SameNetwork(tokens: seq<string>, all: seq<string>, cfg: Config, a: Addresses)
    requires Network(tokens, cfg, a) && forall key :: key in Known() ==> Values(all, key) == Values(tokens, key)
    ensures Network(all, cfg, a)
  {
    hide Values, BondRead, IpRead, DeviceRead, CardNamed;
  }
}
