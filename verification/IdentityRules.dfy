/**
 * What the rule file written for installed boots means (udev(7)): the lines
 * read back clause by clause, and the name they give to a card. A card keeps
 * its name when its bond has given it another address.
 */
module IdentityRules {
  import opened BootNetwork
  import opened Text
  import opened Wrappers

  /** An Ethernet card as the kernel announces it; one held by a bond also has its permanent address. */
  datatype Card = Card(address: string, permanent: Option<string>)

  /** The position of the first quotation mark. */
  function Quote(s: string): (n: nat)
    ensures n <= |s|
  {
    if s == "" || s[0] == '"' then 0 else 1 + Quote(s[1..])
  }

  lemma {:induction false} QuoteAfter(a: string, b: string)
    requires '"' !in a && b != "" && b[0] == '"'
    ensures Quote(a + b) == |a|
  {
    if a == "" {
      assert a + b == b;
    } else {
      assert (a + b)[0] == a[0] && (a + b)[1..] == a[1..] + b;
      QuoteAfter(a[1..], b);
    }
  }

  /** A key, an operator of two characters, and a text between quotation marks, with or without a space before. */
  function ReadClause(part: string): Clause {
    var s := StripLeft(part);
    var q := Quote(s);
    if 2 <= q < |s| - 1 then Clause(s[..q - 2], s[q - 2..q], s[q + 1..|s| - 1]) else Clause("", "", "")
  }

  function ReadAll(parts: seq<string>): (rs: seq<Clause>)
    ensures |rs| == |parts| && forall k :: 0 <= k < |rs| ==> rs[k] == ReadClause(parts[k])
  {
    seq(|parts|, k requires 0 <= k < |parts| => ReadClause(parts[k]))
  }

  predicate Readable(c: Clause) {
    c.key != "" && !IsBlank(c.key[0]) && '"' !in c.key && |c.op| == 2 && '"' !in c.op
  }

  lemma {:induction false} ClauseReads(c: Clause)
    requires Readable(c)
    ensures ReadClause(ClauseText(c)) == ReadClause(" " + ClauseText(c)) == c
  {
    var s := ClauseText(c);
    var tail := "\"" + c.value + "\"";
    var q := |c.key| + 2;
    assert s == (c.key + c.op) + tail && s[0] == c.key[0];
    assert (" " + s)[1..] == s && StripLeft(" " + s) == StripLeft(s) == s;
    QuoteAfter(c.key + c.op, tail);
    assert s[..q - 2] == c.key && s[q - 2..q] == c.op && s[q + 1..|s| - 1] == c.value;
  }

  predicate Matches(r: Clause, card: Card) {
    if r.key == "SUBSYSTEM" then r.op == "==" && r.value == "net"
    else if r.key == "ACTION" then r.op == "==" && r.value == "add"
    else if r.key == "DRIVERS" then r.op == "==" && r.value == "?*"
    else if r.key == "TEST" then r.value == "bonding_slave" && (if card.permanent.Some? then r.op == "==" else r.op == "!=")
    else if r.key == "ATTR{address}" then r.op == "==" && r.value == card.address
    else if r.key == PERMANENT then r.op == "==" && card.permanent == Some(r.value)
    else if r.key == "ATTR{type}" then r.op == "==" && r.value == "1"
    else r.key == "NAME" && r.op == ":="
  }

  /** The name a line gives, if all of it matches. */
  function NameIn(rs: seq<Clause>, card: Card): Option<string> {
    if rs != [] && rs[|rs| - 1].key == "NAME" && forall r :: r in rs ==> Matches(r, card) then Some(rs[|rs| - 1].value) else None
  }

  function LineGives(line: string, card: Card): Option<string> {
    NameIn(ReadAll(SplitOn(line, ',')), card)
  }

  /** The first name given is final. */
  function Given(lines: seq<string>, card: Card): Option<string> {
    if lines == [] then None
    else if LineGives(lines[0], card).Some? then LineGives(lines[0], card)
    else Given(lines[1..], card)
  }

  function FileGives(content: string, card: Card): Option<string> {
    Given(SplitOn(content, '\n'), card)
  }

  // --- reading the lines back -----------------------------------------------------------------

  predicate Plain(s: string) {
    ',' !in s && '\n' !in s
  }

  predicate Fine(c: Clause) {
    Readable(c) && Plain(c.key) && Plain(c.op) && Plain(c.value)
  }

  lemma {:induction false} ClausePlain(c: Clause)
    requires Plain(c.key) && Plain(c.op) && Plain(c.value)
    ensures Plain(ClauseText(c)) && Plain(" " + ClauseText(c))
  {
    var quote := "\"";
    assert Plain(c.key + c.op) && Plain(c.key + c.op + quote) && Plain(c.key + c.op + quote + c.value);
  }

  lemma {:induction false} PartsRead(cs: seq<Clause>)
    requires cs != [] && forall c :: c in cs ==> Fine(c)
    ensures ReadAll(LineParts(cs)) == cs && forall p :: p in LineParts(cs) ==> Plain(p)
  {
    hide Plain, Readable, ClauseText, ReadClause;
    var n := |cs| - 1;
    assert cs[n] in cs && cs[..n] + [cs[n]] == cs;
    ClauseReads(cs[n]);
    ClausePlain(cs[n]);
    if n > 0 {
      assert forall c :: c in cs[..n] ==> c in cs;
      PartsRead(cs[..n]);
      assert ReadAll(LineParts(cs)) == ReadAll(LineParts(cs[..n])) + [cs[n]];
    } else {
      assert LineParts(cs) == [ClauseText(cs[0])] && ReadAll(LineParts(cs)) == [cs[0]];
    }
  }

  /** A line written of such clauses is read back as these clauses. */
  lemma {:induction false} LineReads(cs: seq<Clause>)
    requires cs != [] && forall c :: c in cs ==> Fine(c)
    ensures ReadAll(SplitOn(JoinWith(LineParts(cs), ','), ',')) == cs
    ensures '\n' !in JoinWith(LineParts(cs), ',')
  {
    hide ReadClause, ClauseText, Readable;
    PartsRead(cs);
    assert LineParts(cs) != [];
    SplitJoin(LineParts(cs), ',');
    JoinHasNo(LineParts(cs), ',', '\n');
  }

  lemma {:induction false} FixedFine()
    ensures Fine(Clause("SUBSYSTEM", "==", "net")) && Fine(Clause("ACTION", "==", "add")) && Fine(Clause("DRIVERS", "==", "?*"))
    ensures Fine(Clause("ATTR{type}", "==", "1"))
  {
  }

  lemma {:induction false} TestFine(test: string, name: string)
    requires (test == "==" || test == "!=") && Plain(name)
    ensures Fine(Clause("TEST", test, "bonding_slave")) && Fine(Clause("NAME", ":=", name))
  {
  }

  lemma {:induction false} AddressFine(mac: string)
    requires Plain(mac)
    ensures Fine(Clause("ATTR{address}", "==", mac))
  {
  }

  lemma {:induction false} PermanentHasNo(c: char)
    requires c == ',' || c == '\n' || c == '"'
    ensures c !in PERMANENT
  {
  }

  lemma {:induction false} PermanentBegins()
    ensures PERMANENT != "" && !IsBlank(PERMANENT[0])
  {
  }

  lemma {:induction false} PermanentFine(mac: string)
    requires Plain(mac)
    ensures Fine(Clause(PERMANENT, "==", mac))
  {
    hide PERMANENT, IsBlank;
    PermanentHasNo(',');
    PermanentHasNo('\n');
    PermanentHasNo('"');
    PermanentBegins();
  }

  /** Who a line is for: a card outside any bond by its address, one held by a bond by its permanent address. */
  predicate For(test: string, mac: string, card: Card) {
    if test == "==" then card.permanent == Some(mac) else card.permanent.None? && card.address == mac
  }

  lemma {:induction false} LineFor(test: string, mac: string, name: string, card: Card)
    requires Plain(mac) && Plain(name) && (test == "==" || test == "!=")
    ensures var attribute := if test == "==" then PERMANENT else "ATTR{address}";
      && LineGives(RuleLine(test, attribute, mac, name), card) == (if For(test, mac, card) then Some(name) else None)
      && '\n' !in RuleLine(test, attribute, mac, name)
  {
    hide Fine, Plain, SplitOn, JoinWith, LineParts, Matches;
    var attribute := if test == "==" then PERMANENT else "ATTR{address}";
    var cs := RuleClauses(test, attribute, mac, name);
    FixedFine();
    TestFine(test, name);
    AddressFine(mac);
    PermanentFine(mac);
    LineReads(cs);
    FixedMatch(card);
    GivenMatch(test, attribute, mac, name, card);
    assert cs[3] in cs && cs[4] in cs;
  }

  lemma {:induction false} FixedMatch(card: Card)
    ensures Matches(Clause("SUBSYSTEM", "==", "net"), card) && Matches(Clause("ACTION", "==", "add"), card)
    ensures Matches(Clause("DRIVERS", "==", "?*"), card) && Matches(Clause("ATTR{type}", "==", "1"), card)
  {
  }

  lemma {:induction false} GivenMatch(test: string, attribute: string, mac: string, name: string, card: Card)
    requires test == "==" || test == "!="
    requires attribute == if test == "==" then PERMANENT else "ATTR{address}"
    ensures Matches(Clause("TEST", test, "bonding_slave"), card) && Matches(Clause(attribute, "==", mac), card) <==> For(test, mac, card)
    ensures Matches(Clause("NAME", ":=", name), card)
  {
  }

  lemma {:induction false} GivenAppend(a: seq<string>, b: seq<string>, card: Card)
    ensures Given(a + b, card) == if Given(a, card).Some? then Given(a, card) else Given(b, card)
    decreases |a|
  {
    hide LineGives;
    if a == [] {
      assert a + b == b;
    } else {
      assert (a + b)[1..] == a[1..] + b;
      GivenAppend(a[1..], b, card);
    }
  }

  /** The address a card is known by, whatever its bond made of it. */
  function OwnAddress(card: Card): string {
    if card.permanent.Some? then card.permanent.value else card.address
  }

  lemma {:induction false} BindingPlain(b: Binding)
    requires ValidName(b.name) && b.mac.Some? && ValidMac(b.mac.value)
    ensures Plain(b.name) && Plain(b.mac.value)
  {
    forall c | c in b.mac.value
      ensures c != ',' && c != '\n'
    {
      var j :| 0 <= j < |b.mac.value| && b.mac.value[j] == c;
    }
  }

  lemma {:induction false} TwoLines(a: string, b: string, card: Card)
    ensures Given([a, b], card) == if LineGives(a, card).Some? then LineGives(a, card) else LineGives(b, card)
  {
    hide LineGives;
    assert [a, b][0] == a && [a, b][1..] == [b] && [b][0] == b && [b][1..] == [];
    assert Given([b], card) == if LineGives(b, card).Some? then LineGives(b, card) else Given([], card);
  }

  lemma {:induction false} RulesGive(bs: seq<Binding>, card: Card)
    requires forall b :: b in bs ==> ValidName(b.name) && (b.mac.Some? ==> ValidMac(b.mac.value))
    ensures match Given(Rules(bs), card)
      case None => !MacTaken(bs, OwnAddress(card))
      case Some(n) => exists i :: 0 <= i < |bs| && bs[i] == Binding(n, Some(OwnAddress(card)))
    ensures forall l :: l in Rules(bs) ==> '\n' !in l
  {
    hide RuleLine, LineGives, ValidName, ValidMac, Plain;
    if bs == [] {
    } else {
      var b, rest := bs[0], bs[1..];
      assert b in bs && forall x :: x in rest ==> x in bs;
      RulesGive(rest, card);
      assert MacTaken(bs, OwnAddress(card)) <==> b.mac == Some(OwnAddress(card)) || MacTaken(rest, OwnAddress(card)) by {
        TakenFirst(bs, OwnAddress(card));
      }
      if b.mac.None? {
        assert Rules(bs) == Rules(rest);
      } else {
        BindingPlain(b);
        LineFor("!=", b.mac.value, b.name, card);
        LineFor("==", b.mac.value, b.name, card);
        var l0 := RuleLine("!=", "ATTR{address}", b.mac.value, b.name);
        var l1 := RuleLine("==", PERMANENT, b.mac.value, b.name);
        assert Rules(bs) == [l0, l1] + Rules(rest);
        GivenAppend([l0, l1], Rules(rest), card);
        TwoLines(l0, l1, card);
      }
      var given := Given(Rules(bs), card);
      if given.Some? && given == Given(Rules(rest), card) {
        var i :| 0 <= i < |rest| && rest[i] == Binding(given.value, Some(OwnAddress(card)));
        assert bs[i + 1] == rest[i];
      }
    }
  }

  lemma {:induction false} TakenFirst(bs: seq<Binding>, mac: string)
    requires bs != []
    ensures MacTaken(bs, mac) <==> bs[0].mac == Some(mac) || MacTaken(bs[1..], mac)
  {
    if MacTaken(bs, mac) && bs[0].mac != Some(mac) {
      var j :| 0 <= j < |bs| && bs[j].mac == Some(mac);
      assert bs[1..][j - 1] == bs[j];
    }
    if j :| 0 <= j < |bs[1..]| && bs[1..][j].mac == Some(mac) {
      assert bs[j + 1] == bs[1..][j];
    }
  }

  /** The empty text after the last line gives no name. */
  lemma {:induction false} NoLine(card: Card)
    ensures Given([""], card) == None
  {
    assert SplitOn("", ',') == [""] && [""][1..] == [];
    assert ReadClause("").key == "";
  }

  /**
   * On installed boots the file gives a card the name bound to its own
   * address, also when the card is in a bond and bears another one; and it
   * names no other card.
   */
  lemma {:induction false} InstalledNames(bs: seq<Binding>, card: Card)
    requires OneToOne(bs)
    ensures match FileGives(RuleFile(bs).content, card)
      case None => !MacTaken(bs, OwnAddress(card))
      case Some(n) => exists i :: 0 <= i < |bs| && bs[i] == Binding(n, Some(OwnAddress(card)))
  {
    hide Given, SplitOn, JoinWith, Rules, OwnAddress;
    RulesGive(bs, card);
    NoLine(card);
    var lines := Rules(bs);
    FileLines(lines);
    GivenAppend(lines, [""], card);
    if lines == [] {
      FileOfNone(card);
    }
  }

  lemma {:induction false} FileOfNone(card: Card)
    ensures FileGives(JoinWith([], '\n') + "\n", card) == Given([], card) == None
  {
    assert JoinWith([], '\n') + "\n" == "\n" && "\n"[1..] == "" && SplitOn("", '\n') == [""];
    assert SplitOn("\n", '\n') == ["", ""];
    NoLine(card);
    TwoLines("", "", card);
  }

  lemma {:induction false} FileLines(lines: seq<string>)
    requires forall l :: l in lines ==> '\n' !in l
    ensures lines != [] ==> SplitOn(JoinWith(lines, '\n') + "\n", '\n') == lines + [""]
  {
    if lines != [] {
      JoinAppend(lines, [""], '\n');
      assert JoinWith(lines, '\n') + ['\n'] + "" == JoinWith(lines, '\n') + "\n";
      SplitJoin(lines + [""], '\n');
    }
  }

  lemma {:induction false} OnlyRuleFile(cfg: Config)
    requires Identity(cfg).Ok? && HasAddress(cfg.interfaces)
    ensures var f := RuleFile(Bindings(cfg.interfaces).value);
      f in Identity(cfg).value.files && forall g :: g in Identity(cfg).value.files && g.path == RULES ==> g == f
  {
    hide TokenError, Rules, KernelTokens, Words, JoinWith, SamePath, Bind, BindFrom, HasAddress, RoomFor;
    var bs := Bindings(cfg.interfaces).value;
    Bound(cfg.interfaces);
    WantedIff(cfg.interfaces);
    IdentityIff(cfg);
    SamePathNone(cfg.files, RULES);
    RoomMeans(cfg.files, RuleFile(bs));
  }

  lemma {:induction false} RoomMeans(files: seq<File>, f: File)
    requires RoomFor(files, f)
    ensures f in files || forall g :: g in files ==> g.path != f.path
    ensures forall g :: g in files && g.path == f.path ==> g == f
  {
  }

  /** A file that udev reads before its own naming rules, for the administrator to write. */
  ghost predicate BootRule(f: File) {
    f.path == "/etc/udev/rules.d/79-harvester-bond-identity.rules" && f.permissions == "0644" && f.owner == "root:root"
  }

  /** The one file of that path. */
  ghost predicate OnlyRule(f: File, files: seq<File>) {
    f in files && BootRule(f) && forall g :: g in files && g.path == f.path ==> g == f
  }

  lemma {:induction false} IsBootRule(bs: seq<Binding>)
    ensures BootRule(RuleFile(bs)) && RuleFile(bs).path == RULES
  {
  }

  /**
   * The config written for the installer holds one rule file, and on installed
   * boots this file gives each card of the config the name that the config
   * gives it, also when its bond has given the card another address.
   */
  lemma {:induction false} InstalledCardsKeepNames(cfg: Config, card: Card)
    requires Identity(cfg).Ok?
    ensures forall k :: 0 <= k < |cfg.interfaces| ==>
      var out := Identity(cfg).value;
      out.interfaces[k].hwAddr != "" && out.interfaces[k].hwAddr == OwnAddress(card) ==>
        exists f :: OnlyRule(f, out.files) && FileGives(f.content, card) == Some(out.interfaces[k].name)
  {
    hide Rules, RuleFile, KernelTokens, Words, JoinWith, SamePath, Bind, BindFrom, Wanted, FirstError, FileGives, HasAddress, Number, BootRule, RULES;
    var bs, out := Bindings(cfg.interfaces).value, Identity(cfg).value;
    Bound(cfg.interfaces);
    forall k | 0 <= k < |cfg.interfaces| && out.interfaces[k].hwAddr != "" && out.interfaces[k].hwAddr == OwnAddress(card)
      ensures exists f :: OnlyRule(f, out.files) && FileGives(f.content, card) == Some(out.interfaces[k].name)
    {
      assert BoundTo(cfg.interfaces[k], k, bs[k]) && bs[k].mac == Some(OwnAddress(card));
      HasOne(cfg.interfaces, k);
      OnlyRuleFile(cfg);
      IsBootRule(bs);
      InstalledNames(bs, card);
      assert MacTaken(bs, OwnAddress(card));
      var n := FileGives(RuleFile(bs).content, card).value;
      var i :| 0 <= i < |bs| && bs[i] == Binding(n, Some(OwnAddress(card)));
      assert i == k && OnlyRule(RuleFile(bs), out.files);
    }
  }

  lemma {:induction false} HasOne(cards: seq<Interface>, k: nat)
    requires k < |cards| && MacOf(cards[k]) != ""
    ensures HasAddress(cards)
  {
  }
}
