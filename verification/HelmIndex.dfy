/**
 * Reading a Helm repository index by its indentation alone
 * (bin/harvester-artefacts.py, helm_index_entries and _unquote), against the
 * shape that `helm repo index` writes.
 */
module HelmIndex {
  import opened Text
  import opened Wrappers

  datatype Field = Scalar(text: string) | Listed(texts: seq<string>)
  type Item = map<string, Field>

  /** A line that is neither blank nor a comment: its leading spaces, and the rest without the blanks around it. */
  datatype Line = Line(indent: nat, text: string)

  // --- text ---------------------------------------------------------------------------

  function Spaces(s: string): nat {
    if s != "" && s[0] == ' ' then 1 + Spaces(s[1..]) else 0
  }

  /** `_unquote` */
  function Unquote(v: string): string {
    var s := Strip(v);
    if |s| >= 2 && s[0] == s[|s| - 1] && s[0] in "\"'" then s[1..|s| - 1] else s
  }

  predicate Significant(raw: string) {
    StripLeft(raw) != "" && StripLeft(raw)[0] != '#'
  }

  /** What `Lines` gives: text without blanks around it that does not begin a comment. */
  ghost predicate Counts(l: Line) {
    Stripped(l.text) && l.text[0] != '#'
  }

  /** The lines that count. */
  function Lines(raws: seq<string>): seq<Line> {
    if raws == [] then []
    else (if Significant(raws[0]) then [Line(Spaces(raws[0]), Strip(raws[0]))] else []) + Lines(raws[1..])
  }

  // --- the reader ------------------------------------------------------------------------

  datatype State = State(
    found: seq<Item>, inEntries: bool, chartIndent: Option<nat>, cur: Option<string>,
    open: bool, keyIndent: Option<nat>, block: Option<string>, broken: bool)

  const START := State([], false, None, None, false, None, None, false)

  predicate StartsWith(s: string, prefix: string) {
    prefix <= s
  }

  /** The item being read, the last one found. */
  function Current(st: State): Item {
    if st.found == [] then map[] else st.found[|st.found| - 1]
  }

  function WithCurrent(st: State, item: Item): State {
    if st.found == [] then st else st.(found := st.found[..|st.found| - 1] + [item])
  }

  predicate NamesChart(st: State, l: Line) {
    && !StartsWith(l.text, "-") && l.text != "" && l.text[|l.text| - 1] == ':'
    && (st.chartIndent.None? || st.chartIndent == Some(l.indent))
  }

  predicate BeginsItem(st: State, l: Line) {
    && StartsWith(l.text, "- ")
    && (if st.keyIndent.Some? then l.indent + 2 == st.keyIndent.value else st.chartIndent.Some? && l.indent >= st.chartIndent.value)
  }

  function InlineParts(parts: seq<string>): seq<string> {
    if parts == [] then []
    else (if Strip(parts[0]) != "" then [Unquote(parts[0])] else []) + InlineParts(parts[1..])
  }

  /** A line of the item being read. */
  function FeedField(st: State, l: Line): State {
    if StartsWith(l.text, "- ") && st.block.Some? && st.block.value != "" then
      var item, key := Current(st), st.block.value;
      if key !in item then WithCurrent(st, item[key := Listed([Unquote(l.text[2..])])])
      else if item[key].Listed? then WithCurrent(st, item[key := Listed(item[key].texts + [Unquote(l.text[2..])])])
      else st.(broken := true)
    else if st.keyIndent == Some(l.indent) && Colon(l.text).Some? then
      var c := Colon(l.text).value;
      var key, v := Strip(l.text[..c]), Strip(l.text[c + 1..]);
      if v == "" then st.(block := Some(key))
      else if v[0] == '[' && v[|v| - 1] == ']' then
        WithCurrent(st, Current(st)[key := Listed(InlineParts(SplitOn(v[1..|v| - 1], ',')))]).(block := None)
      else WithCurrent(st, Current(st)[key := Scalar(Unquote(v))]).(block := None)
    else st
  }

  function Feed(st: State, l: Line, chart: string): State {
    if st.broken then st
    else if l.indent == 0 then st.(inEntries := l.text == "entries:", cur := None)
    else if !st.inEntries then st
    else if NamesChart(st, l) then
      st.(chartIndent := Some(l.indent), cur := Some(Unquote(l.text[..|l.text| - 1])), open := false, keyIndent := None)
    else if st.cur != Some(chart) then st
    else if BeginsItem(st, l) then
      FeedField(st.(found := st.found + [map[]], open := true, block := None, keyIndent := Some(l.indent + 2)),
                Line(l.indent + 2, Strip(l.text[2..])))
    else if !st.open then st
    else FeedField(st, l)
  }

  function FeedAll(st: State, lines: seq<Line>, chart: string): State
    decreases |lines|
  {
    if lines == [] then st else FeedAll(Feed(st, lines[0], chart), lines[1..], chart)
  }

  lemma {:induction false} FeedAppend(st: State, a: seq<Line>, b: seq<Line>, chart: string)
    ensures FeedAll(st, a + b, chart) == FeedAll(FeedAll(st, a, chart), b, chart)
    decreases |a|
  {
    if a == [] {
      assert a + b == b;
    } else {
      assert (a + b)[0] == a[0] && (a + b)[1..] == a[1..] + b;
      FeedAppend(Feed(st, a[0], chart), a[1..], b, chart);
    }
  }

  lemma {:induction false} FeedOne(st: State, l: Line, rest: seq<Line>, chart: string)
    ensures FeedAll(st, [l] + rest, chart) == FeedAll(Feed(st, l, chart), rest, chart)
  {
    assert ([l] + rest)[1..] == rest;
  }

  // --- the shape of an index -----------------------------------------------------------------

  /** How a text is written: as it is, or between quotes. */
  datatype Written = Plain(text: string) | Quoted(quote: char, text: string)

  function Print(w: Written): string {
    match w
    case Plain(text) => text
    case Quoted(quote, text) => [quote] + text + [quote]
  }

  /** Plain text that nothing else can be read for. */
  ghost predicate Readable(w: Written) {
    match w
    case Plain(text) => Stripped(text) && text[0] !in "\"'[{-#"
    case Quoted(quote, _) => quote in "\"'"
  }

  /** One entry of a list: the text on its dash, and the lines deeper than the dash that belong to it. */
  datatype Element = Element(value: Written, deeper: seq<Line>)

  datatype Entry =
    | One(key: string, value: Written)
    | Long(key: string, head: string, text: string, more: seq<Line>)   // a scalar that goes on below the line of its key; `text` is all of it
    | Inline(key: string, values: seq<Written>)                        // [a, b]
    | Block(key: string, indent: nat, elements: seq<Element>)          // a list, its dashes at one indent
    | Nested(key: string, below: seq<Line>)                            // a map, or nothing

  datatype Chart = Chart(name: Written, items: seq<seq<Entry>>)

  ghost predicate ValidKey(key: string) {
    Stripped(key) && ':' !in key && key[0] != '-' && key[0] != '#'
  }

  predicate IsDash(l: Line) {
    StartsWith(l.text, "- ")
  }

  ghost predicate Deeper(lines: seq<Line>, indent: nat) {
    forall l :: l in lines ==> l.indent > indent && Counts(l)
  }

  ghost predicate ValidElements(elements: seq<Element>, indent: nat) {
    forall x :: x in elements ==> Readable(x.value) && Deeper(x.deeper, indent)
  }

  ghost predicate ValidEntry(e: Entry) {
    && ValidKey(e.key)
    && (match e
        case One(_, value) => Readable(value)
        case Long(_, head, text, more) =>
          Stripped(head) && !(head[0] == '[' && head[|head| - 1] == ']') && text != Unquote(head) && Deeper(more, 4)
        case Inline(_, values) => forall w :: w in values ==> w.Plain? && Readable(w) && ',' !in w.text
        case Block(_, indent, elements) => indent >= 4 && elements != [] && ValidElements(elements, indent)
        case Nested(_, below) => Deeper(below, 4) && (below != [] ==> !IsDash(below[0])))
  }

  ghost predicate ValidItem(item: seq<Entry>) {
    && item != [] && (forall e :: e in item ==> ValidEntry(e))
    && forall i, j :: 0 <= i < j < |item| ==> item[i].key != item[j].key
  }

  ghost predicate ValidItems(items: seq<seq<Entry>>) {
    items != [] ==> ValidItem(items[0]) && ValidItems(items[1..])
  }

  ghost predicate ValidChart(c: Chart) {
    Readable(c.name) && ValidItems(c.items)
  }

  ghost predicate ValidCharts(cs: seq<Chart>) {
    forall i :: 0 <= i < |cs| ==> ValidChart(cs[i])
  }

  function ElementLines(elements: seq<Element>, indent: nat): seq<Line> {
    if elements == [] then []
    else [Line(indent, "- " + Print(elements[0].value))] + (elements[0].deeper + ElementLines(elements[1..], indent))
  }

  function InlineTexts(values: seq<Written>): seq<string> {
    if values == [] then [] else [" " + Print(values[0])] + InlineTexts(values[1..])
  }

  /** What follows the colon on the line of a key. */
  function Rest(e: Entry): string {
    match e
    case One(_, value) => " " + Print(value)
    case Long(_, head, _, _) => " " + head
    case Inline(_, values) => " [" + JoinWith(InlineTexts(values), ',') + "]"
    case Block(_, _, _) => ""
    case Nested(_, _) => ""
  }

  function KeyLine(e: Entry): string {
    e.key + ":" + Rest(e)
  }

  function MoreLines(e: Entry): seq<Line> {
    match e
    case One(_, _) => []
    case Long(_, _, _, more) => more
    case Inline(_, _) => []
    case Block(_, indent, elements) => ElementLines(elements, indent)
    case Nested(_, below) => below
  }

  function EntryLines(e: Entry): seq<Line> {
    [Line(4, KeyLine(e))] + MoreLines(e)
  }

  function EntriesLines(es: seq<Entry>): seq<Line> {
    if es == [] then [] else EntryLines(es[0]) + EntriesLines(es[1..])
  }

  /** The first key on the dash, the others below it. */
  function ItemLines(item: seq<Entry>): seq<Line> {
    if item == [] then []
    else [Line(2, "- " + KeyLine(item[0]))] + (MoreLines(item[0]) + EntriesLines(item[1..]))
  }

  function ItemsLines(items: seq<seq<Entry>>): seq<Line> {
    if items == [] then [] else ItemLines(items[0]) + ItemsLines(items[1..])
  }

  function ChartLines(c: Chart): seq<Line> {
    [Line(2, Print(c.name) + ":")] + ItemsLines(c.items)
  }

  function ChartsLines(cs: seq<Chart>): seq<Line> {
    if cs == [] then [] else ChartLines(cs[0]) + ChartsLines(cs[1..])
  }

  // --- what it means, and what is read ------------------------------------------------------------

  /** The text after each dash, whatever its indent. */
  function DashTexts(lines: seq<Line>): seq<string> {
    if lines == [] then []
    else (if IsDash(lines[0]) then [Unquote(lines[0].text[2..])] else []) + DashTexts(lines[1..])
  }

  function OwnTexts(elements: seq<Element>): seq<string> {
    if elements == [] then [] else [elements[0].value.text] + OwnTexts(elements[1..])
  }

  function Texts(values: seq<Written>): seq<string> {
    if values == [] then [] else [values[0].text] + Texts(values[1..])
  }

  datatype View = Meant | AsRead

  /**
   * The scalar or list field that an entry means. As read, a scalar is what
   * stands on the line of its key, and every dash below a key is an entry of
   * that key's list.
   */
  function FieldOf(e: Entry, view: View): Option<Field> {
    match e
    case One(_, value) => Some(Scalar(value.text))
    case Long(_, head, text, _) => Some(Scalar(if view == Meant then text else Unquote(head)))
    case Inline(_, values) => Some(Listed(Texts(values)))
    case Block(_, indent, elements) => Some(Listed(if view == Meant then OwnTexts(elements) else DashTexts(ElementLines(elements, indent))))
    case Nested(_, below) => if view == Meant || DashTexts(below) == [] then None else Some(Listed(DashTexts(below)))
  }

  function WithField(item: Item, e: Entry, view: View): Item {
    match FieldOf(e, view)
    case None => item
    case Some(f) => item[e.key := f]
  }

  function Fields(item: Item, es: seq<Entry>, view: View): Item
    decreases |es|
  {
    if es == [] then item else Fields(WithField(item, es[0], view), es[1..], view)
  }

  function Items(items: seq<seq<Entry>>, view: View): seq<Item> {
    if items == [] then [] else [Fields(map[], items[0], view)] + Items(items[1..], view)
  }

  /** The items of every chart of that name, in order. */
  function Versions(cs: seq<Chart>, chart: string, view: View): seq<Item> {
    if cs == [] then []
    else (if cs[0].name.text == chart then Items(cs[0].items, view) else []) + Versions(cs[1..], chart, view)
  }

  // --- when both are the same ------------------------------------------------------------------------

  ghost predicate NoDash(lines: seq<Line>) {
    forall l :: l in lines ==> !IsDash(l)
  }

  /** No scalar goes on below its line, and no dash is deeper than a list's own dashes. */
  ghost predicate Simple(e: Entry) {
    match e
    case Long(_, _, _, _) => false
    case Block(_, _, elements) => forall x :: x in elements ==> NoDash(x.deeper)
    case Nested(_, below) => NoDash(below)
    case _ => true
  }

  lemma {:induction false} DashTextsAppend(a: seq<Line>, b: seq<Line>)
    ensures DashTexts(a + b) == DashTexts(a) + DashTexts(b)
  {
    if a == [] {
      assert a + b == b;
    } else {
      assert (a + b)[0] == a[0] && (a + b)[1..] == a[1..] + b;
      DashTextsAppend(a[1..], b);
    }
  }

  lemma {:induction false} NoDashIff(lines: seq<Line>)
    ensures DashTexts(lines) == [] <==> NoDash(lines)
  {
    if lines == [] {
    } else {
      NoDashIff(lines[1..]);
      assert forall l :: l in lines <==> l == lines[0] || l in lines[1..];
    }
  }

  lemma {:induction false} ElementRead(x: Element, rest: seq<Line>, indent: nat)
    requires Readable(x.value)
    ensures DashTexts([Line(indent, "- " + Print(x.value))] + (x.deeper + rest))
         == [x.value.text] + (DashTexts(x.deeper) + DashTexts(rest))
  {
    var first := Line(indent, "- " + Print(x.value));
    PrintReads(x.value);
    assert first.text[2..] == Print(x.value) && IsDash(first);
    hide Readable, Print, Unquote, IsDash;
    assert ([first] + (x.deeper + rest))[1..] == x.deeper + rest;
    DashTextsAppend(x.deeper, rest);
  }

  /** The own dashes are read in order, with every deeper one in between. */
  lemma {:induction false} ElementsIff(elements: seq<Element>, indent: nat)
    requires ValidElements(elements, indent)
    ensures var read := DashTexts(ElementLines(elements, indent));
      && |read| >= |OwnTexts(elements)|
      && (|read| == |OwnTexts(elements)| <==> forall x :: x in elements ==> NoDash(x.deeper))
      && (|read| == |OwnTexts(elements)| ==> read == OwnTexts(elements))
  {
    if elements == [] {
    } else {
      var x := elements[0];
      assert x in elements && forall y :: y in elements <==> y == x || y in elements[1..];
      assert Readable(x.value) && ValidElements(elements[1..], indent);
      hide ValidElements, Readable, Print, DashTexts, NoDash;
      ElementsIff(elements[1..], indent);
      ElementRead(x, ElementLines(elements[1..], indent), indent);
      NoDashIff(x.deeper);
      var own := DashTexts(x.deeper);
      assert own == [] ==> own + DashTexts(ElementLines(elements[1..], indent)) == DashTexts(ElementLines(elements[1..], indent));
    }
  }

  lemma {:induction false} FieldIff(e: Entry)
    requires ValidEntry(e)
    ensures FieldOf(e, AsRead) == FieldOf(e, Meant) <==> Simple(e)
  {
    match e {
      case Block(_, indent, elements) => ElementsIff(elements, indent);
      case Nested(_, below) => NoDashIff(below);
      case _ =>
    }
  }

  ghost predicate DistinctEntries(es: seq<Entry>) {
    forall i, j :: 0 <= i < j < |es| ==> es[i].key != es[j].key
  }

  lemma {:induction false} FieldsKeep(item: Item, es: seq<Entry>, view: View, key: string)
    requires forall e :: e in es ==> e.key != key
    ensures (key in Fields(item, es, view) <==> key in item) && (key in item ==> Fields(item, es, view)[key] == item[key])
    decreases |es|
  {
    if es == [] {
    } else {
      assert es[0] in es && forall e :: e in es[1..] ==> e in es;
      FieldsKeep(WithField(item, es[0], view), es[1..], view, key);
    }
  }

  /** Under each key stands what its entry gives. */
  lemma {:induction false} FieldsAt(item: Item, es: seq<Entry>, view: View, k: nat)
    requires DistinctEntries(es) && k < |es| && es[k].key !in item
    ensures var r, f := Fields(item, es, view), FieldOf(es[k], view);
      (es[k].key in r <==> f.Some?) && (f.Some? ==> r[es[k].key] == f.value)
    decreases |es|
  {
    if k == 0 {
      forall e | e in es[1..]
        ensures e.key != es[0].key
      {
        var i :| 0 <= i < |es| - 1 && es[1..][i] == e;
        assert es[i + 1] == e;
      }
      FieldsKeep(WithField(item, es[0], view), es[1..], view, es[0].key);
    } else {
      assert es[1..][k - 1] == es[k];
      FieldsAt(WithField(item, es[0], view), es[1..], view, k - 1);
    }
  }

  lemma {:induction false} SameFields(item: Item, es: seq<Entry>)
    requires forall e :: e in es ==> FieldOf(e, AsRead) == FieldOf(e, Meant)
    ensures Fields(item, es, AsRead) == Fields(item, es, Meant)
    decreases |es|
  {
    if es == [] {
    } else {
      assert es[0] in es && forall e :: e in es[1..] ==> e in es;
      SameFields(WithField(item, es[0], Meant), es[1..]);
    }
  }

  ghost predicate SimpleItem(item: seq<Entry>) {
    forall e :: e in item ==> Simple(e)
  }

  /** An item is read as it is meant if and only if all its entries are simple. */
  lemma {:induction false} ItemIff(item: seq<Entry>)
    requires ValidItem(item)
    ensures Fields(map[], item, AsRead) == Fields(map[], item, Meant) <==> SimpleItem(item)
  {
    forall k | 0 <= k < |item|
      ensures FieldOf(item[k], AsRead) == FieldOf(item[k], Meant) <==> Simple(item[k])
    {
      FieldIff(item[k]);
    }
    if SimpleItem(item) {
      SameFields(map[], item);
    } else {
      var e :| e in item && !Simple(e);
      var k :| 0 <= k < |item| && item[k] == e;
      FieldsAt(map[], item, AsRead, k);
      FieldsAt(map[], item, Meant, k);
    }
  }

  ghost predicate SimpleItems(items: seq<seq<Entry>>) {
    items != [] ==> SimpleItem(items[0]) && SimpleItems(items[1..])
  }

  lemma {:induction false} ItemsIff(items: seq<seq<Entry>>)
    requires ValidItems(items)
    ensures |Items(items, AsRead)| == |Items(items, Meant)|
    ensures Items(items, AsRead) == Items(items, Meant) <==> SimpleItems(items)
  {
    if items == [] {
    } else {
      ItemIff(items[0]);
      ItemsIff(items[1..]);
      SplitsAlike([Fields(map[], items[0], AsRead)], Items(items[1..], AsRead), [Fields(map[], items[0], Meant)], Items(items[1..], Meant));
    }
  }

  lemma {:induction false} SplitsAlike<T>(a: seq<T>, b: seq<T>, c: seq<T>, d: seq<T>)
    requires |a| == |c|
    ensures a + b == c + d <==> a == c && b == d
  {
    if a + b == c + d {
      assert a == (a + b)[..|a|] && b == (a + b)[|a|..];
      assert c == (c + d)[..|c|] && d == (c + d)[|c|..];
    }
  }

  /** Every item of the charts of that name is simple. */
  ghost predicate SimpleCharts(cs: seq<Chart>, chart: string) {
    cs != [] ==> (cs[0].name.text == chart ==> SimpleItems(cs[0].items)) && SimpleCharts(cs[1..], chart)
  }

  lemma {:induction false} VersionsIff(cs: seq<Chart>, chart: string)
    requires ValidCharts(cs)
    ensures |Versions(cs, chart, AsRead)| == |Versions(cs, chart, Meant)|
    ensures Versions(cs, chart, AsRead) == Versions(cs, chart, Meant) <==> SimpleCharts(cs, chart)
  {
    if cs == [] {
    } else {
      assert ValidChart(cs[0]) && ValidCharts(cs[1..]);
      VersionsIff(cs[1..], chart);
      var here := cs[0].name.text == chart;
      if here {
        ItemsIff(cs[0].items);
      }
      SplitsAlike(if here then Items(cs[0].items, AsRead) else [], Versions(cs[1..], chart, AsRead),
                  if here then Items(cs[0].items, Meant) else [], Versions(cs[1..], chart, Meant));
    }
  }

  /** The change log that charts carry among their annotations. */
  const CHANGES: seq<Line> := [Line(6, "artifacthub.io/changes: |"), Line(8, "- Fix bug")]

  lemma {:induction false} ChangesAre()
    ensures Deeper(CHANGES, 4) && !IsDash(CHANGES[0]) && DashTexts(CHANGES) == ["Fix bug"]
  {
    var title, dash := CHANGES[0], CHANGES[1];
    StripStripped("Fix bug");
    assert dash.text[2..] == "Fix bug" && dash.text[..2] == "- " && title.text[0] == 'a';
    assert CHANGES[1..] == [dash] && [dash][1..] == [];
    assert DashTexts([]) == [];
    hide Strip;
    assert DashTexts([dash]) == ["Fix bug"];
  }

  /** They are read as a list of annotations, where the index has a map. */
  lemma {:induction false} ChangesAreCollected() returns (item: seq<Entry>)
    ensures ValidItem(item)
    ensures "annotations" !in Fields(map[], item, Meant)
    ensures var r := Fields(map[], item, AsRead); "annotations" in r && r["annotations"] == Listed(["Fix bug"])
  {
    var e := Nested("annotations", CHANGES);
    assert ValidKey(e.key);
    ChangesAre();
    hide ValidKey, Deeper, IsDash, DashTexts, Fields;
    item := [e];
    FieldsAt(map[], item, AsRead, 0);
    FieldsAt(map[], item, Meant, 0);
  }

  // --- reading what was written --------------------------------------------------------------------

  lemma {:induction false} PrintReads(w: Written)
    requires Readable(w)
    ensures Stripped(Print(w)) && Print(w)[0] != '[' && Print(w)[0] != '-'
    ensures Unquote(Print(w)) == w.text && Unquote(" " + Print(w)) == w.text
  {
    var p := Print(w);
    StripPad(p);
    if w.Quoted? {
      assert p[1..|p| - 1] == w.text;
    }
  }

  lemma {:induction false} InlineRead(values: seq<Written>)
    requires forall w :: w in values ==> w.Plain? && Readable(w) && ',' !in w.text
    ensures InlineParts(InlineTexts(values)) == Texts(values)
    ensures forall p :: p in InlineTexts(values) ==> ',' !in p
  {
    if values == [] {
    } else {
      assert values[0] in values && forall w :: w in values[1..] ==> w in values;
      InlineRead(values[1..]);
      PrintReads(values[0]);
      StripPad(Print(values[0]));
      assert InlineTexts(values)[1..] == InlineTexts(values[1..]);
    }
  }

  lemma {:induction false} InlineJoined(values: seq<Written>)
    requires forall w :: w in values ==> w.Plain? && Readable(w) && ',' !in w.text
    ensures InlineParts(SplitOn(JoinWith(InlineTexts(values), ','), ',')) == Texts(values)
  {
    InlineRead(values);
    if values == [] {
      assert SplitOn("", ',') == [""] && [""][1..] == [];
    } else {
      assert InlineTexts(values) != [];
      SplitJoin(InlineTexts(values), ',');
    }
  }

  lemma {:induction false} KeyedStripped(key: string, rest: string)
    requires Stripped(key) && (rest == "" || !IsBlank(rest[|rest| - 1]))
    ensures Stripped(key + ":" + rest)
  {
  }

  lemma {:induction false} RestEnds(e: Entry)
    requires ValidEntry(e)
    ensures Rest(e) == "" || !IsBlank(Rest(e)[|Rest(e)| - 1])
  {
    if e.One? {
      PrintReads(e.value);
      hide Readable, Print;
    }
  }

  lemma {:induction false} KeyLineParts(e: Entry)
    requires ValidEntry(e)
    ensures var t := KeyLine(e);
      && Stripped(t) && Strip(t) == t && !StartsWith(t, "- ") && !StartsWith(t, "-")
      && Colon(t) == Some(|e.key|) && t[..|e.key|] == e.key && t[|e.key| + 1..] == Rest(e) && Strip(e.key) == e.key
  {
    hide Rest, Print, Strip, Readable;
    RestEnds(e);
    KeyedStripped(e.key, Rest(e));
    hide Stripped, IsBlank;
    ColonAfter(e.key, Rest(e));
    StripStripped(KeyLine(e));
    StripStripped(e.key);
    assert KeyLine(e)[0] == e.key[0];
  }

  lemma {:induction false} BracketsStripped(inside: string)
    ensures var v := Strip(" [" + inside + "]"); |v| >= 2 && v[0] == '[' && v[|v| - 1] == ']' && v[1..|v| - 1] == inside
  {
    var v := "[" + inside + "]";
    assert " [" + inside + "]" == " " + v;
    StripPad(v);
    assert v[1..|v| - 1] == inside;
  }

  /** In the middle of an item of the chart that is looked for. */
  ghost predicate InItem(st: State, chart: string) {
    && st.inEntries && !st.broken && st.chartIndent == Some(2) && st.cur == Some(chart)
    && st.open && st.keyIndent == Some(4) && st.found != []
  }

  /** What the line of a key does: its scalar or inline list is kept, a block is opened. */
  function Keyed(st: State, e: Entry): State {
    match e
    case One(key, value) => WithCurrent(st, Current(st)[key := Scalar(value.text)]).(block := None)
    case Long(key, head, _, _) => WithCurrent(st, Current(st)[key := Scalar(Unquote(head))]).(block := None)
    case Inline(key, values) => WithCurrent(st, Current(st)[key := Listed(Texts(values))]).(block := None)
    case Block(key, _, _) => st.(block := Some(key))
    case Nested(key, _) => st.(block := Some(key))
  }

  lemma {:induction false} StripEmpty()
    ensures Strip("") == ""
  {
  }

  lemma {:induction false} ScalarFed(st: State, e: Entry, chart: string)
    requires InItem(st, chart) && ValidEntry(e) && e.One?
    ensures FeedField(st, Line(4, KeyLine(e))) == Keyed(st, e)
  {
    KeyLineParts(e);
    PrintReads(e.value);
    StripPad(Print(e.value));
    hide Readable, Print, Unquote, Strip, Stripped, KeyLine, ValidKey, Colon;
  }

  lemma {:induction false} LongFed(st: State, e: Entry, chart: string)
    requires InItem(st, chart) && ValidEntry(e) && e.Long?
    ensures FeedField(st, Line(4, KeyLine(e))) == Keyed(st, e)
  {
    KeyLineParts(e);
    StripPad(e.head);
    hide Unquote, Strip, KeyLine, ValidKey, Colon;
  }

  lemma {:induction false} BracketsFed(st: State, indent: nat, text: string, c: nat, key: string, v: string)
    requires !StartsWith(text, "- ") && st.keyIndent == Some(indent) && Colon(text) == Some(c)
    requires Strip(text[..c]) == key && Strip(text[c + 1..]) == v && |v| >= 2 && v[0] == '[' && v[|v| - 1] == ']'
    ensures FeedField(st, Line(indent, text))
         == WithCurrent(st, Current(st)[key := Listed(InlineParts(SplitOn(v[1..|v| - 1], ',')))]).(block := None)
  {
    hide Strip, SplitOn, InlineParts, WithCurrent, Current, Unquote, Colon;
  }

  lemma {:induction false} InlineFed(st: State, e: Entry, chart: string)
    requires InItem(st, chart) && ValidEntry(e) && e.Inline?
    ensures FeedField(st, Line(4, KeyLine(e))) == Keyed(st, e)
  {
    KeyLineParts(e);
    BracketsStripped(JoinWith(InlineTexts(e.values), ','));
    InlineJoined(e.values);
    hide FeedField, JoinWith, SplitOn, InlineParts, InlineTexts, Texts, Strip, Stripped, KeyLine, ValidKey, ValidEntry, Readable, Print, Unquote;
    hide Colon, WithCurrent, Current;
    assert Rest(e) == " [" + JoinWith(InlineTexts(e.values), ',') + "]";
    BracketsFed(st, 4, KeyLine(e), |e.key|, e.key, Strip(Rest(e)));
  }

  lemma {:induction false} OpensBlock(st: State, e: Entry, chart: string)
    requires InItem(st, chart) && ValidEntry(e) && (e.Block? || e.Nested?)
    ensures FeedField(st, Line(4, KeyLine(e))) == Keyed(st, e)
  {
    KeyLineParts(e);
    StripEmpty();
    hide Strip, Stripped;
  }

  lemma {:induction false} KeyFed(st: State, e: Entry, chart: string)
    requires InItem(st, chart) && ValidEntry(e)
    ensures FeedField(st, Line(4, KeyLine(e))) == Keyed(st, e)
  {
    match e {
      case One(_, _) => ScalarFed(st, e, chart);
      case Long(_, _, _, _) => LongFed(st, e, chart);
      case Inline(_, _) => InlineFed(st, e, chart);
      case Block(_, _, _) => OpensBlock(st, e, chart);
      case Nested(_, _) => OpensBlock(st, e, chart);
    }
  }

  lemma {:induction false} DeepIgnored(st: State, lines: seq<Line>, chart: string)
    requires InItem(st, chart) && st.block.None?
    requires forall l :: l in lines ==> l.indent > 4
    ensures FeedAll(st, lines, chart) == st
    decreases |lines|
  {
    if lines == [] {
    } else {
      assert lines[0] in lines && forall l :: l in lines[1..] ==> l in lines;
      DeepIgnored(st, lines[1..], chart);
    }
  }

  lemma {:induction false} WithTwice(st: State, a: Item, b: Item)
    requires st.found != []
    ensures Current(WithCurrent(st, a)) == a && WithCurrent(WithCurrent(st, a), b) == WithCurrent(st, b)
    ensures WithCurrent(st, Current(st)) == st
  {
    assert st.found == st.found[..|st.found| - 1] + [Current(st)];
  }

  /** `item` with the dashes of `below` added to what `key` already holds. */
  function Grown(item: Item, key: string, texts: seq<string>): Item {
    if texts == [] then item
    else item[key := Listed((if key in item && item[key].Listed? then item[key].texts else []) + texts)]
  }

  /** Lines below a key: dashes at the keys' indent or deeper, anything else deeper. */
  ghost predicate Under(lines: seq<Line>) {
    forall l :: l in lines ==> Counts(l) && l.indent >= 4 && (IsDash(l) || l.indent > 4)
  }

  lemma {:induction false} UnderFed(st: State, lines: seq<Line>, key: string, chart: string)
    requires InItem(st, chart) && st.block == Some(key) && key != "" && Under(lines)
    requires key in Current(st) ==> Current(st)[key].Listed?
    ensures FeedAll(st, lines, chart) == WithCurrent(st, Grown(Current(st), key, DashTexts(lines)))
    decreases |lines|
  {
    if lines == [] {
      WithTwice(st, Current(st), Current(st));
    } else {
      var l := lines[0];
      assert l in lines && forall x :: x in lines[1..] ==> x in lines;
      var s1 := Feed(st, l, chart);
      if IsDash(l) {
        var text := Unquote(l.text[2..]);
        DashFed(st, l, key, chart);
        UnderFed(s1, lines[1..], key, chart);
        GrownTwice(Current(st), key, text, DashTexts(lines[1..]));
        WithTwice(st, Grown(Current(st), key, [text]), Grown(Current(s1), key, DashTexts(lines[1..])));
      } else {
        assert s1 == st;
        assert [] + DashTexts(lines[1..]) == DashTexts(lines[1..]);
        UnderFed(st, lines[1..], key, chart);
      }
    }
  }

  lemma {:induction false} GrownTwice(item: Item, key: string, first: string, rest: seq<string>)
    requires key in item ==> item[key].Listed?
    ensures Grown(Grown(item, key, [first]), key, rest) == Grown(item, key, [first] + rest)
  {
    if rest != [] {
      var had := if key in item then item[key].texts else [];
      assert had + ([first] + rest) == had + [first] + rest;
    } else {
      assert [first] + rest == [first];
    }
  }

  lemma {:induction false} DashFed(st: State, l: Line, key: string, chart: string)
    requires InItem(st, chart) && st.block == Some(key) && key != "" && IsDash(l) && l.indent >= 4
    requires key in Current(st) ==> Current(st)[key].Listed?
    ensures Feed(st, l, chart) == WithCurrent(st, Grown(Current(st), key, [Unquote(l.text[2..])]))
  {
    assert StartsWith(l.text, "-") by {
      assert l.text[0] == '-';
    }
    assert [] + [Unquote(l.text[2..])] == [Unquote(l.text[2..])];
  }

  /** From `st` to `r`, only the item being read (and the block that is open) changed, to `item`. */
  ghost predicate Becomes(st: State, r: State, item: Item) {
    r.(block := st.block) == WithCurrent(st, item)
  }

  lemma {:induction false} OwnDash(w: Written)
    requires Readable(w)
    ensures Stripped("- " + Print(w)) && StartsWith("- " + Print(w), "- ")
  {
    PrintReads(w);
  }

  lemma {:induction false} ElementsUnder(elements: seq<Element>, indent: nat)
    requires ValidElements(elements, indent) && indent >= 4
    ensures Under(ElementLines(elements, indent))
    ensures elements != [] ==> DashTexts(ElementLines(elements, indent)) != []
  {
    if elements == [] {
    } else {
      var x, rest := elements[0], ElementLines(elements[1..], indent);
      assert x in elements && forall y :: y in elements[1..] ==> y in elements;
      ElementsUnder(elements[1..], indent);
      OwnDash(x.value);
      hide Stripped, Print, Readable, Unquote;
      var first := Line(indent, "- " + Print(x.value));
      assert IsDash(first) && Counts(first);
      forall l | l in [first] + (x.deeper + rest)
        ensures Counts(l) && l.indent >= 4 && (IsDash(l) || l.indent > 4)
      {
        assert l == first || l in x.deeper || l in rest;
      }
    }
  }

  lemma {:induction false} BlockUnder(e: Entry)
    requires ValidEntry(e) && (e.Block? || e.Nested?)
    ensures Under(MoreLines(e))
    ensures FieldOf(e, AsRead) == if DashTexts(MoreLines(e)) == [] then None else Some(Listed(DashTexts(MoreLines(e))))
  {
    if e.Block? {
      ElementsUnder(e.elements, e.indent);
    }
  }

  /** The lines below one key of an item add what the key is read as. */
  lemma {:induction false} EntryFed(st: State, e: Entry, chart: string)
    requires InItem(st, chart) && ValidEntry(e) && e.key !in Current(st)
    ensures var r := FeedAll(Keyed(st, e), MoreLines(e), chart);
      Becomes(st, r, WithField(Current(st), e, AsRead)) && InItem(r, chart) && Current(r) == WithField(Current(st), e, AsRead)
  {
    WithTwice(st, WithField(Current(st), e, AsRead), Current(st));
    if e.Block? || e.Nested? {
      BlockUnder(e);
      UnderFed(Keyed(st, e), MoreLines(e), e.key, chart);
      assert [] + DashTexts(MoreLines(e)) == DashTexts(MoreLines(e));
    } else if e.Long? {
      DeepIgnored(Keyed(st, e), e.more, chart);
    }
  }

  lemma {:induction false} KeyLineFed(st: State, e: Entry, chart: string)
    requires InItem(st, chart) && ValidEntry(e)
    ensures Feed(st, Line(4, KeyLine(e)), chart) == FeedField(st, Line(4, KeyLine(e)))
  {
    KeyLineParts(e);
  }

  lemma {:induction false} WholeEntryFed(st: State, e: Entry, rest: seq<Line>, chart: string) returns (s1: State)
    requires InItem(st, chart) && ValidEntry(e) && e.key !in Current(st)
    ensures Becomes(st, s1, WithField(Current(st), e, AsRead)) && InItem(s1, chart) && Current(s1) == WithField(Current(st), e, AsRead)
    ensures FeedAll(st, EntryLines(e) + rest, chart) == FeedAll(s1, rest, chart)
  {
    KeyLineFed(st, e, chart);
    KeyFed(st, e, chart);
    EntryFed(st, e, chart);
    s1 := FeedAll(Keyed(st, e), MoreLines(e), chart);
    FeedAppend(st, EntryLines(e), rest, chart);
    FeedOne(st, Line(4, KeyLine(e)), MoreLines(e), chart);
  }

  ghost predicate NewKeys(item: Item, es: seq<Entry>) {
    && (forall e :: e in es ==> ValidEntry(e) && e.key !in item)
    && forall i, j :: 0 <= i < j < |es| ==> es[i].key != es[j].key
  }

  lemma {:induction false} NewKeysTail(item: Item, es: seq<Entry>)
    requires NewKeys(item, es) && es != []
    ensures es[0] in es && NewKeys(WithField(item, es[0], AsRead), es[1..])
  {
    forall x | x in es[1..]
      ensures ValidEntry(x) && x.key !in WithField(item, es[0], AsRead)
    {
      var i :| 0 <= i < |es| - 1 && es[1..][i] == x;
      assert es[i + 1] == x && es[i + 1].key != es[0].key && x in es;
    }
  }

  lemma {:induction false} EntriesFed(st: State, es: seq<Entry>, chart: string)
    requires InItem(st, chart) && NewKeys(Current(st), es)
    ensures Becomes(st, FeedAll(st, EntriesLines(es), chart), Fields(Current(st), es, AsRead))
    decreases |es|
  {
    WithTwice(st, Fields(Current(st), es, AsRead), Current(st));
    if es == [] {
    } else {
      NewKeysTail(Current(st), es);
      var s1 := WholeEntryFed(st, es[0], EntriesLines(es[1..]), chart);
      EntriesFed(s1, es[1..], chart);
      WithTwice(st, Current(s1), Fields(Current(s1), es[1..], AsRead));
      BecomesTwice(st, s1, FeedAll(s1, EntriesLines(es[1..]), chart), Current(s1), Fields(Current(s1), es[1..], AsRead));
    }
  }

  lemma {:induction false} BecomesTwice(a: State, b: State, c: State, first: Item, second: Item)
    requires a.found != [] && Becomes(a, b, first) && Becomes(b, c, second)
    ensures Becomes(a, c, second)
  {
    WithTwice(a, first, second);
  }

  // --- items, charts, the whole index -----------------------------------------------------------------

  /** Between two items of the chart that is looked for. */
  ghost predicate InChart(st: State, chart: string) {
    && st.inEntries && !st.broken && st.chartIndent == Some(2) && st.cur == Some(chart)
    && st.keyIndent in {None, Some(4)}
  }

  function NewItem(st: State): State {
    st.(found := st.found + [map[]], open := true, block := None, keyIndent := Some(4))
  }

  lemma {:induction false} DashBegins(st: State, e: Entry, chart: string)
    requires InChart(st, chart) && ValidEntry(e)
    ensures Feed(st, Line(2, "- " + KeyLine(e)), chart) == FeedField(NewItem(st), Line(4, KeyLine(e)))
  {
    KeyLineParts(e);
    var t := "- " + KeyLine(e);
    assert t[2..] == KeyLine(e) && StartsWith(t, "- ") && StartsWith(t, "-");
  }

  lemma {:induction false} ItemFed(st: State, item: seq<Entry>, chart: string)
    requires InChart(st, chart) && ValidItem(item)
    ensures var r := FeedAll(st, ItemLines(item), chart);
      InChart(r, chart) && r.found == st.found + [Fields(map[], item, AsRead)]
  {
    hide Feed, FeedField, ValidEntry, KeyLine, MoreLines;
    var e, s0 := item[0], NewItem(st);
    assert e in item;
    DashBegins(st, e, chart);
    KeyFed(s0, e, chart);
    EntryFed(s0, e, chart);
    FeedOne(st, Line(2, "- " + KeyLine(e)), MoreLines(e) + EntriesLines(item[1..]), chart);
    FeedAppend(Keyed(s0, e), MoreLines(e), EntriesLines(item[1..]), chart);
    var s1 := FeedAll(Keyed(s0, e), MoreLines(e), chart);
    assert Current(s0) == map[] && NewKeys(map[], item);
    NewKeysTail(map[], item);
    EntriesFed(s1, item[1..], chart);
    BecomesTwice(s0, s1, FeedAll(s1, EntriesLines(item[1..]), chart), Current(s1), Fields(Current(s1), item[1..], AsRead));
  }

  lemma {:induction false} ItemsFed(st: State, items: seq<seq<Entry>>, chart: string)
    requires InChart(st, chart) && ValidItems(items)
    ensures var r := FeedAll(st, ItemsLines(items), chart);
      InChart(r, chart) && r.found == st.found + Items(items, AsRead)
    decreases |items|
  {
    if items == [] {
      assert st.found + [] == st.found;
    } else {
      hide ValidItem, Fields, ItemLines, Feed;
      FeedAppend(st, ItemLines(items[0]), ItemsLines(items[1..]), chart);
      ItemFed(st, items[0], chart);
      var s1 := FeedAll(st, ItemLines(items[0]), chart);
      ItemsFed(s1, items[1..], chart);
      AppendAssoc(st.found, [Fields(map[], items[0], AsRead)], Items(items[1..], AsRead));
    }
  }

  /** Under `entries:`, at the start of a chart. */
  ghost predicate InEntries(st: State) {
    st.inEntries && !st.broken && st.chartIndent in {None, Some(2)}
  }

  /** A line that belongs to some item: never a chart name. */
  ghost predicate ItemLine(l: Line) {
    l.indent != 0 && (StartsWith(l.text, "-") || l.indent != 2)
  }

  lemma {:induction false} OtherChartIgnored(st: State, lines: seq<Line>, chart: string)
    requires InEntries(st) && st.chartIndent == Some(2) && st.cur != Some(chart) && forall l :: l in lines ==> ItemLine(l)
    ensures FeedAll(st, lines, chart) == st
    decreases |lines|
  {
    if lines == [] {
    } else {
      assert lines[0] in lines && forall l :: l in lines[1..] ==> l in lines;
      OtherChartIgnored(st, lines[1..], chart);
    }
  }

  lemma {:induction false} UnderAreItemLines(lines: seq<Line>)
    requires Under(lines)
    ensures forall l :: l in lines ==> ItemLine(l)
  {
    forall l | l in lines
      ensures ItemLine(l)
    {
      assert IsDash(l) ==> l.text[0] == '-';
    }
  }

  lemma {:induction false} MoreAreItemLines(e: Entry)
    requires ValidEntry(e)
    ensures forall l :: l in MoreLines(e) ==> ItemLine(l)
  {
    if e.Block? || e.Nested? {
      BlockUnder(e);
      UnderAreItemLines(MoreLines(e));
    }
  }

  lemma {:induction false} EntriesAreItemLines(es: seq<Entry>)
    requires forall e :: e in es ==> ValidEntry(e)
    ensures forall l :: l in EntriesLines(es) ==> ItemLine(l)
  {
    if es == [] {
    } else {
      assert es[0] in es && forall e :: e in es[1..] ==> e in es;
      MoreAreItemLines(es[0]);
      EntriesAreItemLines(es[1..]);
    }
  }

  lemma {:induction false} ItemsAreItemLines(items: seq<seq<Entry>>)
    requires ValidItems(items)
    ensures forall l :: l in ItemsLines(items) ==> ItemLine(l)
  {
    if items == [] {
    } else {
      var item := items[0];
      assert item[0] in item && forall e :: e in item[1..] ==> e in item;
      MoreAreItemLines(item[0]);
      EntriesAreItemLines(item[1..]);
      ItemsAreItemLines(items[1..]);
      assert StartsWith("- " + KeyLine(item[0]), "-");
    }
  }

  lemma {:induction false} NameFed(st: State, name: Written, chart: string)
    requires InEntries(st) && Readable(name)
    ensures Feed(st, Line(2, Print(name) + ":"), chart)
         == st.(chartIndent := Some(2), cur := Some(name.text), open := false, keyIndent := None)
  {
    PrintReads(name);
    var t := Print(name) + ":";
    assert t[..|t| - 1] == Print(name) && t[0] == Print(name)[0];
  }

  lemma {:induction false} ChartFed(st: State, c: Chart, chart: string)
    requires InEntries(st) && ValidChart(c)
    ensures var r := FeedAll(st, ChartLines(c), chart);
      InEntries(r) && r.found == st.found + (if c.name.text == chart then Items(c.items, AsRead) else [])
  {
    var s0 := st.(chartIndent := Some(2), cur := Some(c.name.text), open := false, keyIndent := None);
    NameFed(st, c.name, chart);
    FeedOne(st, Line(2, Print(c.name) + ":"), ItemsLines(c.items), chart);
    if c.name.text == chart {
      ItemsFed(s0, c.items, chart);
    } else {
      ItemsAreItemLines(c.items);
      OtherChartIgnored(s0, ItemsLines(c.items), chart);
      assert st.found + [] == st.found;
    }
  }

  lemma {:induction false} ChartsFed(st: State, cs: seq<Chart>, chart: string)
    requires InEntries(st) && ValidCharts(cs)
    ensures var r := FeedAll(st, ChartsLines(cs), chart); InEntries(r) && r.found == st.found + Versions(cs, chart, AsRead)
    decreases |cs|
  {
    if cs == [] {
      assert st.found + [] == st.found;
    } else {
      assert ValidChart(cs[0]) && ValidCharts(cs[1..]);
      hide ValidCharts, ValidChart, ChartLines, Items, Feed;
      FeedAppend(st, ChartLines(cs[0]), ChartsLines(cs[1..]), chart);
      ChartFed(st, cs[0], chart);
      var s1 := FeedAll(st, ChartLines(cs[0]), chart);
      ChartsFed(s1, cs[1..], chart);
      AppendAssoc(st.found, if cs[0].name.text == chart then Items(cs[0].items, AsRead) else [], Versions(cs[1..], chart, AsRead));
    }
  }

  /** Other top-level keys and whatever is below them. */
  ghost predicate Aside(lines: seq<Line>) {
    Line(0, "entries:") !in lines
  }

  lemma {:induction false} AsideIgnored(st: State, lines: seq<Line>, chart: string)
    requires Aside(lines) && !st.inEntries && !st.broken
    ensures var r := FeedAll(st, lines, chart);
      r.found == st.found && !r.inEntries && !r.broken && r.chartIndent == st.chartIndent
    decreases |lines|
  {
    if lines == [] {
    } else {
      assert lines[0] in lines && forall l :: l in lines[1..] ==> l in lines;
      AsideIgnored(Feed(st, lines[0], chart), lines[1..], chart);
    }
  }

  lemma {:induction false} AfterIgnored(st: State, lines: seq<Line>, chart: string)
    requires Aside(lines) && !st.broken && (lines != [] ==> lines[0].indent == 0)
    ensures FeedAll(st, lines, chart).found == st.found
  {
    if lines != [] {
      assert lines[0] in lines && forall l :: l in lines[1..] ==> l in lines;
      AsideIgnored(Feed(st, lines[0], chart), lines[1..], chart);
    }
  }

  function IndexLines(before: seq<Line>, cs: seq<Chart>, after: seq<Line>): seq<Line> {
    before + ([Line(0, "entries:")] + (ChartsLines(cs) + after))
  }

  /**
   * The round trip: from an index in that shape, the items of a chart are read
   * in order, whatever the other charts and the other top-level keys are; with
   * the scalar and list fields they have in the index if and only if no scalar
   * goes on below its line and no dash is deeper than a list's own dashes.
   */
  lemma {:induction false} IndexReads(before: seq<Line>, cs: seq<Chart>, after: seq<Line>, chart: string)
    requires Aside(before) && Aside(after) && (after != [] ==> after[0].indent == 0)
    requires ValidCharts(cs)
    ensures var found := FeedAll(START, IndexLines(before, cs, after), chart).found;
      found == Versions(cs, chart, AsRead) && (found == Versions(cs, chart, Meant) <==> SimpleCharts(cs, chart))
  {
    VersionsIff(cs, chart);
    var entries := Line(0, "entries:");
    FeedAppend(START, before, [entries] + (ChartsLines(cs) + after), chart);
    AsideIgnored(START, before, chart);
    var s0 := FeedAll(START, before, chart);
    FeedOne(s0, entries, ChartsLines(cs) + after, chart);
    var s1 := Feed(s0, entries, chart);
    FeedAppend(s1, ChartsLines(cs), after, chart);
    ChartsFed(s1, cs, chart);
    AfterIgnored(FeedAll(s1, ChartsLines(cs), chart), after, chart);
    assert [] + Versions(cs, chart, AsRead) == Versions(cs, chart, AsRead);
  }

  // --- the text of an index ------------------------------------------------------------------------------

  /** A line of the text that says nothing. */
  datatype Skipped = Empty(blanks: string) | Comment(blanks: string, text: string)

  /** Where a line stands: what is skipped above it, and the blanks after its text. */
  datatype Place = Place(above: seq<Skipped>, after: string)

  ghost predicate Blanks(s: string) {
    forall c :: c in s ==> IsBlank(c)
  }

  ghost predicate ValidSkipped(above: seq<Skipped>) {
    forall k :: k in above ==> Blanks(k.blanks)
  }

  ghost predicate ValidPlace(p: Place) {
    ValidSkipped(p.above) && Blanks(p.after)
  }

  function Pad(n: nat): string {
    if n == 0 then "" else " " + Pad(n - 1)
  }

  function SkippedText(above: seq<Skipped>): seq<string> {
    if above == [] then []
    else [match above[0] case Empty(blanks) => blanks case Comment(blanks, text) => blanks + "#" + text] + SkippedText(above[1..])
  }

  /** The lines of the text that shows `lines` at their places, `last` below them. */
  function RawLines(lines: seq<Line>, places: seq<Place>, last: seq<Skipped>): seq<string>
    requires |places| == |lines|
  {
    if lines == [] then SkippedText(last)
    else
      SkippedText(places[0].above) + ([Pad(lines[0].indent) + lines[0].text + places[0].after]
                                      + RawLines(lines[1..], places[1..], last))
  }

  lemma {:induction false} BlanksGo(blanks: string, rest: string)
    requires Blanks(blanks)
    ensures StripLeft(blanks + rest) == StripLeft(rest)
  {
    if blanks == "" {
      assert blanks + rest == rest;
    } else {
      assert blanks[0] in blanks && forall c :: c in blanks[1..] ==> c in blanks;
      assert (blanks + rest)[0] == blanks[0] && (blanks + rest)[1..] == blanks[1..] + rest;
      BlanksGo(blanks[1..], rest);
    }
  }

  lemma {:induction false} BlanksGoRight(s: string, blanks: string)
    requires Blanks(blanks) && Stripped(s)
    ensures StripRight(s + blanks) == s
    decreases |blanks|
  {
    if blanks == "" {
      assert s + blanks == s;
    } else {
      var n := |blanks| - 1;
      assert blanks[n] in blanks && forall c :: c in blanks[..n] ==> c in blanks;
      assert (s + blanks)[..|s| + n] == s + blanks[..n] && (s + blanks)[|s| + n] == blanks[n];
      BlanksGoRight(s, blanks[..n]);
    }
  }

  lemma {:induction false} PadIsBlank(n: nat)
    ensures |Pad(n)| == n && Blanks(Pad(n))
  {
    if n == 0 {
    } else {
      PadIsBlank(n - 1);
    }
  }

  lemma {:induction false} PadCounts(n: nat, rest: string)
    requires rest != "" && rest[0] != ' '
    ensures Spaces(Pad(n) + rest) == n
  {
    if n == 0 {
      assert Pad(n) + rest == rest;
    } else {
      assert (Pad(n) + rest)[1..] == Pad(n - 1) + rest;
      PadCounts(n - 1, rest);
    }
  }

  lemma {:induction false} LinesAppend(a: seq<string>, b: seq<string>)
    ensures Lines(a + b) == Lines(a) + Lines(b)
  {
    if a == [] {
      assert a + b == b;
    } else {
      assert (a + b)[0] == a[0] && (a + b)[1..] == a[1..] + b;
      hide Strip, Spaces, Significant;
      LinesAppend(a[1..], b);
      AppendAssoc(if Significant(a[0]) then [Line(Spaces(a[0]), Strip(a[0]))] else [], Lines(a[1..]), Lines(b));
    }
  }

  lemma {:induction false} SkippedReads(above: seq<Skipped>)
    requires ValidSkipped(above)
    ensures Lines(SkippedText(above)) == []
  {
    if above == [] {
    } else {
      var k := above[0];
      assert k in above && forall x :: x in above[1..] ==> x in above;
      SkippedReads(above[1..]);
      match k {
        case Empty(blanks) =>
          BlanksGo(blanks, "");
          assert blanks + "" == blanks;
        case Comment(blanks, text) =>
          BlanksGo(blanks, "#" + text);
          assert blanks + "#" + text == blanks + ("#" + text);
      }
    }
  }

  /** One line that counts is read back with its indent, without the blanks around it. */
  lemma {:induction false} LineReads(l: Line, after: string)
    requires Counts(l) && Blanks(after)
    ensures var raw := Pad(l.indent) + l.text + after; Significant(raw) && Line(Spaces(raw), Strip(raw)) == l
  {
    var rest := l.text + after;
    assert Pad(l.indent) + l.text + after == Pad(l.indent) + rest && rest[0] == l.text[0];
    PadIsBlank(l.indent);
    PadCounts(l.indent, rest);
    BlanksGo(Pad(l.indent), rest);
    BlanksGoRight(l.text, after);
  }

  /** The lines of a text are read back, whatever blanks follow them and whatever is skipped in between. */
  lemma {:induction false} RawReads(lines: seq<Line>, places: seq<Place>, last: seq<Skipped>)
    requires |places| == |lines| && (forall l :: l in lines ==> Counts(l))
    requires (forall p :: p in places ==> ValidPlace(p)) && ValidSkipped(last)
    ensures Lines(RawLines(lines, places, last)) == lines
    decreases |lines|
  {
    if lines == [] {
      SkippedReads(last);
    } else {
      assert lines[0] in lines && forall l :: l in lines[1..] ==> l in lines;
      assert places[0] in places && forall p :: p in places[1..] ==> p in places;
      var raw, rest := Pad(lines[0].indent) + lines[0].text + places[0].after, RawLines(lines[1..], places[1..], last);
      RawReads(lines[1..], places[1..], last);
      LineReads(lines[0], places[0].after);
      SkippedReads(places[0].above);
      LinesAppend(SkippedText(places[0].above), [raw] + rest);
      assert ([raw] + rest)[1..] == rest;
      assert [] + ([lines[0]] + lines[1..]) == lines;
    }
  }

  // --- every line of an index counts -----------------------------------------------------------------------

  lemma {:induction false} EntryCounts(e: Entry)
    requires ValidEntry(e)
    ensures forall l :: l in EntryLines(e) ==> Counts(l)
    ensures Counts(Line(2, "- " + KeyLine(e)))
  {
    KeyLineParts(e);
    assert KeyLine(e)[0] == e.key[0];
    if e.Block? || e.Nested? {
      BlockUnder(e);
    }
  }

  lemma {:induction false} EntriesCount(es: seq<Entry>)
    requires forall e :: e in es ==> ValidEntry(e)
    ensures forall l :: l in EntriesLines(es) ==> Counts(l)
  {
    if es == [] {
    } else {
      assert es[0] in es && forall e :: e in es[1..] ==> e in es;
      EntryCounts(es[0]);
      EntriesCount(es[1..]);
    }
  }

  lemma {:induction false} ItemsCount(items: seq<seq<Entry>>)
    requires ValidItems(items)
    ensures forall l :: l in ItemsLines(items) ==> Counts(l)
  {
    if items == [] {
    } else {
      var item := items[0];
      assert item[0] in item && forall e :: e in item[1..] ==> e in item;
      EntryCounts(item[0]);
      assert forall l :: l in MoreLines(item[0]) ==> l in EntryLines(item[0]);
      EntriesCount(item[1..]);
      ItemsCount(items[1..]);
    }
  }

  lemma {:induction false} ChartCounts(c: Chart)
    requires ValidChart(c)
    ensures forall l :: l in ChartLines(c) ==> Counts(l)
  {
    PrintReads(c.name);
    assert Print(c.name)[0] != '#';
    ItemsCount(c.items);
    hide ItemsLines, ValidItems, Readable, Print;
    assert Counts(Line(2, Print(c.name) + ":"));
  }

  lemma {:induction false} ChartsCount(cs: seq<Chart>)
    requires ValidCharts(cs)
    ensures forall l :: l in ChartsLines(cs) ==> Counts(l)
  {
    if cs == [] {
    } else {
      assert ValidChart(cs[0]) && ValidCharts(cs[1..]);
      ChartCounts(cs[0]);
      ChartsCount(cs[1..]);
    }
  }

  lemma {:induction false} IndexCounts(before: seq<Line>, cs: seq<Chart>, after: seq<Line>)
    requires (forall l :: l in before + after ==> Counts(l)) && forall l :: l in ChartsLines(cs) ==> Counts(l)
    ensures forall l :: l in IndexLines(before, cs, after) ==> Counts(l)
  {
    hide ChartsLines;
    forall l | l in IndexLines(before, cs, after)
      ensures Counts(l)
    {
      assert l in before || l == Line(0, "entries:") || l in ChartsLines(cs) || l in after;
      assert l in before || l in after ==> l in before + after;
    }
  }

  /**
   * The round trip on the text: the same, whatever blank lines and comments
   * stand between the lines and whatever blanks end them.
   */
  lemma {:induction false} TextReads(before: seq<Line>, cs: seq<Chart>, after: seq<Line>, places: seq<Place>,
                                     last: seq<Skipped>, chart: string)
    requires Aside(before) && Aside(after) && (after != [] ==> after[0].indent == 0) && ValidCharts(cs)
    requires forall l :: l in before + after ==> Counts(l)
    requires |places| == |IndexLines(before, cs, after)|
    requires (forall p :: p in places ==> ValidPlace(p)) && ValidSkipped(last)
    ensures var found := Entries(RawLines(IndexLines(before, cs, after), places, last), chart);
      found == Versions(cs, chart, AsRead) && (found == Versions(cs, chart, Meant) <==> SimpleCharts(cs, chart))
  {
    ChartsCount(cs);
    IndexReads(before, cs, after, chart);
    IndexCounts(before, cs, after);
    hide Counts, ValidCharts, Aside, IndexLines, Lines, RawLines, Feed, FeedAll;
    RawReads(IndexLines(before, cs, after), places, last);
  }

  function Entries(raws: seq<string>, chart: string): seq<Item> {
    FeedAll(START, Lines(raws), chart).found
  }

  // --- the loop ------------------------------------------------------------------------------------------

  /** One line of the item being read. */
  method ReadField(st: State, indent: nat, text: string) returns (r: State)
    ensures r == FeedField(st, Line(indent, text))
  {
    r := st;
    var item := Current(st);
    if StartsWith(text, "- ") && st.block.Some? && st.block.value != "" {
      var key := st.block.value;
      var value := Unquote(text[2..]);
      if key !in item {
        r := WithCurrent(st, item[key := Listed([value])]);
      } else if item[key].Listed? {
        r := WithCurrent(st, item[key := Listed(item[key].texts + [value])]);
      } else {
        r := st.(broken := true);
      }
      return;
    }
    var colon := Colon(text);
    if st.keyIndent == Some(indent) && colon.Some? {
      var key, v := Strip(text[..colon.value]), Strip(text[colon.value + 1..]);
      if v == "" {
        r := st.(block := Some(key));
      } else if v[0] == '[' && v[|v| - 1] == ']' {
        r := WithCurrent(st, item[key := Listed(InlineParts(SplitOn(v[1..|v| - 1], ',')))]).(block := None);
      } else {
        r := WithCurrent(st, item[key := Scalar(Unquote(v))]).(block := None);
      }
    }
  }

  /** One line that counts. */
  method ReadLine(st: State, indent: nat, text: string, chart: string) returns (r: State)
    requires !st.broken
    ensures r == Feed(st, Line(indent, text), chart)
  {
    if indent == 0 {
      return st.(inEntries := text == "entries:", cur := None);
    }
    if !st.inEntries {
      return st;
    }
    if !StartsWith(text, "-") && text != "" && text[|text| - 1] == ':' && (st.chartIndent.None? || st.chartIndent == Some(indent)) {
      return st.(chartIndent := Some(indent), cur := Some(Unquote(text[..|text| - 1])), open := false, keyIndent := None);
    }
    if st.cur != Some(chart) {
      return st;
    }
    r := st;
    var s, at := text, indent;
    if BeginsItem(st, Line(indent, text)) {
      r := r.(found := r.found + [map[]], open := true, block := None, keyIndent := Some(indent + 2));
      s, at := Strip(text[2..]), indent + 2;
    }
    if r.open {
      r := ReadField(r, at, s);
    }
  }

  /** `helm_index_entries` on the lines of a text that is not JSON; broken where the program raises. */
  method HelmIndexEntries(raws: seq<string>, chart: string) returns (found: seq<Item>, broken: bool)
    ensures found == Entries(raws, chart) && broken == FeedAll(START, Lines(raws), chart).broken
  {
    var st := START;
    assert raws[0..] == raws;
    for n := 0 to |raws|
      invariant !st.broken && FeedAll(st, Lines(raws[n..]), chart) == FeedAll(START, Lines(raws), chart)
    {
      LinesStep(raws, n);
      if Significant(raws[n]) {
        FeedOne(st, Line(Spaces(raws[n]), Strip(raws[n])), Lines(raws[n + 1..]), chart);
        st := ReadLine(st, Spaces(raws[n]), Strip(raws[n]), chart);
        if st.broken {
          BrokenStays(st, Lines(raws[n + 1..]), chart);
          return st.found, true;
        }
      }
    }
    return st.found, st.broken;
  }

  lemma {:induction false} BrokenStays(st: State, lines: seq<Line>, chart: string)
    requires st.broken
    ensures FeedAll(st, lines, chart) == st
    decreases |lines|
  {
    if lines == [] {
    } else {
      BrokenStays(st, lines[1..], chart);
    }
  }

  lemma {:induction false} LinesStep(raws: seq<string>, n: nat)
    requires n < |raws|
    ensures Lines(raws[n..]) == (if Significant(raws[n]) then [Line(Spaces(raws[n]), Strip(raws[n]))] else []) + Lines(raws[n + 1..])
    ensures !Significant(raws[n]) ==> Lines(raws[n..]) == Lines(raws[n + 1..])
  {
    assert raws[n..][0] == raws[n] && raws[n..][1..] == raws[n + 1..];
  }
}
