/**
 * The nesting scan that runs before a request file is parsed
 * (bin/harvester-kvm.py, json_depth and read_spec), against the texts that
 * RFC 8259 allows for a value.
 */
module JsonDepth {
  const SPEC_MAX_DEPTH := 32

  // --- values and their texts (RFC 8259, sections 2 to 7) ------------------------------

  /** One character of a string, or one two-character escape; `\uXXXX` is an escape and four plain characters. */
  datatype Piece = Plain(c: char) | Escape(c: char)

  /** A value together with the choices its text leaves open: blanks, spellings, order, repeated names. */
  datatype Value =
    | Scalar(token: string)
    | Text(pieces: seq<Piece>)
    | List(blank: string, items: seq<Item>)
    | Object(blank: string, members: seq<Member>)
  datatype Item = Item(before: string, value: Value, after: string)
  datatype Member = Member(before: string, name: seq<Piece>, colon: string, item: Item)

  ghost predicate Blank(s: string) {
    forall c :: c in s ==> c in " \t\n\r"
  }

  /** A literal name, or the characters a number is made of. */
  ghost predicate Token(s: string) {
    || s in {"true", "false", "null"}
    || (s != "" && forall c :: c in s ==> '0' <= c <= '9' || c in "+-.eE")
  }

  ghost predicate WellFormedPiece(p: Piece) {
    match p
    case Plain(c) => c >= ' ' && c != '"' && c != '\\'
    case Escape(c) => c in "\"\\/bfnrtu"
  }

  ghost predicate WellFormed(v: Value)
    decreases v
  {
    match v
    case Scalar(token) => Token(token)
    case Text(pieces) => forall p :: p in pieces ==> WellFormedPiece(p)
    case List(blank, items) => Blank(blank) && forall i :: i in items ==> WellFormedItem(i)
    case Object(blank, members) => Blank(blank) && forall m :: m in members ==> WellFormedMember(m)
  }

  ghost predicate WellFormedItem(i: Item)
    decreases i
  {
    Blank(i.before) && Blank(i.after) && WellFormed(i.value)
  }

  ghost predicate WellFormedMember(m: Member)
    decreases m
  {
    && Blank(m.before) && Blank(m.colon) && (forall p :: p in m.name ==> WellFormedPiece(p)) && WellFormedItem(m.item)
  }

  function PiecesText(pieces: seq<Piece>): string {
    if pieces == [] then ""
    else (match pieces[0] case Plain(c) => [c] case Escape(c) => ['\\', c]) + PiecesText(pieces[1..])
  }

  function Quoted(pieces: seq<Piece>): string {
    "\"" + (PiecesText(pieces) + "\"")
  }

  function Written(v: Value): string
    decreases v
  {
    match v
    case Scalar(token) => token
    case Text(pieces) => Quoted(pieces)
    case List(blank, items) => "[" + (blank + (WrittenItems(items) + "]"))
    case Object(blank, members) => "{" + (blank + (WrittenMembers(members) + "}"))
  }

  function WrittenItem(i: Item): string
    decreases i
  {
    i.before + (Written(i.value) + i.after)
  }

  function WrittenItems(items: seq<Item>): string
    decreases items
  {
    if items == [] then ""
    else WrittenItem(items[0]) + ((if |items| > 1 then "," else "") + WrittenItems(items[1..]))
  }

  function WrittenMember(m: Member): string
    decreases m
  {
    m.before + (Quoted(m.name) + (m.colon + (":" + WrittenItem(m.item))))
  }

  function WrittenMembers(members: seq<Member>): string
    decreases members
  {
    if members == [] then ""
    else WrittenMember(members[0]) + ((if |members| > 1 then "," else "") + WrittenMembers(members[1..]))
  }

  // --- nesting depth -------------------------------------------------------------------

  function Max(a: int, b: int): int {
    if a < b then b else a
  }

  /** How many lists and objects are open at the deepest point of a value. */
  function Depth(v: Value): nat
    decreases v
  {
    match v
    case Scalar(_) => 0
    case Text(_) => 0
    case List(_, items) => 1 + DepthItems(items)
    case Object(_, members) => 1 + DepthMembers(members)
  }

  function DepthItem(i: Item): nat
    decreases i
  {
    Depth(i.value)
  }

  function DepthItems(items: seq<Item>): nat
    decreases items
  {
    if items == [] then 0 else Max(DepthItem(items[0]), DepthItems(items[1..]))
  }

  function DepthMember(m: Member): nat
    decreases m
  {
    DepthItem(m.item)
  }

  function DepthMembers(members: seq<Member>): nat
    decreases members
  {
    if members == [] then 0 else Max(DepthMember(members[0]), DepthMembers(members[1..]))
  }

  // --- the scan ---------------------------------------------------------------------------

  datatype Scan = Scan(depth: int, deepest: int, inStr: bool, esc: bool)

  function See(s: Scan, ch: char): Scan {
    if s.inStr then
      if s.esc then s.(esc := false)
      else if ch == '\\' then s.(esc := true)
      else if ch == '"' then s.(inStr := false)
      else s
    else if ch == '"' then s.(inStr := true)
    else if ch in "[{" then s.(depth := s.depth + 1, deepest := Max(s.deepest, s.depth + 1))
    else if ch in "]}" then s.(depth := s.depth - 1)
    else s
  }

  function SeeAll(s: Scan, text: string): Scan
    decreases |text|
  {
    if text == "" then s else SeeAll(See(s, text[0]), text[1..])
  }

  /** `json_depth` */
  method Measure(text: string) returns (deepest: int)
    ensures deepest == SeeAll(Scan(0, 0, false, false), text).deepest
  {
    var depth := 0;
    deepest := 0;
    var inStr, esc := false, false;
    assert text[0..] == text;
    for n := 0 to |text|
      invariant SeeAll(Scan(depth, deepest, inStr, esc), text[n..]) == SeeAll(Scan(0, 0, false, false), text)
    {
      var ch := text[n];
      assert text[n..][0] == ch && text[n..][1..] == text[n + 1..];
      if inStr {
        if esc {
          esc := false;
        } else if ch == '\\' {
          esc := true;
        } else if ch == '"' {
          inStr := false;
        }
      } else if ch == '"' {
        inStr := true;
      } else if ch in "[{" {
        depth := depth + 1;
        deepest := Max(deepest, depth);
      } else if ch in "]}" {
        depth := depth - 1;
      }
    }
  }

  lemma {:induction false} SeeAppend(s: Scan, a: string, b: string)
    ensures SeeAll(s, a + b) == SeeAll(SeeAll(s, a), b)
    decreases |a|
  {
    if a == "" {
      assert a + b == b;
    } else {
      assert (a + b)[0] == a[0] && (a + b)[1..] == a[1..] + b;
      SeeAppend(See(s, a[0]), a[1..], b);
    }
  }

  /** Outside a string, at depth `d` with `m` seen so far. */
  function Outside(d: int, m: int): Scan {
    Scan(d, m, false, false)
  }

  ghost predicate Neutral(s: string) {
    forall c :: c in s ==> c !in "\"[{]}"
  }

  lemma {:induction false} NeutralKeeps(d: int, m: int, s: string)
    requires Neutral(s)
    ensures SeeAll(Outside(d, m), s) == Outside(d, m)
  {
    if s == "" {
    } else {
      assert s[0] in s && forall c :: c in s[1..] ==> c in s;
      NeutralKeeps(d, m, s[1..]);
    }
  }

  lemma {:induction false} BlankKeeps(d: int, m: int, s: string)
    requires Blank(s)
    ensures SeeAll(Outside(d, m), s) == Outside(d, m)
  {
    NeutralKeeps(d, m, s);
  }

  lemma {:induction false} CommaKeeps(d: int, m: int, more: bool)
    ensures SeeAll(Outside(d, m), if more then "," else "") == Outside(d, m)
  {
    NeutralKeeps(d, m, if more then "," else "");
  }

  lemma {:induction false} PiecesKeep(d: int, m: int, pieces: seq<Piece>)
    requires forall p :: p in pieces ==> WellFormedPiece(p)
    ensures SeeAll(Scan(d, m, true, false), PiecesText(pieces)) == Scan(d, m, true, false)
  {
    if pieces == [] {
    } else {
      assert pieces[0] in pieces && forall p :: p in pieces[1..] ==> p in pieces;
      var first := match pieces[0] case Plain(c) => [c] case Escape(c) => ['\\', c];
      SeeAppend(Scan(d, m, true, false), first, PiecesText(pieces[1..]));
      match pieces[0] {
        case Plain(c) => assert [c][1..] == "";
        case Escape(c) => assert ['\\', c][1..] == [c] && [c][1..] == "";
      }
      PiecesKeep(d, m, pieces[1..]);
    }
  }

  lemma {:induction false} One(s: Scan, c: char)
    ensures SeeAll(s, [c]) == See(s, c)
  {
    assert [c][1..] == "";
  }

  lemma {:induction false} QuotedKeeps(d: int, m: int, pieces: seq<Piece>)
    requires forall p :: p in pieces ==> WellFormedPiece(p)
    ensures SeeAll(Outside(d, m), Quoted(pieces)) == Outside(d, m)
  {
    SeeAppend(Outside(d, m), "\"", PiecesText(pieces) + "\"");
    One(Outside(d, m), '"');
    SeeAppend(Scan(d, m, true, false), PiecesText(pieces), "\"");
    PiecesKeep(d, m, pieces);
    One(Scan(d, m, true, false), '"');
  }

  lemma {:induction false} ValueSeen(d: int, m: int, v: Value)
    requires WellFormed(v) && d <= m
    ensures SeeAll(Outside(d, m), Written(v)) == Outside(d, Max(m, d + Depth(v)))
    decreases v
  {
    match v
    case Scalar(token) => NeutralKeeps(d, m, token);
    case Text(pieces) => QuotedKeeps(d, m, pieces);
    case List(blank, items) =>
      ItemsSeen(d + 1, Max(m, d + 1), items);
      BracketSeen(d, m, '[', blank, WrittenItems(items), ']', DepthItems(items));
    case Object(blank, members) =>
      MembersSeen(d + 1, Max(m, d + 1), members);
      BracketSeen(d, m, '{', blank, WrittenMembers(members), '}', DepthMembers(members));
  }

  /** A bracket pair adds one level around what it encloses. */
  lemma {:induction false} BracketSeen(d: int, m: int, open: char, blank: string, inside: string, close: char, depth: nat)
    requires (open == '[' && close == ']') || (open == '{' && close == '}')
    requires Blank(blank) && d <= m
    requires SeeAll(Outside(d + 1, Max(m, d + 1)), inside) == Outside(d + 1, Max(Max(m, d + 1), d + 1 + depth))
    ensures SeeAll(Outside(d, m), [open] + (blank + (inside + [close]))) == Outside(d, Max(m, d + 1 + depth))
  {
    var o := Outside(d + 1, Max(m, d + 1));
    SeeAppend(Outside(d, m), [open], blank + (inside + [close]));
    One(Outside(d, m), open);
    SeeAppend(o, blank, inside + [close]);
    BlankKeeps(d + 1, Max(m, d + 1), blank);
    SeeAppend(o, inside, [close]);
    One(Outside(d + 1, Max(Max(m, d + 1), d + 1 + depth)), close);
  }

  lemma {:induction false} ItemSeen(d: int, m: int, i: Item)
    requires WellFormedItem(i) && d <= m
    ensures SeeAll(Outside(d, m), WrittenItem(i)) == Outside(d, Max(m, d + DepthItem(i)))
    decreases i
  {
    hide Blank, See, Token, WellFormedPiece;
    SeeAppend(Outside(d, m), i.before, Written(i.value) + i.after);
    BlankKeeps(d, m, i.before);
    SeeAppend(Outside(d, m), Written(i.value), i.after);
    ValueSeen(d, m, i.value);
    BlankKeeps(d, Max(m, d + DepthItem(i)), i.after);
  }

  lemma {:induction false} ItemsSeen(d: int, m: int, items: seq<Item>)
    requires d <= m && forall i :: i in items ==> WellFormedItem(i)
    ensures SeeAll(Outside(d, m), WrittenItems(items)) == Outside(d, Max(m, d + DepthItems(items)))
    decreases items
  {
    if items == [] {
    } else {
      assert items[0] in items && forall i :: i in items[1..] ==> i in items;
      var comma := if |items| > 1 then "," else "";
      var m1 := Max(m, d + DepthItem(items[0]));
      SeeAppend(Outside(d, m), WrittenItem(items[0]), comma + WrittenItems(items[1..]));
      ItemSeen(d, m, items[0]);
      SeeAppend(Outside(d, m1), comma, WrittenItems(items[1..]));
      CommaKeeps(d, m1, |items| > 1);
      ItemsSeen(d, m1, items[1..]);
    }
  }

  lemma {:induction false} MemberSeen(d: int, m: int, x: Member)
    requires WellFormedMember(x) && d <= m
    ensures SeeAll(Outside(d, m), WrittenMember(x)) == Outside(d, Max(m, d + DepthMember(x)))
    decreases x
  {
    hide Blank, See, Token, WellFormedPiece;
    var o := Outside(d, m);
    SeeAppend(o, x.before, Quoted(x.name) + (x.colon + (":" + WrittenItem(x.item))));
    BlankKeeps(d, m, x.before);
    SeeAppend(o, Quoted(x.name), x.colon + (":" + WrittenItem(x.item)));
    QuotedKeeps(d, m, x.name);
    SeeAppend(o, x.colon, ":" + WrittenItem(x.item));
    BlankKeeps(d, m, x.colon);
    SeeAppend(o, ":", WrittenItem(x.item));
    NeutralKeeps(d, m, ":");
    ItemSeen(d, m, x.item);
  }

  lemma {:induction false} MembersSeen(d: int, m: int, members: seq<Member>)
    requires d <= m && forall x :: x in members ==> WellFormedMember(x)
    ensures SeeAll(Outside(d, m), WrittenMembers(members)) == Outside(d, Max(m, d + DepthMembers(members)))
    decreases members
  {
    if members == [] {
    } else {
      assert members[0] in members && forall x :: x in members[1..] ==> x in members;
      var comma := if |members| > 1 then "," else "";
      var m1 := Max(m, d + DepthMember(members[0]));
      SeeAppend(Outside(d, m), WrittenMember(members[0]), comma + WrittenMembers(members[1..]));
      MemberSeen(d, m, members[0]);
      SeeAppend(Outside(d, m1), comma, WrittenMembers(members[1..]));
      CommaKeeps(d, m1, |members| > 1);
      MembersSeen(d, m1, members[1..]);
    }
  }

  // --- results ---------------------------------------------------------------------------

  function MeasuredDepth(text: string): int {
    SeeAll(Outside(0, 0), text).deepest
  }

  /** `read_spec` lets the text through to the parser. */
  ghost predicate LetThrough(text: string) {
    MeasuredDepth(text) <= SPEC_MAX_DEPTH
  }

  /** Whatever blanks and spellings the text uses, the scan measures the depth of its value. */
  lemma {:induction false} DepthIsExact(v: Item)
    requires WellFormedItem(v)
    ensures MeasuredDepth(WrittenItem(v)) == Depth(v.value)
    ensures LetThrough(WrittenItem(v)) <==> Depth(v.value) <= SPEC_MAX_DEPTH
  {
    ItemSeen(0, 0, v);
  }

  lemma {:induction false} DeepestGrows(s: Scan, text: string)
    ensures s.deepest <= SeeAll(s, text).deepest
    decreases |text|
  {
    if text == "" {
    } else {
      DeepestGrows(See(s, text[0]), text[1..]);
    }
  }

  /** A text that is refused stays refused whatever follows, well formed or not. */
  lemma {:induction false} PrefixRefused(text: string, more: string)
    ensures MeasuredDepth(text) <= MeasuredDepth(text + more)
    ensures !LetThrough(text) ==> !LetThrough(text + more)
  {
    SeeAppend(Outside(0, 0), text, more);
    DeepestGrows(SeeAll(Outside(0, 0), text), more);
  }
}
