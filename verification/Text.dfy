/** Options, results, and the string operations the programs share. */
module Wrappers {

  datatype Option<+T> = None | Some(value: T)

  datatype Result<+T, +E> = Ok(value: T) | Err(error: E)
}

/** `str.split(c)` and `c.join(parts)` on a one-character separator. */
module Text {
  import opened Wrappers

  function SplitOn(s: string, c: char): (parts: seq<string>)
    ensures |parts| >= 1
  {
    if s == "" then [""]
    else
      var rest := SplitOn(s[1..], c);
      if s[0] == c then [""] + rest else [[s[0]] + rest[0]] + rest[1..]
  }

  function JoinWith(parts: seq<string>, c: char): string {
    if parts == [] then ""
    else if |parts| == 1 then parts[0]
    else parts[0] + [c] + JoinWith(parts[1..], c)
  }

  /** Characters other than the separator stay in the first part. */
  lemma {:induction false} SplitLead(lead: string, rest: string, c: char)
    requires c !in lead
    ensures SplitOn(lead + rest, c) == [lead + SplitOn(rest, c)[0]] + SplitOn(rest, c)[1..]
  {
    if lead == "" {
      assert lead + rest == rest && lead + SplitOn(rest, c)[0] == SplitOn(rest, c)[0];
    } else {
      assert (lead + rest)[1..] == lead[1..] + rest;
      SplitLead(lead[1..], rest, c);
      assert [lead[0]] + (lead[1..] + SplitOn(rest, c)[0]) == lead + SplitOn(rest, c)[0];
    }
  }

  /** Splitting undoes joining as long as no part holds the separator. */
  lemma {:induction false} SplitJoin(parts: seq<string>, c: char)
    requires |parts| >= 1
    requires forall p :: p in parts ==> c !in p
    ensures SplitOn(JoinWith(parts, c), c) == parts
  {
    if |parts| == 1 {
      SplitLead(parts[0], "", c);
      assert parts[0] + "" == parts[0];
    } else {
      var tail := [c] + JoinWith(parts[1..], c);
      SplitJoin(parts[1..], c);
      assert tail[1..] == JoinWith(parts[1..], c);
      SplitLead(parts[0], tail, c);
      assert JoinWith(parts, c) == parts[0] + tail;
      assert parts[0] + "" == parts[0];
      assert [parts[0]] + parts[1..] == parts;
    }
  }

  lemma {:induction false} JoinSplit(s: string, c: char)
    ensures JoinWith(SplitOn(s, c), c) == s
    ensures forall p :: p in SplitOn(s, c) ==> c !in p
  {
    if s == "" {
    } else {
      JoinSplit(s[1..], c);
    }
  }

  lemma {:induction false} JoinHasNo(parts: seq<string>, sep: char, c: char)
    requires c != sep && forall p :: p in parts ==> c !in p
    ensures c !in JoinWith(parts, sep)
  {
    if parts == [] {
    } else {
      assert parts[0] in parts && forall p :: p in parts[1..] ==> p in parts;
      JoinHasNo(parts[1..], sep, c);
    }
  }

  lemma {:induction false} JoinAppend(a: seq<string>, b: seq<string>, c: char)
    requires a != [] && b != []
    ensures JoinWith(a + b, c) == JoinWith(a, c) + [c] + JoinWith(b, c)
  {
    if |a| == 1 {
      assert (a + b)[1..] == b;
    } else {
      assert (a + b)[1..] == a[1..] + b;
      JoinAppend(a[1..], b, c);
    }
  }

  /** `s.partition(":")`: the text before and after the first colon, if any. */
  function Colon(s: string): (c: Option<nat>)
    ensures c.Some? ==> c.value < |s| && s[c.value] == ':'
  {
    if s == "" then None
    else if s[0] == ':' then Some(0)
    else match Colon(s[1..]) case None => None case Some(i) => Some(i + 1)
  }

  lemma {:induction false} ColonAfter(key: string, rest: string)
    requires ':' !in key
    ensures Colon(key + ":" + rest) == Some(|key|)
  {
    if key != "" {
      assert (key + ":" + rest)[0] == key[0] && (key + ":" + rest)[1..] == key[1..] + ":" + rest;
      ColonAfter(key[1..], rest);
    } else {
      assert key + ":" + rest == ":" + rest;
    }
  }

  predicate IsBlank(c: char) {
    c == ' ' || c == '\t'
  }

  function StripLeft(s: string): (r: string)
    ensures |r| <= |s|
  {
    if s != "" && IsBlank(s[0]) then StripLeft(s[1..]) else s
  }

  function StripRight(s: string): (r: string)
    ensures |r| <= |s|
  {
    if s != "" && IsBlank(s[|s| - 1]) then StripRight(s[..|s| - 1]) else s
  }

  /** `s.strip()` */
  function Strip(s: string): string {
    StripRight(StripLeft(s))
  }

  predicate Stripped(s: string) {
    s != "" && !IsBlank(s[0]) && !IsBlank(s[|s| - 1])
  }

  lemma {:induction false} StripStripped(s: string)
    requires Stripped(s)
    ensures Strip(s) == s
  {
  }

  lemma {:induction false} StripPad(s: string)
    requires Stripped(s)
    ensures Strip(" " + s) == s && Strip(s) == s
  {
    assert (" " + s)[1..] == s;
    assert StripLeft(" " + s) == StripLeft(s) == s;
  }

  lemma {:induction false} AppendAssoc<T>(a: seq<T>, b: seq<T>, c: seq<T>)
    ensures a + b + c == a + (b + c)
  {
  }

  /** `s.lower()` on ASCII text. */
  function Lower(s: string): (r: string)
    ensures |r| == |s| && forall i :: 0 <= i < |s| ==> r[i] == LowerChar(s[i])
  {
    seq(|s|, i requires 0 <= i < |s| => LowerChar(s[i]))
  }

  function LowerChar(c: char): char {
    if 'A' <= c <= 'Z' then (c as int + 32) as char else c
  }

  predicate IsSpace(c: char) {
    c in " \t\n\r"
  }

  predicate IsWord(s: string) {
    s != "" && forall c :: c in s ==> !IsSpace(c)
  }

  function WordEnd(s: string): (n: nat)
    ensures n <= |s| && (forall c :: c in s[..n] ==> !IsSpace(c)) && (n < |s| ==> IsSpace(s[n]))
    ensures s != "" && !IsSpace(s[0]) ==> n > 0
  {
    if s == "" || IsSpace(s[0]) then 0 else 1 + WordEnd(s[1..])
  }

  /** `s.split()` */
  function Words(s: string): (words: seq<string>)
    ensures forall w :: w in words ==> IsWord(w)
    decreases |s|
  {
    if s == "" then []
    else if IsSpace(s[0]) then Words(s[1..])
    else [s[..WordEnd(s)]] + Words(s[WordEnd(s)..])
  }

  lemma {:induction false} WordEndIs(word: string, rest: string)
    requires IsWord(word) && (rest == "" || IsSpace(rest[0]))
    ensures WordEnd(word + rest) == |word|
    decreases |word|
  {
    assert (word + rest)[0] == word[0] && (word + rest)[1..] == word[1..] + rest;
    if |word| > 1 {
      assert forall c :: c in word[1..] ==> c in word;
      WordEndIs(word[1..], rest);
    } else {
      assert word[1..] + rest == rest;
    }
  }

  /** Words joined by spaces are split apart again. */
  lemma {:induction false} WordsOfJoin(words: seq<string>)
    requires forall w :: w in words ==> IsWord(w)
    ensures Words(JoinWith(words, ' ')) == words
    decreases |words|
  {
    if words == [] {
    } else {
      var w := words[0];
      assert w in words && forall x :: x in words[1..] ==> x in words;
      if |words| == 1 {
        WordEndIs(w, "");
        assert w + "" == w && w[|w|..] == "" && w[..|w|] == w;
      } else {
        var rest := [' '] + JoinWith(words[1..], ' ');
        var s := w + rest;
        assert JoinWith(words, ' ') == s;
        WordEndIs(w, rest);
        assert s[..|w|] == w && s[|w|..] == rest && rest[1..] == JoinWith(words[1..], ' ') && s[0] == w[0];
        WordsOfJoin(words[1..]);
      }
    }
  }
}

/** `sorted(set(names))`: the names in order, each once. */
module Names {
  predicate Less(a: string, b: string)
    decreases |a|
  {
    if b == "" then false
    else if a == "" then true
    else a[0] < b[0] || (a[0] == b[0] && Less(a[1..], b[1..]))
  }

  function Insert(x: string, s: seq<string>): seq<string> {
    if s == [] then [x]
    else if x == s[0] then s
    else if Less(x, s[0]) then [x] + s
    else [s[0]] + Insert(x, s[1..])
  }

  function Sorted(names: seq<string>): seq<string> {
    if names == [] then [] else Insert(names[0], Sorted(names[1..]))
  }

  predicate Ascending(s: seq<string>) {
    forall i, j :: 0 <= i < j < |s| ==> Less(s[i], s[j])
  }

  lemma {:induction false} LessTrans(a: string, b: string, c: string)
    requires Less(a, b) && Less(b, c)
    ensures Less(a, c)
    decreases |a|
  {
    if a != "" && a[0] == b[0] == c[0] {
      LessTrans(a[1..], b[1..], c[1..]);
    }
  }

  lemma {:induction false} LessTotal(a: string, b: string)
    ensures Less(a, b) || a == b || Less(b, a)
    ensures !Less(a, a)
    decreases |a|
  {
    if a == "" {
    } else {
      LessTotal(a[1..], if b == "" then "" else b[1..]);
      if b != "" && a[0] == b[0] && a[1..] == b[1..] {
        assert a == [a[0]] + a[1..] && b == [b[0]] + b[1..];
      }
    }
  }

  lemma {:induction false} InsertSorts(x: string, s: seq<string>)
    requires Ascending(s)
    ensures Ascending(Insert(x, s))
    ensures forall y :: y in Insert(x, s) <==> y == x || y in s
  {
    if s != [] && x != s[0] {
      LessTotal(x, s[0]);
      if Less(x, s[0]) {
        forall j | 0 <= j < |s|
          ensures Less(x, s[j])
        {
          if j > 0 {
            LessTrans(x, s[0], s[j]);
          }
        }
      } else {
        InsertSorts(x, s[1..]);
        var rest := Insert(x, s[1..]);
        forall j | 0 <= j < |rest|
          ensures Less(s[0], rest[j])
        {
          assert rest[j] in rest;
          if rest[j] != x {
            var k :| 0 <= k < |s[1..]| && s[1..][k] == rest[j];
            assert s[k + 1] == rest[j];
          }
        }
      }
    }
  }

  /** The same names, each once, in order. */
  lemma {:induction false} SortedHolds(names: seq<string>)
    ensures Ascending(Sorted(names))
    ensures forall x :: x in Sorted(names) <==> x in names
  {
    if names == [] {
    } else {
      SortedHolds(names[1..]);
      InsertSorts(names[0], Sorted(names[1..]));
      assert forall x :: x in names <==> x == names[0] || x in names[1..];
    }
  }
}
