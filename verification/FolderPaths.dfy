/**
 * Folder paths (bin/lib/folders.py). The program keeps a path as text
 * (`/A/B`); the model keeps its segments. The lemmas show that the program's
 * textual tests and rewrites are the segment-wise ones.
 */
module FolderPaths {
  import opened Text

  const MAX_DEPTH := 8
  const MAX_PATH := 253
  const MAX_NAME := 63

  /** The segments of a path, outermost first; never empty. */
  type Path = seq<string>

  predicate ControlCharacter(c: char) {
    c < ' ' || c == '\U{7f}'
  }

  /** `check_name` returns None. */
  predicate ValidName(name: string) {
    && 1 <= |name| <= MAX_NAME
    && '/' !in name
    && (forall c :: c in name ==> !ControlCharacter(c))
    && name != "." && name != ".."
  }

  /** `join`: the text of a path. */
  function Written(p: Path): string {
    "/" + JoinWith(p, '/')
  }

  /** `split`: the segments of a path text. */
  function Segments(text: string): Path {
    SplitOn(text, '/')[1..]
  }

  /** `check_path(text)` returns None. */
  predicate CheckPath(text: string) {
    && text != ""
    && text[0] == '/'
    && |text| <= MAX_PATH
    && text != "/"
    && text[|text| - 1] != '/'
    && |Segments(text)| <= MAX_DEPTH
    && forall s :: s in Segments(text) ==> ValidName(s)
  }

  predicate ValidPath(p: Path) {
    && 1 <= |p| <= MAX_DEPTH
    && |Written(p)| <= MAX_PATH
    && forall s :: s in p ==> ValidName(s)
  }

  /** Segments that the program can split apart again. */
  predicate Plain(p: Path) {
    p != [] && forall s :: s in p ==> '/' !in s
  }

  /** `within(path, prefix)` on the texts. */
  predicate WithinText(text: string, prefix: string) {
    text == prefix || prefix + "/" <= text
  }

  lemma {:induction false} SegmentsOfWritten(p: Path)
    requires Plain(p)
    ensures Segments(Written(p)) == p
  {
    SplitJoin(p, '/');
    assert Written(p)[1..] == JoinWith(p, '/');
  }

  /** The text test accepts exactly the written form of the valid paths. */
  lemma {:induction false} CheckPathExact(text: string)
    ensures CheckPath(text) <==> exists p: Path :: ValidPath(p) && text == Written(p)
  {
    if CheckPath(text) {
      JoinSplit(text, '/');
      var parts := SplitOn(text, '/');
      assert parts[0] == "";
      assert text == Written(Segments(text));
      assert ValidPath(Segments(text));
    }
    if p: Path :| ValidPath(p) && text == Written(p) {
      SegmentsOfWritten(p);
      LastSegmentEndsText(p);
    }
  }

  lemma {:induction false} LastSegmentEndsText(p: Path)
    requires Plain(p) && forall s :: s in p ==> s != ""
    ensures JoinWith(p, '/') != ""
    ensures var t := JoinWith(p, '/'); t[|t| - 1] != '/'
  {
    assert p[0] in p;
    if |p| == 1 {
      assert p[0][|p[0]| - 1] in p[0];
    } else {
      assert forall s :: s in p[1..] ==> s in p;
      LastSegmentEndsText(p[1..]);
    }
  }

  lemma {:induction false} WrittenAppend(q: Path, below: Path)
    requires q != [] && below != []
    ensures Written(q + below) == Written(q) + "/" + JoinWith(below, '/')
  {
    JoinAppend(q, below, '/');
  }

  lemma {:induction false} PrefixOfText(p: Path, q: Path)
    requires Plain(p) && Plain(q) && Written(q) + "/" <= Written(p)
    ensures q <= p
  {
    var rest := Written(p)[|Written(q)| + 1..];
    var below := SplitOn(rest, '/');
    JoinSplit(rest, '/');
    WrittenAppend(q, below);
    assert Written(p) == Written(q) + "/" + rest;
    SegmentsOfWritten(q + below);
    SegmentsOfWritten(p);
  }

  /** `path.startswith(prefix + "/")` is the prefix test on segments. */
  lemma {:induction false} WithinTextIsPrefix(p: Path, q: Path)
    requires Plain(p) && Plain(q)
    ensures WithinText(Written(p), Written(q)) <==> q <= p
  {
    if Written(p) == Written(q) {
      SegmentsOfWritten(p);
      SegmentsOfWritten(q);
    } else if Written(q) + "/" <= Written(p) {
      PrefixOfText(p, q);
    } else if q <= p {
      assert p == q + p[|q|..];
      if p != q {
        WrittenAppend(q, p[|q|..]);
      }
    }
  }

  /** `new_prefix + path[len(old_prefix):]` replaces the leading segments. */
  lemma {:induction false} RewriteTextIsReplace(p: Path, old_: Path, new_: Path)
    requires Plain(p) && Plain(old_) && Plain(new_) && old_ <= p
    ensures |Written(old_)| <= |Written(p)|
    ensures Written(new_) + Written(p)[|Written(old_)|..] == Written(new_ + p[|old_|..])
  {
    var below := p[|old_|..];
    assert p == old_ + below;
    if below == [] {
      assert p == old_ && new_ + below == new_;
    } else {
      JoinAppend(old_, below, '/');
      JoinAppend(new_, below, '/');
      assert Written(p)[|Written(old_)|..] == "/" + JoinWith(below, '/');
    }
  }
}
