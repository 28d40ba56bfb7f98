/**
 * The few JavaScript string operations the core relies on: `includes`,
 * `split` with a non-empty separator, and the emptiness test on `trim()`.
 * Strings are sequences of characters.
 */
module Text {

  /** `p` is a prefix of `s`. */
  predicate StartsWith(s: string, p: string) {
    |p| <= |s| && s[..|p|] == p
  }

  /** `s.includes(p)`: `p` occurs somewhere in `s`. */
  predicate Contains(s: string, p: string)
    decreases |s|
  {
    StartsWith(s, p) || (|s| > 0 && Contains(s[1..], p))
  }

  /**
   * `s.split(sep)` for a non-empty separator: the text is scanned left to
   * right, and at each position where `sep` starts the current piece ends and
   * the scan resumes after the separator. There is always at least one piece.
   */
  function Split(s: string, sep: string): (parts: seq<string>)
    requires |sep| > 0
    ensures |parts| >= 1
    decreases |s|
  {
    if StartsWith(s, sep) then [""] + Split(s[|sep|..], sep)
    else if |s| == 0 then [""]
    else
      var rest := Split(s[1..], sep);
      [[s[0]] + rest[0]] + rest[1..]
  }

  /** `parts.join(sep)` for a non-empty list of parts. */
  function Join(parts: seq<string>, sep: string): string
    requires |parts| > 0
  {
    if |parts| == 1 then parts[0] else parts[0] + sep + Join(parts[1..], sep)
  }

  /** Joining a list with a first element in front. */
  lemma JoinCons(p: string, rest: seq<string>, sep: string)
    requires |rest| > 0
    ensures Join([p] + rest, sep) == p + sep + Join(rest, sep)
  {
    assert ([p] + rest)[1..] == rest;
  }

  /** Splitting loses nothing: joining the pieces with the separator gives the text back. */
  lemma {:induction false} SplitJoin(s: string, sep: string)
    requires |sep| > 0
    ensures Join(Split(s, sep), sep) == s
    decreases |s|
  {
    if StartsWith(s, sep) {
      var t := s[|sep|..];
      SplitJoin(t, sep);
      SplitJoinAtSeparator(s, sep);
    } else if |s| > 0 {
      SplitJoin(s[1..], sep);
      SplitJoinAtCharacter(s, sep);
    }
  }

  /** The step of `SplitJoin` where the text starts with the separator. */
  lemma SplitJoinAtSeparator(s: string, sep: string)
    requires |sep| > 0 && StartsWith(s, sep)
    requires Join(Split(s[|sep|..], sep), sep) == s[|sep|..]
    ensures Join(Split(s, sep), sep) == s
  {
    var t := s[|sep|..];
    JoinCons("", Split(t, sep), sep);
    assert s == sep + t;
  }

  /** The step of `SplitJoin` where the first character starts the first piece. */
  lemma SplitJoinAtCharacter(s: string, sep: string)
    requires |sep| > 0 && !StartsWith(s, sep) && |s| > 0
    requires Join(Split(s[1..], sep), sep) == s[1..]
    ensures Join(Split(s, sep), sep) == s
  {
    var rest := Split(s[1..], sep);
    assert Split(s, sep) == [[s[0]] + rest[0]] + rest[1..];
    JoinExtendFirst(s[0], rest, sep);
    assert s == [s[0]] + s[1..];
  }

  /** Putting a character in front of the first part puts it in front of the joined text. */
  lemma JoinExtendFirst(c: char, parts: seq<string>, sep: string)
    requires |parts| > 0
    ensures Join([[c] + parts[0]] + parts[1..], sep) == [c] + Join(parts, sep)
  {
    if |parts| > 1 {
      var j := Join(parts[1..], sep);
      JoinCons([c] + parts[0], parts[1..], sep);
      JoinCons(parts[0], parts[1..], sep);
      assert parts == [parts[0]] + parts[1..];
      assert [c] + parts[0] + sep + j == [c] + (parts[0] + sep + j);
    }
  }

  /** A prefix of a prefix of `s` is a prefix of `s`. */
  lemma PrefixOfPrefix(s: string, q: string, p: string)
    requires StartsWith(s, q) && StartsWith(q, p)
    ensures StartsWith(s, p)
  {
    assert s[..|p|] == q[..|p|];
  }

  /** No piece produced by `Split` contains the separator. */
  lemma {:induction false} SplitPiecesFree(s: string, sep: string)
    requires |sep| > 0
    ensures forall i :: 0 <= i < |Split(s, sep)| ==> !Contains(Split(s, sep)[i], sep)
    decreases |s|
  {
    var parts := Split(s, sep);
    assert !Contains("", sep);
    if StartsWith(s, sep) {
      SplitPiecesFree(s[|sep|..], sep);
      assert parts == [""] + Split(s[|sep|..], sep);
    } else if |s| == 0 {
    } else {
      var rest := Split(s[1..], sep);
      SplitPiecesFree(s[1..], sep);
      SplitJoin(s[1..], sep);
      var piece := [s[0]] + rest[0];
      assert piece[1..] == rest[0];
      assert StartsWith(s, piece) by {
        assert s == [s[0]] + s[1..];
        assert s[1..] == Join(rest, sep);
        assert StartsWith(Join(rest, sep), rest[0]);
      }
      if StartsWith(piece, sep) {
        PrefixOfPrefix(s, piece, sep);
        assert false;
      }
      assert !Contains(piece, sep);
      assert parts == [piece] + rest[1..];
    }
  }

  /** A text holding `p` is at least as long as `p`. */
  lemma {:induction false} ContainsLength(t: string, p: string)
    requires Contains(t, p)
    ensures |p| <= |t|
    decreases |t|
  {
    if !StartsWith(t, p) {
      ContainsLength(t[1..], p);
    }
  }

  /** When there are several pieces, the text starts with the first piece and the separator. */
  lemma FirstPieceThenSeparator(s: string, sep: string)
    requires |sep| > 0 && |Split(s, sep)| >= 2
    ensures StartsWith(s, Split(s, sep)[0] + sep)
  {
    var parts := Split(s, sep);
    SplitJoin(s, sep);
    JoinCons(parts[0], parts[1..], sep);
    assert parts == [parts[0]] + parts[1..];
  }

  /**
   * The first piece ends at the leftmost occurrence of the separator: no
   * occurrence starts inside it, even one that runs into the separator that
   * follows it.
   */
  lemma {:induction false} FirstPieceLeftmost(s: string, sep: string)
    requires |sep| > 0 && |Split(s, sep)| >= 2
    ensures !Contains(Split(s, sep)[0] + sep[..|sep| - 1], sep)
    decreases |s|
  {
    var cut := sep[..|sep| - 1];
    if StartsWith(s, sep) {
      assert Split(s, sep)[0] + cut == cut;
      if Contains(cut, sep) {
        ContainsLength(cut, sep);
        assert false;
      }
    } else {
      var rest := Split(s[1..], sep);
      FirstPieceLeftmost(s[1..], sep);
      var x := Split(s, sep)[0] + cut;
      assert x[1..] == rest[0] + cut;
      if StartsWith(x, sep) {
        FirstPieceThenSeparator(s, sep);
        PrefixOfPrefix(Split(s, sep)[0] + sep, x, sep);
        PrefixOfPrefix(s, Split(s, sep)[0] + sep, sep);
        assert false;
      }
    }
  }

  /**
   * `split` matches left to right without overlap: every piece but the last
   * is followed by the separator, and no occurrence of the separator starts
   * inside the piece, even one that runs into the separator after it.
   */
  lemma {:induction false} SplitLeftmost(s: string, sep: string)
    requires |sep| > 0
    ensures forall i :: 0 <= i < |Split(s, sep)| - 1 ==>
              !Contains(Split(s, sep)[i] + sep[..|sep| - 1], sep)
    decreases |s|
  {
    var parts := Split(s, sep);
    if |parts| >= 2 {
      FirstPieceLeftmost(s, sep);
      if StartsWith(s, sep) {
        SplitLeftmost(s[|sep|..], sep);
        assert parts == [""] + Split(s[|sep|..], sep);
      } else {
        var rest := Split(s[1..], sep);
        SplitLeftmost(s[1..], sep);
        assert parts == [[s[0]] + rest[0]] + rest[1..];
        assert forall i :: 1 <= i < |parts| ==> parts[i] == rest[i];
      }
    }
  }

  /** `s.includes(sep)` holds exactly when `s.split(sep)` yields more than one piece. */
  lemma {:induction false} ContainsIffSeveralPieces(s: string, sep: string)
    requires |sep| > 0
    ensures Contains(s, sep) <==> |Split(s, sep)| >= 2
    decreases |s|
  {
    if StartsWith(s, sep) {
    } else if |s| == 0 {
    } else {
      ContainsIffSeveralPieces(s[1..], sep);
    }
  }

  /** Splitting on one character yields one piece more than there are occurrences of it. */
  lemma {:induction false} SplitCount(s: string, c: char)
    ensures |Split(s, [c])| == multiset(s)[c] + 1
    decreases |s|
  {
    if |s| > 0 {
      SplitCount(s[1..], c);
      assert s == [s[0]] + s[1..];
      assert multiset(s) == multiset{s[0]} + multiset(s[1..]);
      if s[0] == c {
        assert StartsWith(s, [c]);
        assert s[|[c]|..] == s[1..];
      } else {
        assert !StartsWith(s, [c]);
      }
    }
  }

  /**
   * The characters `String.prototype.trim` removes: the ECMAScript
   * WhiteSpace and LineTerminator code points.
   */
  predicate IsWhitespace(c: char) {
    c == '\t' || c == '\n' || c == '\U{B}' || c == '\U{C}' || c == '\r' || c == ' '
    || c == '\U{A0}' || c == '\U{1680}' || ('\U{2000}' <= c <= '\U{200A}')
    || c == '\U{2028}' || c == '\U{2029}' || c == '\U{202F}' || c == '\U{205F}'
    || c == '\U{3000}' || c == '\U{FEFF}'
  }

  /** Every character of `s` is whitespace (the empty string included). */
  predicate Blank(s: string) {
    forall i :: 0 <= i < |s| ==> IsWhitespace(s[i])
  }

  /** `s.trimStart()`: the suffix left after dropping leading whitespace. */
  function TrimStart(s: string): (r: string)
    ensures |r| <= |s| && r == s[|s| - |r|..]
    ensures Blank(s[..|s| - |r|])
    ensures r == [] || !IsWhitespace(r[0])
    decreases |s|
  {
    if |s| > 0 && IsWhitespace(s[0]) then TrimStart(s[1..]) else s
  }

  /** `s.trimEnd()`: the prefix left after dropping trailing whitespace. */
  function TrimEnd(s: string): (r: string)
    ensures |r| <= |s| && r == s[..|r|]
    ensures Blank(s[|r|..])
    ensures r == [] || !IsWhitespace(r[|r| - 1])
    decreases |s|
  {
    if |s| > 0 && IsWhitespace(s[|s| - 1]) then TrimEnd(s[..|s| - 1]) else s
  }

  /** `s.trim()`. */
  function Trim(s: string): string {
    TrimEnd(TrimStart(s))
  }

  /** `!input.trim()` in the chat guard: trimming leaves nothing exactly when the text is all whitespace. */
  lemma TrimEmptyIffBlank(s: string)
    ensures Trim(s) == "" <==> Blank(s)
  {
    var t := TrimStart(s);
    assert s == s[..|s| - |t|] + t;
    if Trim(s) == "" {
      assert s[..|s| - |t|] == s;
    }
  }
}
