/** The JavaScript string built-ins the tool relies on: `String.prototype.split`
    with a non-empty string separator, `Array.prototype.join`, and
    `String.prototype.trim`. Strings are sequences of code points. */
module JsStrings {

  /** The code points ECMAScript counts as WhiteSpace or LineTerminator,
      which is exactly what `trim` strips from both ends. */
  predicate IsWhitespace(c: char) {
    || c == '\t' || c == '\n' || c == '\U{000B}' || c == '\U{000C}' || c == '\r' || c == ' '
    || c == '\U{00A0}' || c == '\U{1680}' || ('\U{2000}' <= c <= '\U{200A}')
    || c == '\U{2028}' || c == '\U{2029}' || c == '\U{202F}' || c == '\U{205F}'
    || c == '\U{3000}' || c == '\U{FEFF}'
  }

  predicate AllWhitespace(s: string) {
    forall i :: 0 <= i < |s| ==> IsWhitespace(s[i])
  }

  /** Neither end of `s` is whitespace. */
  predicate Trimmed(s: string) {
    |s| == 0 || (!IsWhitespace(s[0]) && !IsWhitespace(s[|s| - 1]))
  }

  /** The length of the longest all-whitespace prefix of `s`. */
  function LeadingSpace(s: string): (n: nat)
    ensures n <= |s| && AllWhitespace(s[..n])
    ensures n == |s| || !IsWhitespace(s[n])
  {
    if |s| == 0 || !IsWhitespace(s[0]) then 0 else 1 + LeadingSpace(s[1..])
  }

  /** The length of the longest all-whitespace suffix of `s`. */
  function TrailingSpace(s: string): (n: nat)
    ensures n <= |s| && AllWhitespace(s[|s| - n..])
    ensures n == |s| || !IsWhitespace(s[|s| - n - 1])
  {
    if |s| == 0 || !IsWhitespace(s[|s| - 1]) then 0 else 1 + TrailingSpace(s[..|s| - 1])
  }

  /** `s.trim()`: the infix of `s` left once the whitespace at both ends is
      removed. */
  function Trim(s: string): (r: string)
    ensures Trimmed(r)
    ensures |r| <= |s|
  {
    var t := s[LeadingSpace(s)..];
    t[..|t| - TrailingSpace(t)]
  }

  /** `trim` only cuts whitespace off the ends: `s` is that whitespace around
      the result. */
  lemma TrimStripsOnlyWhitespace(s: string)
    ensures exists i, j :: 0 <= i <= j <= |s| && s[i..j] == Trim(s)
                           && AllWhitespace(s[..i]) && AllWhitespace(s[j..])
  {
    var i := LeadingSpace(s);
    var t := s[i..];
    var j := i + |t| - TrailingSpace(t);
    assert s[i..j] == Trim(s);
    assert s[j..] == t[|t| - TrailingSpace(t)..];
  }

  lemma {:induction false} LeadingSpaceAfterWhitespace(a: string, t: string)
    requires AllWhitespace(a)
    ensures LeadingSpace(a + t) == |a| + LeadingSpace(t)
  {
    if |a| > 0 {
      assert (a + t)[1..] == a[1..] + t;
      LeadingSpaceAfterWhitespace(a[1..], t);
    } else {
      assert a + t == t;
    }
  }

  lemma {:induction false} TrailingSpaceBeforeWhitespace(t: string, b: string)
    requires AllWhitespace(b)
    ensures TrailingSpace(t + b) == TrailingSpace(t) + |b|
  {
    if |b| > 0 {
      assert (t + b)[..|t + b| - 1] == t + b[..|b| - 1];
      TrailingSpaceBeforeWhitespace(t, b[..|b| - 1]);
    } else {
      assert t + b == t;
    }
  }

  /** Trimming a text that is whitespace around an already trimmed core gives
      that core back; in particular `trim` is idempotent. */
  lemma TrimAroundTrimmed(a: string, x: string, b: string)
    requires AllWhitespace(a) && AllWhitespace(b) && Trimmed(x)
    ensures Trim(a + x + b) == x
  {
    var s := a + x + b;
    assert s == a + (x + b);
    LeadingSpaceAfterWhitespace(a, x + b);
    if |x| == 0 {
      assert x + b == b;
      LeadingSpaceAfterWhitespace(b, "");
      assert b + "" == b;
    } else {
      assert LeadingSpace(x + b) == 0 by { assert (x + b)[0] == x[0]; }
      var t := s[LeadingSpace(s)..];
      assert t == x + b;
      TrailingSpaceBeforeWhitespace(x, b);
      assert TrailingSpace(x) == 0;
    }
  }

  lemma TrimIdempotent(s: string)
    ensures Trim(Trim(s)) == Trim(s)
  {
    var x := Trim(s);
    TrimAroundTrimmed("", x, "");
    assert "" + x + "" == x;
  }

  /** `trim` never introduces a character. */
  lemma TrimKeepsOut(s: string, c: char)
    requires c !in s
    ensures c !in Trim(s)
  {
    TrimStripsOnlyWhitespace(s);
    var i, j :| 0 <= i <= j <= |s| && s[i..j] == Trim(s)
                && AllWhitespace(s[..i]) && AllWhitespace(s[j..]);
    forall k | 0 <= k < j - i ensures s[i..j][k] != c {
      assert s[i..j][k] == s[i + k];
    }
  }

  /** `s.split(sep)` for a non-empty separator: the pieces between the
      leftmost non-overlapping occurrences of `sep`. */
  function Split(s: string, sep: string): (parts: seq<string>)
    requires |sep| > 0
    ensures |parts| >= 1
    decreases |s|
  {
    if |s| < |sep| then [s]
    else if s[..|sep|] == sep then [""] + Split(s[|sep|..], sep)
    else
      var rest := Split(s[1..], sep);
      [[s[0]] + rest[0]] + rest[1..]
  }

  /** `parts.join(sep)`. */
  function Join(parts: seq<string>, sep: string): string {
    if |parts| == 0 then ""
    else if |parts| == 1 then parts[0]
    else parts[0] + sep + Join(parts[1..], sep)
  }

  /** The source's replace-all idiom `s.split(pattern).join(replacement)`. */
  function ReplaceAll(s: string, pattern: string, replacement: string): string
    requires |pattern| > 0
  {
    Join(Split(s, pattern), replacement)
  }

  /** `pattern` occurs somewhere in `s`. */
  predicate Contains(s: string, pattern: string)
    requires |pattern| > 0
    decreases |s|
  {
    |s| >= |pattern| && (s[..|pattern|] == pattern || Contains(s[1..], pattern))
  }

  lemma JoinConsHead(c: char, p: string, tail: seq<string>, sep: string)
    ensures Join([[c] + p] + tail, sep) == [c] + Join([p] + tail, sep)
  {
    var ps := [[c] + p] + tail;
    if |tail| > 0 {
      assert ps[1..] == tail && ([p] + tail)[1..] == tail;
    }
  }

  /** Joining the pieces with the separator gives the text back. */
  lemma {:induction false} JoinSplit(s: string, sep: string)
    requires |sep| > 0
    ensures Join(Split(s, sep), sep) == s
    decreases |s|
  {
    if |s| < |sep| {
    } else if s[..|sep|] == sep {
      var rest := Split(s[|sep|..], sep);
      JoinSplit(s[|sep|..], sep);
      assert ([""] + rest)[1..] == rest;
      assert s == sep + s[|sep|..];
    } else {
      var rest := Split(s[1..], sep);
      JoinSplit(s[1..], sep);
      JoinConsHead(s[0], rest[0], rest[1..], sep);
      assert [rest[0]] + rest[1..] == rest;
      assert s == [s[0]] + s[1..];
    }
  }

  /** No piece contains a separator, and the first piece is a prefix of the
      text. */
  lemma {:induction false} SplitPiecesAreFree(s: string, sep: string)
    requires |sep| > 0
    ensures forall i :: 0 <= i < |Split(s, sep)| ==> !Contains(Split(s, sep)[i], sep)
    ensures Split(s, sep)[0] <= s
    decreases |s|
  {
    var parts := Split(s, sep);
    if |s| < |sep| {
    } else if s[..|sep|] == sep {
      SplitPiecesAreFree(s[|sep|..], sep);
      assert !Contains("", sep);
    } else {
      var rest := Split(s[1..], sep);
      SplitPiecesAreFree(s[1..], sep);
      var first := [s[0]] + rest[0];
      assert first <= s;
      assert first[1..] == rest[0];
      if |first| >= |sep| {
        assert first[..|sep|] == s[..|sep|];
      }
      assert !Contains(first, sep);
      forall i | 1 <= i < |parts| ensures !Contains(parts[i], sep) {
        assert parts[i] == rest[i];
      }
    }
  }

  /** The split has a single piece exactly when the separator does not occur. */
  lemma {:induction false} SplitSingleIffAbsent(s: string, sep: string)
    requires |sep| > 0
    ensures |Split(s, sep)| == 1 <==> !Contains(s, sep)
    decreases |s|
  {
    if |s| < |sep| {
    } else if s[..|sep|] == sep {
    } else {
      SplitSingleIffAbsent(s[1..], sep);
    }
  }

  /** Replacing a pattern that does not occur leaves the text as it is. */
  lemma ReplaceAllAbsent(s: string, pattern: string, replacement: string)
    requires |pattern| > 0 && !Contains(s, pattern)
    ensures ReplaceAll(s, pattern, replacement) == s
  {
    SplitSingleIffAbsent(s, pattern);
    JoinSplit(s, pattern);
  }

  /** Replacing every occurrence of one character by another: position by
      position, that character becomes the other and nothing else moves. */
  lemma {:induction false} ReplaceAllChar(s: string, c: char, d: char)
    ensures |ReplaceAll(s, [c], [d])| == |s|
    ensures forall i :: 0 <= i < |s| ==>
              ReplaceAll(s, [c], [d])[i] == if s[i] == c then d else s[i]
    decreases |s|
  {
    var r := ReplaceAll(s, [c], [d]);
    if |s| == 0 {
    } else {
      var rest := Split(s[1..], [c]);
      ReplaceAllChar(s[1..], c, d);
      var tail := ReplaceAll(s[1..], [c], [d]);
      if s[0] == c {
        assert s[..1] == [c];
        assert Split(s, [c]) == [""] + rest;
        assert ([""] + rest)[1..] == rest;
        assert r == "" + [d] + tail;
      } else {
        assert s[..1] != [c];
        JoinConsHead(s[0], rest[0], rest[1..], [d]);
        assert [rest[0]] + rest[1..] == rest;
        assert r == [s[0]] + tail;
      }
      forall i | 0 <= i < |s| ensures r[i] == if s[i] == c then d else s[i] {
        if i > 0 {
          assert r[i] == tail[i - 1] && s[i] == s[1..][i - 1];
        }
      }
    }
  }

  /** A single-character separator splits a text into pieces without that
      character. */
  lemma {:induction false} SplitCharPiecesFree(s: string, c: char)
    ensures forall i :: 0 <= i < |Split(s, [c])| ==> c !in Split(s, [c])[i]
    decreases |s|
  {
    if |s| == 0 {
    } else if s[..1] == [c] {
      SplitCharPiecesFree(s[1..], c);
    } else {
      SplitCharPiecesFree(s[1..], c);
      assert s[0] != c by { assert s[..1] == [s[0]]; }
    }
  }

  lemma {:induction false} SplitPieceThenChar(p: string, c: char, x: string)
    requires c !in p
    ensures Split(p + [c] + x, [c]) == [p] + Split(x, [c])
    decreases |p|
  {
    var s := p + [c] + x;
    if |p| == 0 {
      assert s[..1] == [c] && s[1..] == x;
    } else {
      assert s[..1] == [p[0]] && p[0] != c;
      assert s[1..] == p[1..] + [c] + x;
      SplitPieceThenChar(p[1..], c, x);
      assert [p[0]] + p[1..] == p;
    }
  }

  /** Splitting a text without the separator character yields the text alone. */
  lemma SplitCharAbsent(p: string, c: char)
    requires c !in p
    ensures Split(p, [c]) == [p]
  {
    if Contains(p, [c]) {
      ContainsChar(p, c);
    }
    SplitSingleIffAbsent(p, [c]);
    JoinSplit(p, [c]);
  }

  lemma {:induction false} ContainsChar(s: string, c: char)
    requires Contains(s, [c])
    ensures c in s
    decreases |s|
  {
    if s[..1] == [c] {
      assert s[0] == c;
    } else {
      ContainsChar(s[1..], c);
    }
  }

  /** Split undoes join when the separator is a character no piece contains. */
  lemma {:induction false} SplitJoinChar(parts: seq<string>, c: char)
    requires |parts| >= 1
    requires forall i :: 0 <= i < |parts| ==> c !in parts[i]
    ensures Split(Join(parts, [c]), [c]) == parts
    decreases |parts|
  {
    if |parts| == 1 {
      SplitCharAbsent(parts[0], c);
    } else {
      SplitJoinChar(parts[1..], c);
      SplitPieceThenChar(parts[0], c, Join(parts[1..], [c]));
      assert [parts[0]] + parts[1..] == parts;
    }
  }

  /** String concatenation regroups freely; a separate lemma keeps the large
      terms it is applied to out of the solver's way. */
  lemma Associative(x: string, y: string, z: string)
    ensures (x + y) + z == x + (y + z)
  {
  }

  /** Leading whitespace makes no difference to `trim`. */
  lemma TrimAfterWhitespace(a: string, x: string)
    requires AllWhitespace(a)
    ensures Trim(a + x) == Trim(x)
  {
    LeadingSpaceAfterWhitespace(a, x);
    var n := LeadingSpace(x);
    assert (a + x)[|a| + n..] == x[n..];
  }

  /** A separator character splits a concatenation into the pieces of both
      sides. */
  lemma {:induction false} SplitCharConcat(p: string, c: char, q: string)
    ensures Split(p + [c] + q, [c]) == Split(p, [c]) + Split(q, [c])
    decreases |p|
  {
    var s := p + [c] + q;
    if |p| == 0 {
      assert s[..1] == [c] && s[1..] == q;
    } else {
      assert s[..1] == [p[0]] && p[..1] == [p[0]];
      assert s[1..] == p[1..] + [c] + q;
      SplitCharConcat(p[1..], c, q);
      if p[0] != c {
        var front, back := Split(p[1..], [c]), Split(q, [c]);
        assert (front + back)[0] == front[0];
        assert (front + back)[1..] == front[1..] + back;
        assert [[p[0]] + front[0]] + (front[1..] + back) == [[p[0]] + front[0]] + front[1..] + back;
      }
    }
  }

  /** A prefix without the separator character joins the first piece. */
  lemma {:induction false} SplitCharPrefix(a: string, c: char, x: string)
    requires c !in a
    ensures Split(a + x, [c]) == [a + Split(x, [c])[0]] + Split(x, [c])[1..]
    decreases |a|
  {
    if |a| == 0 {
      assert a + x == x && a + Split(x, [c])[0] == Split(x, [c])[0];
      assert [Split(x, [c])[0]] + Split(x, [c])[1..] == Split(x, [c]);
    } else {
      var s := a + x;
      assert s[..1] == [a[0]] && a[0] != c;
      assert s[1..] == a[1..] + x;
      SplitCharPrefix(a[1..], c, x);
      var rest := Split(s[1..], [c]);
      assert [s[0]] + rest[0] == a + Split(x, [c])[0] by {
        assert [a[0]] + (a[1..] + Split(x, [c])[0]) == a + Split(x, [c])[0];
      }
    }
  }

  /** Joining a concatenation of two non-empty lists puts one separator
      between the two joins. */
  lemma {:induction false} JoinConcat(xs: seq<string>, ys: seq<string>, sep: string)
    requires |xs| >= 1 && |ys| >= 1
    ensures Join(xs + ys, sep) == Join(xs, sep) + sep + Join(ys, sep)
    decreases |xs|
  {
    if |xs| == 1 {
      assert (xs + ys)[1..] == ys;
    } else {
      assert (xs + ys)[1..] == xs[1..] + ys;
      JoinConcat(xs[1..], ys, sep);
    }
  }

  /** `n` spaces, the indentation of a template literal's lines. */
  function Spaces(n: nat): (r: string)
    ensures |r| == n && AllWhitespace(r) && '\n' !in r
  {
    if n == 0 then "" else " " + Spaces(n - 1)
  }

  /** The text of a multi-line template literal: an EOL right after the
      opening backtick, each line indented by `indent`, and the closing
      backtick on a line of its own indented by `closing`. */
  function Block(indent: string, lines: seq<string>, closing: string): string {
    Join([""] + Indented(indent, lines) + [closing], "\n")
  }

  function Indented(indent: string, lines: seq<string>): (r: seq<string>)
    ensures |r| == |lines| && forall i {:trigger r[i]} :: 0 <= i < |r| ==> r[i] == indent + lines[i]
  {
    if |lines| == 0 then [] else [indent + lines[0]] + Indented(indent, lines[1..])
  }
}
