/**
 * The JavaScript string operations the property form relies on: `trim()`,
 * `split('\n')` and `join('\n')`.
 */
module Text {

  const Newline: char := '\n'

  /**
   * The characters `String.prototype.trim` strips: ECMAScript's WhiteSpace
   * (tab, vertical tab, form feed, space, no-break space, the byte order mark and
   * the Unicode space separators) and LineTerminator (LF, CR, U+2028, U+2029).
   */
  predicate IsWhiteSpace(c: char) {
    c in {'\t', '\U{000B}', '\U{000C}', ' ', '\U{00A0}', '\U{FEFF}',
          '\n', '\r', '\U{2028}', '\U{2029}',
          '\U{1680}', '\U{2000}', '\U{2001}', '\U{2002}', '\U{2003}', '\U{2004}',
          '\U{2005}', '\U{2006}', '\U{2007}', '\U{2008}', '\U{2009}', '\U{200A}',
          '\U{202F}', '\U{205F}', '\U{3000}'}
  }

  /** A string made of white space only (the empty string included). */
  predicate Blank(s: string) {
    forall i :: 0 <= i < |s| ==> IsWhiteSpace(s[i])
  }

  /** `s` without its leading white space. */
  function TrimStart(s: string): (r: string)
    ensures |r| <= |s| && r == s[|s| - |r|..]
    ensures Blank(s[..|s| - |r|])
    ensures r == [] || !IsWhiteSpace(r[0])
  {
    if s == [] || !IsWhiteSpace(s[0]) then s else TrimStart(s[1..])
  }

  /** `s` without its trailing white space. */
  function TrimEnd(s: string): (r: string)
    ensures |r| <= |s| && r == s[..|r|]
    ensures Blank(s[|r|..])
    ensures r == [] || !IsWhiteSpace(r[|r| - 1])
  {
    if s == [] || !IsWhiteSpace(s[|s| - 1]) then s else TrimEnd(s[..|s| - 1])
  }

  /** `s.trim()`: empty exactly when `s` is blank; otherwise it starts and ends on a visible character. */
  function Trim(s: string): (r: string)
    ensures |r| <= |s|
    ensures r == [] <==> Blank(s)
    ensures r == [] || (!IsWhiteSpace(r[0]) && !IsWhiteSpace(r[|r| - 1]))
  {
    var t := TrimStart(s);
    var r := TrimEnd(t);
    assert r != [] ==> r[0] == t[0];
    assert r == [] ==> s == s[..|s| - |t|] + t;
    r
  }

  /**
   * `lines.join('\n')`: empty for no lines; otherwise it starts with the first
   * line, followed by a newline when more lines come.
   */
  function Join(lines: seq<string>): (s: string)
    ensures lines == [] ==> s == ""
    ensures |lines| >= 1 ==> lines[0] <= s
    ensures |lines| >= 2 ==> lines[0] + [Newline] <= s
  {
    if |lines| == 0 then ""
    else if |lines| == 1 then lines[0]
    else
      var rest := Join(lines[1..]);
      lines[0] + [Newline] + rest
  }

  /** Appending a line to a non-empty list appends a newline and that line to the join. */
  lemma {:induction false} JoinAppend(lines: seq<string>, last: string)
    requires |lines| >= 1
    ensures Join(lines + [last]) == Join(lines) + [Newline] + last
  {
    if |lines| > 1 {
      assert (lines + [last])[1..] == lines[1..] + [last];
      JoinAppend(lines[1..], last);
    }
  }

  /**
   * `s.split('\n')`: the one non-empty list of newline-free lines whose
   * join is `s` (see JoinInjective for the uniqueness).
   */
  function Split(s: string): (lines: seq<string>)
    ensures |lines| >= 1
    ensures forall i :: 0 <= i < |lines| ==> Newline !in lines[i]
    ensures Join(lines) == s
  {
    if |s| == 0 then [""]
    else
      var rest := Split(s[1..]);
      assert s == [s[0]] + s[1..];
      if s[0] == Newline then
        assert ([""] + rest)[1..] == rest;
        [""] + rest
      else
        var lines := [[s[0]] + rest[0]] + rest[1..];
        assert lines[1..] == rest[1..];
        assert |rest| > 1 ==> Join(rest) == rest[0] + [Newline] + Join(rest[1..]);
        lines
  }

  /** The newline after `a` sits at index `|a|`: the index term FirstLine needs to rule out unequal first lines. */
  lemma NewlineAfter(a: string, u: string)
    ensures (a + [Newline] + u)[|a|] == Newline
  {
  }

  /** Two lines without newlines followed by a newline can only be split one way. */
  lemma FirstLine(a: string, b: string, u: string, v: string)
    requires Newline !in a && Newline !in b
    requires a + [Newline] + u == b + [Newline] + v
    ensures a == b && u == v
  {
    var s := a + [Newline] + u;
    if |a| < |b| {
      NewlineAfter(a, u);
      assert false;
    } else if |b| < |a| {
      NewlineAfter(b, v);
      assert false;
    }
    assert a == s[..|a|] == b;
    assert u == s[|a| + 1..] == v;
  }

  /** Joining non-empty lists of newline-free lines with '\n' is injective. */
  lemma {:induction false} JoinInjective(xs: seq<string>, ys: seq<string>)
    requires |xs| >= 1 && |ys| >= 1
    requires forall i :: 0 <= i < |xs| ==> Newline !in xs[i]
    requires forall i :: 0 <= i < |ys| ==> Newline !in ys[i]
    requires Join(xs) == Join(ys)
    ensures xs == ys
  {
    if |xs| == 1 && |ys| == 1 {
    } else if |xs| == 1 {
      assert false;
    } else if |ys| == 1 {
      assert false;
    } else {
      FirstLine(xs[0], ys[0], Join(xs[1..]), Join(ys[1..]));
      JoinInjective(xs[1..], ys[1..]);
      assert xs == [xs[0]] + xs[1..] && ys == [ys[0]] + ys[1..];
    }
  }

  /** Splitting what was joined gives the lines back. */
  lemma SplitJoin(lines: seq<string>)
    requires |lines| >= 1
    requires forall i :: 0 <= i < |lines| ==> Newline !in lines[i]
    ensures Split(Join(lines)) == lines
  {
    JoinInjective(Split(Join(lines)), lines);
  }
}
