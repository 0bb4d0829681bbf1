/** The string operations of ECMAScript that the browser scripts rely on:
    String.prototype.trim, String.prototype.split with a one-character
    separator, and Array.prototype.join (Python's str.join behaves the same
    on a list of strings). */
module JsString {

  /** The WhiteSpace and LineTerminator code points of ECMAScript
      (sections 12.2 and 12.3 of ECMA-262): what String.prototype.trim removes. */
  predicate IsWhiteSpace(c: char) {
    c == '\t' || c == '\n' || c == '\U{B}' || c == '\U{C}' || c == '\r' || c == ' '
    || c == '\U{A0}' || c == '\U{1680}' || ('\U{2000}' <= c <= '\U{200A}')
    || c == '\U{2028}' || c == '\U{2029}' || c == '\U{202F}' || c == '\U{205F}'
    || c == '\U{3000}' || c == '\U{FEFF}'
  }

  predicate AllWhiteSpace(s: string) {
    forall i :: 0 <= i < |s| ==> IsWhiteSpace(s[i])
  }

  /** No white space at either end. */
  predicate IsTrimmed(s: string) {
    s == [] || (!IsWhiteSpace(s[0]) && !IsWhiteSpace(s[|s| - 1]))
  }

  /** Drops the leading white space (see TrimStartShape). */
  function TrimStart(s: string): (r: string)
    ensures |r| <= |s|
  {
    if s != [] && IsWhiteSpace(s[0]) then TrimStart(s[1..]) else s
  }

  /** Drops the trailing white space (see TrimEndShape). */
  function TrimEnd(s: string): (r: string)
    ensures |r| <= |s|
  {
    if s != [] && IsWhiteSpace(s[|s| - 1]) then TrimEnd(s[..|s| - 1]) else s
  }

  /** String.prototype.trim. */
  function Trim(s: string): (r: string)
    ensures |r| <= |s|
  {
    TrimEnd(TrimStart(s))
  }

  /** TrimStart keeps the suffix of s that is empty or starts with a
      non-white-space character, and all it drops is white space. */
  lemma {:induction false} TrimStartShape(s: string)
    ensures TrimStart(s) == s[|s| - |TrimStart(s)|..]
    ensures AllWhiteSpace(s[..|s| - |TrimStart(s)|])
    ensures TrimStart(s) == [] || !IsWhiteSpace(TrimStart(s)[0])
    decreases |s|
  {
    if s != [] && IsWhiteSpace(s[0]) {
      TrimStartShape(s[1..]);
      var k := |s| - |TrimStart(s)|;
      assert s[..k] == [s[0]] + s[1..][..k - 1];
    }
  }

  /** TrimEnd keeps the prefix of s that is empty or ends with a
      non-white-space character, and all it drops is white space. */
  lemma {:induction false} TrimEndShape(s: string)
    ensures TrimEnd(s) == s[..|TrimEnd(s)|]
    ensures AllWhiteSpace(s[|TrimEnd(s)|..])
    ensures TrimEnd(s) == [] || !IsWhiteSpace(TrimEnd(s)[|TrimEnd(s)| - 1])
    decreases |s|
  {
    if s != [] && IsWhiteSpace(s[|s| - 1]) {
      var pre := s[..|s| - 1];
      TrimEndShape(pre);
      var k := |TrimEnd(s)|;
      assert s[k..] == pre[k..] + [s[|s| - 1]];
    }
  }

  /** What trim returns has no white space at either end. */
  lemma TrimIsTrimmed(s: string)
    ensures IsTrimmed(Trim(s))
  {
    var u := TrimStart(s);
    TrimStartShape(s);
    TrimEndShape(u);
    var t := TrimEnd(u);
    if t != [] {
      assert t[0] == u[0];
    }
  }

  lemma {:induction false} TrimStartPadded(a: string, u: string)
    requires AllWhiteSpace(a)
    requires u == [] || !IsWhiteSpace(u[0])
    ensures TrimStart(a + u) == u
    decreases |a|
  {
    if a != [] {
      assert (a + u)[1..] == a[1..] + u;
      TrimStartPadded(a[1..], u);
    } else {
      assert a + u == u;
    }
  }

  lemma {:induction false} TrimEndPadded(u: string, b: string)
    requires AllWhiteSpace(b)
    requires u == [] || !IsWhiteSpace(u[|u| - 1])
    ensures TrimEnd(u + b) == u
    decreases |b|
  {
    if b != [] {
      assert (u + b)[..|u + b| - 1] == u + b[..|b| - 1];
      TrimEndPadded(u, b[..|b| - 1]);
    } else {
      assert u + b == u;
    }
  }

  /** Trim removes exactly the white space around a trimmed core: whatever
      white space surrounds t, trimming gives t back. */
  lemma TrimPadded(a: string, t: string, b: string)
    requires AllWhiteSpace(a) && AllWhiteSpace(b) && IsTrimmed(t)
    ensures Trim(a + t + b) == t
  {
    if t == [] {
      assert a + t + b == a + b;
      TrimStartShape(a + b);
    } else {
      assert a + t + b == a + (t + b);
      TrimStartPadded(a, t + b);
      TrimEndPadded(t, b);
    }
  }

  /** The white space that trim drops at the front. */
  function LeadingSpace(s: string): (a: string)
    ensures AllWhiteSpace(a)
  {
    TrimStartShape(s);
    s[..|s| - |TrimStart(s)|]
  }

  /** The white space that trim drops at the back. */
  function TrailingSpace(s: string): (b: string)
    ensures AllWhiteSpace(b)
  {
    var u := TrimStart(s);
    TrimEndShape(u);
    u[|TrimEnd(u)|..]
  }

  /** Every string is its trimmed core with white space around it. */
  lemma TrimDecomposes(s: string)
    ensures s == LeadingSpace(s) + Trim(s) + TrailingSpace(s)
  {
    LeadingSpaceSplits(s);
    TrailingSpaceSplits(s);
  }

  lemma LeadingSpaceSplits(s: string)
    ensures s == LeadingSpace(s) + TrimStart(s)
  {
    TrimStartShape(s);
  }

  lemma TrailingSpaceSplits(s: string)
    ensures TrimStart(s) == Trim(s) + TrailingSpace(s)
  {
    TrimEndShape(TrimStart(s));
  }

  /** A string trims to nothing exactly when it is all white space. */
  lemma TrimEmptyIff(s: string)
    ensures Trim(s) == [] <==> AllWhiteSpace(s)
  {
    if AllWhiteSpace(s) {
      assert s + [] == s;
      TrimPadded(s, [], []);
      assert s + [] + [] == s;
    } else {
      TrimDecomposes(s);
    }
  }

  /** Trimming twice is trimming once. */
  lemma TrimIdempotent(s: string)
    ensures Trim(Trim(s)) == Trim(s)
  {
    TrimIsTrimmed(s);
    TrimPadded([], Trim(s), []);
    assert [] + Trim(s) + [] == Trim(s);
  }

  /** The position of the first occurrence of c in s. */
  function IndexOf(s: string, c: char): (i: nat)
    requires c in s
    ensures i < |s| && s[i] == c && c !in s[..i]
  {
    if s[0] == c then 0 else 1 + IndexOf(s[1..], c)
  }

  lemma {:induction false} IndexOfAfter(a: string, c: char, b: string)
    requires c !in a
    ensures IndexOf(a + [c] + b, c) == |a|
    decreases |a|
  {
    if a != [] {
      assert (a + [c] + b)[1..] == a[1..] + [c] + b;
      IndexOfAfter(a[1..], c, b);
    }
  }

  /** Array.prototype.join, and Python's str.join: the parts with sep between
      consecutive ones. */
  function Join(parts: seq<string>, sep: string): string
    decreases |parts|
  {
    if parts == [] then ""
    else if |parts| == 1 then parts[0]
    else parts[0] + sep + Join(parts[1..], sep)
  }

  /** String.prototype.split with a one-character separator: the pieces
      between separators, at least one, none of which holds the separator. */
  function Split(s: string, sep: char): (pieces: seq<string>)
    ensures |pieces| >= 1
    ensures forall k :: 0 <= k < |pieces| ==> sep !in pieces[k]
    decreases |s|
  {
    if sep !in s then [s]
    else
      var i := IndexOf(s, sep);
      [s[..i]] + Split(s[i + 1..], sep)
  }

  /** Splitting loses nothing: joining the pieces back with the separator
      gives the original string. */
  lemma {:induction false} JoinSplit(s: string, sep: char)
    ensures Join(Split(s, sep), [sep]) == s
    decreases |s|
  {
    if sep in s {
      var i := IndexOf(s, sep);
      JoinSplit(s[i + 1..], sep);
      assert s == s[..i] + [sep] + s[i + 1..];
    }
  }

  lemma SplitCons(a: string, sep: char, b: string)
    requires sep !in a
    ensures Split(a + [sep] + b, sep) == [a] + Split(b, sep)
  {
    var s := a + [sep] + b;
    IndexOfAfter(a, sep, b);
    assert s[..|a|] == a;
    assert s[|a| + 1..] == b;
  }

  /** The other half of the round trip: joining pieces that hold no separator
      and splitting the result gives the pieces back, empty ones included. */
  lemma {:induction false} SplitJoin(parts: seq<string>, sep: char)
    requires |parts| >= 1
    requires forall k :: 0 <= k < |parts| ==> sep !in parts[k]
    ensures Split(Join(parts, [sep]), sep) == parts
    decreases |parts|
  {
    if |parts| > 1 {
      SplitCons(parts[0], sep, Join(parts[1..], [sep]));
      SplitJoin(parts[1..], sep);
      assert parts == [parts[0]] + parts[1..];
    }
  }
}
