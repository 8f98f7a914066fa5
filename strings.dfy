/**
 * The handful of string operations the system relies on, with the exact
 * semantics of the language that performs them: JavaScript's `trim` and
 * `indexOf`, Python's `strip`, `split()`, `split(None, 1)` and `replace`.
 * Strings are sequences of code points; case conversion is ASCII only.
 */
module Strings {
  import opened Seqs

  /** Characters removed by JavaScript's `String.prototype.trim`: the
   *  ECMAScript WhiteSpace and LineTerminator code points. */
  predicate IsJsSpace(c: char)
  {
    || c == ' ' || c == '\t' || c == '\n' || c == '\r'
    || c == '\U{000B}' || c == '\U{000C}' || c == '\U{00A0}' || c == '\U{1680}'
    || ('\U{2000}' <= c <= '\U{200A}')
    || c == '\U{2028}' || c == '\U{2029}' || c == '\U{202F}' || c == '\U{205F}'
    || c == '\U{3000}' || c == '\U{FEFF}'
  }

  /** Characters Python's `str.isspace` accepts, which are the separators of
   *  `str.split()` and the characters removed by `str.strip()`. */
  predicate IsPySpace(c: char)
  {
    || c == ' ' || c == '\t' || c == '\n' || c == '\r'
    || ('\U{000B}' <= c <= '\U{000C}') || ('\U{001C}' <= c <= '\U{001F}')
    || c == '\U{0085}' || c == '\U{00A0}' || c == '\U{1680}'
    || ('\U{2000}' <= c <= '\U{200A}')
    || c == '\U{2028}' || c == '\U{2029}' || c == '\U{202F}' || c == '\U{205F}'
    || c == '\U{3000}'
  }

  /** `s` with its longest prefix of `ws` characters removed. */
  function TrimLeft(s: string, ws: char -> bool): (r: string)
    ensures |r| <= |s| && r == s[|s| - |r|..]
    ensures r != [] ==> !ws(r[0])
    ensures forall i :: 0 <= i < |s| - |r| ==> ws(s[i])
  {
    if s != [] && ws(s[0]) then TrimLeft(s[1..], ws) else s
  }

  /** `s` with its longest suffix of `ws` characters removed. */
  function TrimRight(s: string, ws: char -> bool): (r: string)
    ensures |r| <= |s| && r == s[..|r|]
    ensures r != [] ==> !ws(r[|r| - 1])
    ensures forall i :: |r| <= i < |s| ==> ws(s[i])
  {
    if s != [] && ws(s[|s| - 1]) then TrimRight(s[..|s| - 1], ws) else s
  }

  /** Both ends trimmed; every character of the result occurs in `s`. */
  function Trim(s: string, ws: char -> bool): (r: string)
    ensures r != [] ==> !ws(r[0]) && !ws(r[|r| - 1])
    ensures forall c :: c in r ==> c in s
  {
    var l := TrimLeft(s, ws);
    var r := TrimRight(l, ws);
    assert forall c :: c in r ==> c in l;
    assert forall c :: c in l ==> c in s;
    r
  }

  /** A string without blanks at either end is its own trim. */
  lemma {:induction false} TrimOfTrimmed(s: string, ws: char -> bool)
    requires s != [] ==> !ws(s[0]) && !ws(s[|s| - 1])
    ensures Trim(s, ws) == s
  {
    assert TrimLeft(s, ws) == s;
    assert TrimRight(s, ws) == s;
  }

  /** Trimming twice is trimming once. */
  lemma TrimIdempotent(s: string, ws: char -> bool)
    ensures Trim(Trim(s, ws), ws) == Trim(s, ws)
  {
    TrimOfTrimmed(Trim(s, ws), ws);
  }

  /** A single leading blank disappears under trimming. */
  lemma {:induction false} TrimBlankPrefix(c: char, s: string, ws: char -> bool)
    requires ws(c)
    ensures Trim([c] + s, ws) == Trim(s, ws)
  {
    assert ([c] + s)[1..] == s;
  }

  /** Trimming keeps a suffix that starts and ends with non-blanks. */
  lemma TrimKeepsSuffix(n: string, t: string, ws: char -> bool)
    requires t != [] && !ws(t[0]) && !ws(t[|t| - 1])
    ensures EndsWith(Trim(n + t, ws), t)
  {
    var s := n + t;
    var l := TrimLeft(s, ws);
    assert s[|n|] == t[0];
    assert |s| - |l| <= |n|;
    assert l[|l| - 1] == t[|t| - 1];
    assert TrimRight(l, ws) == l;
    assert l[|l| - |t|..] == s[|s| - |t|..] == t;
  }

  /** JavaScript's `s.trim()`. */
  function JsTrim(s: string): string
  {
    Trim(s, IsJsSpace)
  }

  /** Python's `s.strip()`. */
  function PyStrip(s: string): string
  {
    Trim(s, IsPySpace)
  }

  /** JavaScript's `s.indexOf(c)` for a one-character needle: the first
   *  index of `c`, or -1 when `s` does not contain it. */
  function IndexOf(s: string, c: char): (i: int)
    ensures -1 <= i < |s|
    ensures i == -1 <==> c !in s
    ensures 0 <= i ==> s[i] == c && c !in s[..i]
  {
    if s == [] then -1
    else if s[0] == c then 0
    else
      var j := IndexOf(s[1..], c);
      if j < 0 then -1
      else
        assert s[..j + 1] == [s[0]] + s[1..][..j];
        j + 1
  }

  /** The first occurrence of `c` in `a + [c] + b` is right after `a` when `a` lacks `c`. */
  lemma IndexOfAfter(a: string, c: char, b: string)
    requires c !in a
    ensures IndexOf(a + [c] + b, c) == |a|
  {
    var s := a + [c] + b;
    assert s[..|a|] == a;
    assert s[|a|] == c;
  }

  /** `parts` separated by `sep` (JavaScript `parts.join(sep)`, Python `sep.join(parts)`). */
  function Join(parts: seq<string>, sep: string): (r: string)
    ensures |parts| == 1 ==> r == parts[0]
  {
    if |parts| == 0 then ""
    else if |parts| == 1 then parts[0]
    else parts[0] + sep + Join(parts[1..], sep)
  }

  /** Splitting at a one-character separator, as JavaScript's `s.split(",")`
   *  and Python's `s.split("\n")` both do: never empty, and no piece
   *  contains the separator. */
  function Split(s: string, c: char): (parts: seq<string>)
    ensures |parts| >= 1
    ensures forall p :: p in parts ==> c !in p
    decreases |s|
  {
    var i := IndexOf(s, c);
    if i < 0 then [s] else [s[..i]] + Split(s[i + 1..], c)
  }

  /** Joining the pieces of a split gives the string back. */
  lemma {:induction false} JoinSplit(s: string, c: char)
    ensures Join(Split(s, c), [c]) == s
    decreases |s|
  {
    var i := IndexOf(s, c);
    if i >= 0 {
      var rest := Split(s[i + 1..], c);
      JoinSplit(s[i + 1..], c);
      assert ([s[..i]] + rest)[1..] == rest;
      assert Join([s[..i]] + rest, [c]) == s[..i] + [c] + Join(rest, [c]);
      assert s == s[..i] + [c] + s[i + 1..];
    }
  }

  /** Splitting at the first separator peels off the text before it. */
  lemma SplitAfter(a: string, c: char, b: string)
    requires c !in a
    ensures Split(a + [c] + b, c) == [a] + Split(b, c)
  {
    IndexOfAfter(a, c, b);
    var s := a + [c] + b;
    assert s[..|a|] == a;
    assert s[|a| + 1..] == b;
  }

  /** Joining separator-free pieces and splitting again gives the pieces back. */
  lemma {:induction false} SplitJoin(parts: seq<string>, c: char)
    requires |parts| >= 1
    requires forall p :: p in parts ==> c !in p
    ensures Split(Join(parts, [c]), c) == parts
    decreases |parts|
  {
    if |parts| > 1 {
      SplitJoin(parts[1..], c);
      assert parts[0] in parts;
      SplitAfter(parts[0], c, Join(parts[1..], [c]));
      assert parts[0] + [c] + Join(parts[1..], [c]) == Join(parts, [c]);
    }
  }

  /** The longest prefix of `s` free of `ws` characters. */
  function Token(s: string, ws: char -> bool): (r: string)
    ensures |r| <= |s| && r == s[..|r|]
    ensures forall i :: 0 <= i < |r| ==> !ws(r[i])
    ensures |r| < |s| ==> ws(s[|r|])
  {
    if s == [] || ws(s[0]) then []
    else
      var t := Token(s[1..], ws);
      [s[0]] + t
  }

  /** Python's `s.split()`: the maximal runs of non-blank characters. */
  function Words(s: string): (ws: seq<string>)
    ensures forall w :: w in ws ==> w != [] && forall i :: 0 <= i < |w| ==> !IsPySpace(w[i])
    decreases |s|
  {
    var t := TrimLeft(s, IsPySpace);
    if t == [] then []
    else
      var w := Token(t, IsPySpace);
      assert w != [] by {
        assert !IsPySpace(t[0]);
      }
      var rest := Words(t[|w|..]);
      assert forall x :: x in [w] + rest ==> x == w || x in rest;
      [w] + rest
  }

  /** Python's `s.isspace() or s == ""`: every character is whitespace. */
  predicate Blank(s: string)
  {
    forall i :: 0 <= i < |s| ==> IsPySpace(s[i])
  }

  /** Python's `s.split(None, 1)`: nothing for a blank string, otherwise the
   *  first word and, when anything but blanks follows it, the rest of the
   *  string after the blanks that end the word (trailing blanks are kept). */
  function SplitOnce(s: string): (parts: seq<string>)
    ensures |parts| <= 2
    ensures |parts| == 0 <==> Blank(s)
    ensures |parts| >= 1 ==> parts[0] != [] && forall i :: 0 <= i < |parts[0]| ==> !IsPySpace(parts[0][i])
    ensures |parts| == 2 ==> parts[1] != [] && !IsPySpace(parts[1][0])
  {
    var t := TrimLeft(s, IsPySpace);
    if t == [] then []
    else
      var w := Token(t, IsPySpace);
      var rest := TrimLeft(t[|w|..], IsPySpace);
      if rest == [] then [w] else [w, rest]
  }

  /** The pieces of `split(None, 1)` put back: leading blanks, the first word,
   *  the blanks after it, and the remainder when there is one. */
  lemma SplitOnceRebuild(s: string)
    requires !Blank(s)
    ensures |SplitOnce(s)| == 1 ==>
      exists lead, tail :: Blank(lead) && Blank(tail) && s == lead + SplitOnce(s)[0] + tail
    ensures |SplitOnce(s)| == 2 ==>
      exists lead, gap :: Blank(lead) && Blank(gap) && gap != [] && s == lead + SplitOnce(s)[0] + gap + SplitOnce(s)[1]
  {
    var t := TrimLeft(s, IsPySpace);
    var w := Token(t, IsPySpace);
    var rest := TrimLeft(t[|w|..], IsPySpace);
    var lead, gap := WordPieces(s, IsPySpace);
    var parts := SplitOnce(s);
    assert parts == if rest == [] then [w] else [w, rest];
    assert Blank(lead) && Blank(gap);
    if rest == [] {
      assert s == lead + parts[0] + gap;
    } else {
      assert s == lead + parts[0] + gap + parts[1];
    }
  }

  /** The blanks, first word, blanks and remainder that `SplitOnce` cuts `s` into. */
  lemma WordPieces(s: string, ws: char -> bool) returns (lead: string, gap: string)
    ensures var t := TrimLeft(s, ws);
      var w := Token(t, ws);
      var rest := TrimLeft(t[|w|..], ws);
      s == lead + w + gap + rest && (rest != [] ==> gap != [])
    ensures forall i :: 0 <= i < |lead| ==> ws(lead[i])
    ensures forall i :: 0 <= i < |gap| ==> ws(gap[i])
  {
    var t := TrimLeft(s, ws);
    var w := Token(t, ws);
    var after := t[|w|..];
    var rest := TrimLeft(after, ws);
    lead := LeadSplit(s, ws);
    gap := LeadSplit(after, ws);
    TokenSplit(t, ws);
    ConcatFour(s, t, after, lead, w, gap, rest);
  }

  /** `s` is its trimmed prefix followed by what `TrimLeft` keeps. */
  lemma LeadSplit(s: string, ws: char -> bool) returns (lead: string)
    ensures s == lead + TrimLeft(s, ws)
    ensures forall i :: 0 <= i < |lead| ==> ws(lead[i])
  {
    var t := TrimLeft(s, ws);
    lead := s[..|s| - |t|];
    assert s == lead + t;
  }

  /** `s` is its leading token followed by the rest. */
  lemma TokenSplit(s: string, ws: char -> bool)
    ensures s == Token(s, ws) + s[|Token(s, ws)|..]
  {
  }

  /** Python's `s.startswith(p)`. */
  predicate StartsWith(s: string, p: string)
  {
    |p| <= |s| && s[..|p|] == p
  }

  /** Python's `s.endswith(p)`. */
  predicate EndsWith(s: string, p: string)
  {
    |p| <= |s| && s[|s| - |p|..] == p
  }

  /** Python's `s.replace(p, q)`: every non-overlapping occurrence of `p`,
   *  scanning left to right, replaced by `q`. */
  function Replace(s: string, p: string, q: string): (r: string)
    requires p != []
    ensures q == [] ==> |r| <= |s|
    ensures p[0] !in s ==> r == s
    decreases |s|
  {
    if s == [] then []
    else if StartsWith(s, p) then q + Replace(s[|p|..], p, q)
    else
      assert s == [s[0]] + s[1..];
      [s[0]] + Replace(s[1..], p, q)
  }

  /** A character that cannot start the pattern is copied as it is. */
  lemma ReplaceCons(c: char, s: string, p: string, q: string)
    requires p != [] && c != p[0]
    ensures Replace([c] + s, p, q) == [c] + Replace(s, p, q)
  {
    assert ([c] + s)[1..] == s;
  }

  /** A scan that meets no earlier start of the pattern replaces its first
   *  occurrence and goes on after it. */
  lemma {:induction false} ReplaceFirst(a: string, p: string, q: string, b: string)
    requires p != [] && p[0] !in a
    ensures Replace(a + p + b, p, q) == a + q + Replace(b, p, q)
    decreases |a|
  {
    if a == [] {
      var s := p + b;
      assert s[..|p|] == p && s[|p|..] == b;
      assert a + p + b == s;
    } else {
      var rest := a[1..] + p + b;
      assert a + p + b == [a[0]] + rest by { ConsSplit(a); }
      assert p[0] !in a[1..] by { assert forall c :: c in a[1..] ==> c in a; }
      ReplaceCons(a[0], rest, p, q);
      ReplaceFirst(a[1..], p, q, b);
      var t := Replace(b, p, q);
      Associative([a[0]], a[1..] + q, t);
      Associative([a[0]], a[1..], q);
      ConsSplit(a);
    }
  }

  /** Removing a pattern that only occurs at the very end leaves the text
   *  before it. */
  lemma ReplaceSuffix(a: string, p: string)
    requires p != [] && p[0] !in a
    ensures Replace(a + p, p, []) == a
  {
    ReplaceFirst(a, p, [], []);
    assert a + p + [] == a + p;
  }

  /** ASCII `toLowerCase`: no upper-case letter is left, each one becomes its
   *  lower-case letter, and every other character is kept. */
  function Lower(s: string): (r: string)
    ensures |r| == |s|
    ensures forall i :: 0 <= i < |r| ==> !('A' <= r[i] <= 'Z')
    ensures forall i :: 0 <= i < |s| && 'A' <= s[i] <= 'Z' ==> r[i] as int == s[i] as int + 32
    ensures forall i :: 0 <= i < |s| && !('A' <= s[i] <= 'Z') ==> r[i] == s[i]
  {
    seq(|s|, i requires 0 <= i < |s| => if 'A' <= s[i] <= 'Z' then (s[i] as int + 32) as char else s[i])
  }

  /** Lower-casing twice is lower-casing once. */
  lemma LowerIdempotent(s: string)
    ensures Lower(Lower(s)) == Lower(s)
  {
  }

  /** The decimal rendering of a natural number (Python `str(n)`, JS `${n}`). */
  function Decimal(n: nat): (r: string)
    ensures r != [] && forall i :: 0 <= i < |r| ==> '0' <= r[i] <= '9'
  {
    var d := ['0' + (n % 10) as char];
    if n < 10 then d else Decimal(n / 10) + d
  }
}
