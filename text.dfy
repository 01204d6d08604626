/** String helpers with Python's semantics: `str.strip`, `str.split`, `str.join`,
    `str.lower`, `str.isupper`, `in`, `startswith`, `endswith` and `str(int)`. */
module Text {

  /** Python's `str.isspace` for one character: the Unicode whitespace set, which is
      also what `str.strip()` removes and what the regular expression `\s` matches. */
  predicate IsSpace(c: char) {
    var n := c as int;
    n == 0x20 || (0x09 <= n <= 0x0D) || (0x1C <= n <= 0x1F) || n == 0x85 || n == 0xA0
    || n == 0x1680 || (0x2000 <= n <= 0x200A) || n == 0x2028 || n == 0x2029
    || n == 0x202F || n == 0x205F || n == 0x3000
  }

  predicate AllSpace(s: string) {
    forall i :: 0 <= i < |s| ==> IsSpace(s[i])
  }

  /** The class `[A-Z]` of a regular expression. */
  predicate IsAsciiUpper(c: char) {
    'A' <= c <= 'Z'
  }

  /** `str.isupper` on one character, for ASCII and Latin-1 letters. */
  predicate IsUpper(c: char) {
    IsAsciiUpper(c) || (0xC0 <= c as int <= 0xDE && c as int != 0xD7)
  }

  function LowerChar(c: char): (d: char)
    ensures !IsUpper(d)
    ensures !IsUpper(c) ==> d == c
  {
    if IsUpper(c) then (c as int + 32) as char else c
  }

  /** `str.lower()`. */
  function Lower(s: string): (r: string)
    ensures |r| == |s|
    ensures forall i :: 0 <= i < |s| ==> r[i] == LowerChar(s[i])
  {
    seq(|s|, i requires 0 <= i < |s| => LowerChar(s[i]))
  }

  /** Lowering a text without upper-case letters leaves it as it is. */
  lemma LowerIdentity(s: string)
    requires forall i :: 0 <= i < |s| ==> !IsUpper(s[i])
    ensures Lower(s) == s
  {
  }

  /** No whitespace at either end: what `str.strip()` produces. */
  predicate IsStripped(s: string) {
    |s| == 0 || (!IsSpace(s[0]) && !IsSpace(s[|s| - 1]))
  }

  /** `str.lstrip()`: drops the leading whitespace. */
  function LStrip(s: string): (r: string)
    ensures |r| <= |s| && r == s[|s| - |r|..]
    ensures |r| == 0 || !IsSpace(r[0])
    ensures AllSpace(s[..|s| - |r|])
  {
    if |s| > 0 && IsSpace(s[0]) then LStrip(s[1..]) else s
  }

  /** `str.rstrip()`: drops the trailing whitespace. */
  function RStrip(s: string): (r: string)
    ensures r <= s
    ensures |r| == 0 || !IsSpace(r[|r| - 1])
    ensures AllSpace(s[|r|..])
  {
    if |s| > 0 && IsSpace(s[|s| - 1]) then RStrip(s[..|s| - 1]) else s
  }

  /** `str.strip()`. */
  function Strip(s: string): (r: string)
    ensures IsStripped(r)
    ensures |r| <= |s|
  {
    RStrip(LStrip(s))
  }

  lemma {:induction false} LStripSpaces(pre: string, s: string)
    requires AllSpace(pre)
    requires |s| == 0 || !IsSpace(s[0])
    ensures LStrip(pre + s) == s
  {
    if |pre| > 0 {
      assert (pre + s)[1..] == pre[1..] + s;
      LStripSpaces(pre[1..], s);
    }
  }

  lemma {:induction false} RStripSpaces(s: string, post: string)
    requires AllSpace(post)
    requires |s| == 0 || !IsSpace(s[|s| - 1])
    ensures RStrip(s + post) == s
  {
    if |post| > 0 {
      assert (s + post)[..|s + post| - 1] == s + post[..|post| - 1];
      RStripSpaces(s, post[..|post| - 1]);
    } else {
      assert s + post == s;
    }
  }

  /** Whitespace around an already stripped text is exactly what `strip()` removes. */
  lemma StripAround(pre: string, s: string, post: string)
    requires AllSpace(pre) && AllSpace(post) && IsStripped(s)
    ensures Strip(pre + s + post) == s
  {
    if |s| == 0 {
      assert pre + s + post == pre + post;
      assert AllSpace(pre + post);
      LStripSpaces(pre + post, "");
      assert pre + post + "" == pre + post;
    } else {
      assert pre + s + post == pre + (s + post);
      LStripSpaces(pre, s + post);
      RStripSpaces(s, post);
    }
  }

  /** Any text is its stripped form with whitespace around it. */
  lemma StripParts(s: string) returns (a: string, z: string)
    ensures AllSpace(a) && AllSpace(z) && s == a + Strip(s) + z
  {
    var l := LStrip(s);
    var r := RStrip(l);
    a, z := s[..|s| - |l|], l[|r|..];
    PartsOf(s, l, r);
  }

  /** The cut points of `lstrip` and `rstrip` split a text into three parts. */
  lemma PartsOf(s: string, l: string, r: string)
    requires |l| <= |s| && l == s[|s| - |l|..] && r <= l
    ensures s == s[..|s| - |l|] + r + l[|r|..]
  {
    assert s == s[..|s| - |l|] + l;
    assert l == r + l[|r|..];
  }

  /** Whitespace added around any text does not change what `strip()` gives. */
  lemma StripPadded(pre: string, s: string, post: string)
    requires AllSpace(pre) && AllSpace(post)
    ensures Strip(pre + s + post) == Strip(s)
  {
    var a, z := StripParts(s);
    Regroup(pre, a, Strip(s), z, post);
    AllSpaceConcat(pre, a);
    AllSpaceConcat(z, post);
    StripAround(pre + a, Strip(s), z + post);
  }

  lemma Regroup(pre: string, a: string, r: string, z: string, post: string)
    ensures pre + (a + r + z) + post == (pre + a) + r + (z + post)
  {
  }

  lemma AllSpaceConcat(x: string, y: string)
    requires AllSpace(x) && AllSpace(y)
    ensures AllSpace(x + y)
  {
    forall i | 0 <= i < |x + y| ensures IsSpace((x + y)[i]) {
      if i < |x| {
        assert (x + y)[i] == x[i];
      } else {
        assert (x + y)[i] == y[i - |x|];
      }
    }
  }

  /** `str.lower()` works character by character. */
  lemma LowerConcat(x: string, y: string)
    ensures Lower(x + y) == Lower(x) + Lower(y)
  {
  }

  /** Lowering twice is lowering once. */
  lemma LowerIdempotent(s: string)
    ensures Lower(Lower(s)) == Lower(s)
  {
    LowerIdentity(Lower(s));
  }

  /** Lowering keeps whitespace and non-whitespace apart, so it commutes with
      `strip()`. */
  lemma LowerStrip(s: string)
    ensures Strip(Lower(s)) == Lower(Strip(s))
  {
    var a, z := StripParts(s);
    var r := Strip(s);
    LowerConcat(a + r, z);
    LowerConcat(a, r);
    LowerSpaces(a);
    LowerSpaces(z);
    LowerStripped(r);
    StripAround(a, Lower(r), z);
  }

  lemma LowerSpaces(a: string)
    requires AllSpace(a)
    ensures Lower(a) == a
  {
    LowerIdentity(a);
  }

  /** Lowering never turns a character into whitespace or back. */
  lemma LowerStripped(r: string)
    requires IsStripped(r)
    ensures IsStripped(Lower(r))
  {
  }

  lemma StripStripped(s: string)
    requires IsStripped(s)
    ensures Strip(s) == s
  {
    StripAround("", s, "");
    assert "" + s + "" == s;
  }

  /** `Strip` keeps a slice of its argument, so a character the argument lacks is
      missing from the result too. */
  lemma StripWithout(s: string, c: char)
    requires c !in s
    ensures c !in Strip(s)
  {
    var l := LStrip(s);
    assert c !in l by {
      assert l == s[|s| - |l|..];
    }
    var r := RStrip(l);
    assert c !in r by {
      assert r == l[..|r|];
    }
  }

  /** `str.lstrip(c)`: drops every leading occurrence of `c`. */
  function LStripChar(s: string, c: char): (r: string)
    ensures |r| <= |s| && r == s[|s| - |r|..]
    ensures |r| == 0 || r[0] != c
  {
    if |s| > 0 && s[0] == c then LStripChar(s[1..], c) else s
  }

  /** `str.rstrip(c)`: drops every trailing occurrence of `c`. */
  function RStripChar(s: string, c: char): (r: string)
    ensures r <= s
    ensures |r| == 0 || r[|r| - 1] != c
  {
    if |s| > 0 && s[|s| - 1] == c then RStripChar(s[..|s| - 1], c) else s
  }

  /** Stripping `c` from the left removes exactly a leading run of `c`. */
  lemma {:induction false} LStripCharPrefix(p: string, q: string, c: char)
    requires forall i :: 0 <= i < |p| ==> p[i] == c
    requires |q| == 0 || q[0] != c
    ensures LStripChar(p + q, c) == q
  {
    if |p| > 0 {
      assert (p + q)[1..] == p[1..] + q;
      LStripCharPrefix(p[1..], q, c);
    } else {
      assert p + q == q;
    }
  }

  /** Stripping `c` from the right removes exactly a trailing run of `c`. */
  lemma {:induction false} RStripCharSuffix(p: string, q: string, c: char)
    requires forall i :: 0 <= i < |q| ==> q[i] == c
    requires |p| == 0 || p[|p| - 1] != c
    ensures RStripChar(p + q, c) == p
  {
    if |q| > 0 {
      assert (p + q)[..|p + q| - 1] == p + q[..|q| - 1];
      RStripCharSuffix(p, q[..|q| - 1], c);
    } else {
      assert p + q == p;
    }
  }

  predicate StartsWith(s: string, prefix: string) {
    prefix <= s
  }

  predicate EndsWith(s: string, suffix: string) {
    |suffix| <= |s| && s[|s| - |suffix|..] == suffix
  }

  /** Python's `sub in s` on strings. */
  predicate Contains(s: string, sub: string)
    decreases |s|
  {
    StartsWith(s, sub) || (|s| > 0 && Contains(s[1..], sub))
  }

  /** The index of the first `c` in `s`, or `|s|` when there is none (`s.index(c)`
      where it does not raise). */
  function IndexOf<T(==)>(s: seq<T>, c: T): (i: nat)
    ensures i <= |s|
    ensures i < |s| ==> s[i] == c
    ensures c !in s[..i]
    ensures i == |s| <==> c !in s
  {
    if |s| == 0 then 0
    else if s[0] == c then 0
    else
      assert s[1..][..IndexOf(s[1..], c)] == s[1..IndexOf(s[1..], c) + 1];
      1 + IndexOf(s[1..], c)
  }

  /** The first occurrence in a concatenation is in the first part when there is
      one there. */
  lemma {:induction false} IndexOfConcat<T>(p: seq<T>, q: seq<T>, c: T)
    ensures IndexOf(p + q, c) == if c in p then IndexOf(p, c) else |p| + IndexOf(q, c)
  {
    if |p| > 0 {
      assert (p + q)[1..] == p[1..] + q;
      IndexOfConcat(p[1..], q, c);
    } else {
      assert p + q == q;
    }
  }

  /** `sep.join(parts)`. */
  function Join(parts: seq<string>, sep: string): string {
    if |parts| == 0 then ""
    else if |parts| == 1 then parts[0]
    else parts[0] + sep + Join(parts[1..], sep)
  }

  /** `s.split(sep)` for a one-character separator: never empty; `SplitPartsFree`
      shows that no part holds the separator and `SplitJoinBack` that joining the
      parts gives `s` back. */
  function Split(s: string, sep: char): (parts: seq<string>)
    ensures |parts| >= 1
    ensures sep !in s ==> parts == [s]
  {
    if |s| == 0 then [""]
    else
      var rest := Split(s[1..], sep);
      if s[0] == sep then
        assert ([""] + rest)[1..] == rest;
        [""] + rest
      else
        var parts := [[s[0]] + rest[0]] + rest[1..];
        assert parts[1..] == rest[1..];
        assert s == [s[0]] + s[1..];
        parts
  }

  lemma {:induction false} SplitPartsFree(s: string, sep: char)
    ensures forall i :: 0 <= i < |Split(s, sep)| ==> sep !in Split(s, sep)[i]
  {
    if |s| > 0 {
      SplitPartsFree(s[1..], sep);
      var rest := Split(s[1..], sep);
      if s[0] == sep {
        assert Split(s, sep) == [""] + rest;
      } else {
        assert Split(s, sep) == [[s[0]] + rest[0]] + rest[1..];
        assert sep !in [s[0]] + rest[0];
      }
    }
  }

  lemma {:induction false} SplitJoinBack(s: string, sep: char)
    ensures Join(Split(s, sep), [sep]) == s
  {
    if |s| > 0 {
      SplitJoinBack(s[1..], sep);
      var rest := Split(s[1..], sep);
      if s[0] == sep {
        assert ([""] + rest)[1..] == rest;
      } else {
        var parts := [[s[0]] + rest[0]] + rest[1..];
        assert parts[1..] == rest[1..];
        assert |rest| > 1 ==> Join(rest, [sep]) == rest[0] + [sep] + Join(rest[1..], [sep]);
        assert s == [s[0]] + s[1..];
      }
    }
  }

  lemma {:induction false} SplitAfterPart(a: string, b: string, sep: char)
    requires sep !in a
    ensures Split(a + [sep] + b, sep) == [a] + Split(b, sep)
  {
    if |a| == 0 {
      assert a + [sep] + b == [sep] + b;
      assert ([sep] + b)[1..] == b;
    } else {
      var s := a + [sep] + b;
      assert s[1..] == a[1..] + [sep] + b && s[0] == a[0];
      SplitAfterPart(a[1..], b, sep);
      SplitStep(s, sep);
      assert [s[0]] + a[1..] == a;
    }
  }

  /** The text after the last separator is the last part, and there are at least two. */
  lemma {:induction false} SplitLast(a: string, b: string, sep: char)
    requires sep !in b
    ensures var parts := Split(a + [sep] + b, sep); |parts| >= 2 && parts[|parts| - 1] == b
  {
    var s := a + [sep] + b;
    if |a| == 0 {
      assert s == [sep] + b;
      assert s[1..] == b;
    } else {
      var t := a[1..] + [sep] + b;
      assert s[1..] == t && s[0] == a[0];
      SplitLast(a[1..], b, sep);
      SplitStep(s, sep);
    }
  }

  /** One step of `Split`: the first character either starts a new part or joins
      the first part of the rest. */
  lemma SplitStep(s: string, sep: char)
    requires |s| > 0
    ensures var rest := Split(s[1..], sep);
      Split(s, sep) == if s[0] == sep then [""] + rest else [[s[0]] + rest[0]] + rest[1..]
  {
  }

  /** Splitting a join of separator-free parts gives the parts back. */
  lemma {:induction false} SplitJoin(parts: seq<string>, sep: char)
    requires |parts| >= 1
    requires forall i :: 0 <= i < |parts| ==> sep !in parts[i]
    ensures Split(Join(parts, [sep]), sep) == parts
  {
    if |parts| > 1 {
      SplitJoin(parts[1..], sep);
      SplitAfterPart(parts[0], Join(parts[1..], [sep]), sep);
      assert [parts[0]] + parts[1..] == parts;
    }
  }

  /** `s.split(sep, 1)`: at most two parts, cut at the first separator. */
  function SplitOnce(s: string, sep: char): (parts: seq<string>)
    ensures sep !in s ==> parts == [s]
    ensures sep in s ==> |parts| == 2 && sep !in parts[0] && s == parts[0] + [sep] + parts[1]
  {
    var i := IndexOf(s, sep);
    if i == |s| then [s]
    else
      assert s == s[..i] + [sep] + s[i + 1..];
      [s[..i], s[i + 1..]]
  }

  /** Splitting once cuts at the first separator. */
  lemma SplitOnceAt(a: string, b: string, sep: char)
    requires sep !in a
    ensures SplitOnce(a + [sep] + b, sep) == [a, b]
  {
    var s := a + [sep] + b;
    assert s == a + ([sep] + b);
    IndexOfConcat(a, [sep] + b, sep);
    assert s[..|a|] == a && s[|a| + 1..] == b;
  }

  function DigitChar(d: nat): char
    requires d < 10
  {
    "0123456789"[d]
  }

  /** `str(n)` for a natural number: decimal digits, most significant first. */
  function NatToString(n: nat): (r: string)
    ensures |r| >= 1
    ensures forall i :: 0 <= i < |r| ==> '0' <= r[i] <= '9'
  {
    if n < 10 then [DigitChar(n)] else NatToString(n / 10) + [DigitChar(n % 10)]
  }

  /** `str(i)` for an integer. */
  function IntToString(i: int): string {
    if i < 0 then "-" + NatToString(-i) else NatToString(i)
  }
}
