/** The state-code reader of the Fabric router: the first `, XX` in the address,
    or else the uppercase letters of its second-to-last comma-separated part. */
module FabricRouter {
  import opened Wrappers
  import opened Text

  /** The pattern `,\s*([A-Z]{2})` tried at position `i`: a comma, any whitespace,
      then two ASCII capitals, which are the match. (The trailing `\s*,?` of the
      pattern always matches and captures nothing.) */
  function MatchAt(s: string, i: nat): (r: Option<string>)
    requires i < |s|
    ensures r.Some? ==> s[i] == ',' && |r.value| == 2 && IsAsciiUpper(r.value[0]) && IsAsciiUpper(r.value[1])
  {
    if s[i] != ',' then None
    else
      var t := LStrip(s[i + 1..]);
      if |t| >= 2 && IsAsciiUpper(t[0]) && IsAsciiUpper(t[1]) then Some(t[..2]) else None
  }

  /** `re.search` from position `i`: the match at the leftmost position that matches. */
  function Search(s: string, i: nat): (r: Option<string>)
    requires i <= |s|
    ensures r.Some? ==> |r.value| == 2 && IsAsciiUpper(r.value[0]) && IsAsciiUpper(r.value[1])
    decreases |s| - i
  {
    if i == |s| then None
    else if MatchAt(s, i).Some? then MatchAt(s, i)
    else Search(s, i + 1)
  }

  /** The search finds nothing exactly when no position from `i` on matches. */
  lemma {:induction false} SearchNone(s: string, i: nat)
    requires i <= |s|
    ensures Search(s, i).None? <==> forall k :: i <= k < |s| ==> MatchAt(s, k).None?
    decreases |s| - i
  {
    if i < |s| {
      SearchNone(s, i + 1);
    }
  }

  /** A match that is found is the match at the first position that matches. */
  lemma {:induction false} SearchLeftmost(s: string, i: nat)
    requires i <= |s| && Search(s, i).Some?
    ensures exists k :: i <= k < |s| && MatchAt(s, k) == Search(s, i)
                        && forall k' :: i <= k' < k ==> MatchAt(s, k').None?
    decreases |s| - i
  {
    if MatchAt(s, i).None? {
      SearchLeftmost(s, i + 1);
      var k :| i + 1 <= k < |s| && MatchAt(s, k) == Search(s, i + 1)
               && forall k' :: i + 1 <= k' < k ==> MatchAt(s, k').None?;
      NoMatchExtends(s, i, k);
    }
  }

  lemma NoMatchExtends(s: string, i: nat, k: nat)
    requires i < k < |s| && MatchAt(s, i).None?
    requires forall k' :: i + 1 <= k' < k ==> MatchAt(s, k').None?
    ensures forall k' :: i <= k' < k ==> MatchAt(s, k').None?
  {
  }

  /** The uppercase characters of `s`, in order. */
  function Uppers(s: string): (r: string)
    ensures |r| <= |s|
    ensures forall i :: 0 <= i < |r| ==> IsUpper(r[i])
  {
    if |s| == 0 then ""
    else if IsUpper(s[0]) then [s[0]] + Uppers(s[1..])
    else Uppers(s[1..])
  }

  /** One character is kept exactly when it is uppercase. */
  lemma UppersOne(c: char)
    ensures Uppers([c]) == if IsUpper(c) then [c] else []
  {
    assert [c][1..] == [];
  }

  /** The uppercase characters of two texts are those of each, in order: every
      uppercase character is kept, in the order of the text. */
  lemma {:induction false} UppersConcat(x: string, y: string)
    ensures Uppers(x + y) == Uppers(x) + Uppers(y)
    decreases |x|
  {
    if |x| == 0 {
      assert x + y == y;
    } else {
      assert (x + y)[0] == x[0];
      assert (x + y)[1..] == x[1..] + y;
      UppersConcat(x[1..], y);
    }
  }

  /** The stripped second-to-last comma-separated part. */
  function StatePart(address: string): string
    requires |Split(address, ',')| >= 3
  {
    var parts := Split(address, ',');
    Strip(parts[|parts| - 2])
  }

  /** The fallback: with at least three comma parts, the first two uppercase
      characters of the second-to-last part, when it has at least two. */
  function Fallback(address: string): (r: string)
    ensures |r| == 0 || |r| == 2
    ensures forall i :: 0 <= i < |r| ==> IsUpper(r[i])
    ensures |Split(address, ',')| < 3 ==> r == ""
    ensures |Split(address, ',')| >= 3 ==>
              (|r| == 2 <==> |Uppers(StatePart(address))| >= 2) && r <= Uppers(StatePart(address))
  {
    if |Split(address, ',')| >= 3 then
      var ups := Uppers(StatePart(address));
      if |ups| >= 2 then ups[..2] else ""
    else ""
  }

  /** `_extract_state`: always "" or two uppercase characters. */
  function ExtractState(address: string): (r: string)
    ensures |r| == 0 || |r| == 2
    ensures forall i :: 0 <= i < |r| ==> IsUpper(r[i])
    ensures Search(address, 0).Some? ==> r == Search(address, 0).value
    ensures Search(address, 0).None? ==> r == Fallback(address)
  {
    match Search(address, 0)
    case Some(state) => state
    case None => Fallback(address)
  }

  /** Positions without a comma are skipped. */
  lemma {:induction false} SearchSkips(s: string, i: nat, j: nat)
    requires i <= j <= |s|
    requires ',' !in s[i..j]
    ensures Search(s, i) == Search(s, j)
    decreases j - i
  {
    if i < j {
      assert s[i] == s[i..j][0];
      assert s[i + 1..j] == s[i..j][1..];
      SearchSkips(s, i + 1, j);
    }
  }

  /** A comma, one space and two capitals match. */
  lemma MatchAtCapitals(pre: string, x: char, y: char, post: string)
    requires IsAsciiUpper(x) && IsAsciiUpper(y)
    ensures MatchAt(pre + ", " + [x, y] + post, |pre|) == Some([x, y])
  {
    var s := pre + ", " + [x, y] + post;
    assert s[|pre| + 1..] == " " + ([x, y] + post);
    LStripSpaces(" ", [x, y] + post);
  }

  /** A comma, one space and anything but two capitals do not match. */
  lemma MatchAtNoCapitals(pre: string, x: char, y: char, post: string)
    requires !IsSpace(x) && !(IsAsciiUpper(x) && IsAsciiUpper(y))
    ensures MatchAt(pre + ", " + [x, y] + post, |pre|).None?
  {
    var s := pre + ", " + [x, y] + post;
    assert s[|pre| + 1..] == " " + ([x, y] + post);
    LStripSpaces(" ", [x, y] + post);
  }

  /** The documented example. */
  lemma ExtractStateExample(address: string)
    requires address == "123 Main St, Austin, TX, 78701"
    ensures ExtractState(address) == "TX"
  {
    assert Search(address, 0) == Some("TX") by {
      TexasSearch(address);
    }
  }

  lemma TexasSearch(s: string)
    requires s == "123 Main St, Austin, TX, 78701"
    ensures Search(s, 0) == Some("TX")
  {
    TexasSkipStreet(s);
    TexasSkipCity(s);
    TexasMatch(s);
  }

  lemma TexasSkipStreet(s: string)
    requires s == "123 Main St, Austin, TX, 78701"
    ensures Search(s, 0) == Search(s, 12)
  {
    TexasSkipDigits(s);
    TexasNoMatchAtAustin(s);
  }

  lemma TexasSkipDigits(s: string)
    requires s == "123 Main St, Austin, TX, 78701"
    ensures Search(s, 0) == Search(s, 11)
  {
    assert s[0..11] == "123 Main St";
    SearchSkips(s, 0, 11);
  }

  lemma TexasNoMatchAtAustin(s: string)
    requires s == "123 Main St, Austin, TX, 78701"
    ensures MatchAt(s, 11).None?
  {
    assert s == "123 Main St" + ", " + ['A', 'u'] + "stin, TX, 78701";
    MatchAtNoCapitals("123 Main St", 'A', 'u', "stin, TX, 78701");
  }

  lemma TexasSkipCity(s: string)
    requires s == "123 Main St, Austin, TX, 78701"
    ensures Search(s, 12) == Search(s, 19)
  {
    assert s[12..19] == " Austin";
    SearchSkips(s, 12, 19);
  }

  lemma TexasMatch(s: string)
    requires s == "123 Main St, Austin, TX, 78701"
    ensures Search(s, 19) == Some("TX")
  {
    assert MatchAt(s, 19) == Some("TX") by {
      assert s == "123 Main St, Austin" + ", " + ['T', 'X'] + ", 78701";
      MatchAtCapitals("123 Main St, Austin", 'T', 'X', ", 78701");
    }
  }
}
