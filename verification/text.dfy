/**
 * The parts of Rust's `str` API the transcoder relies on, over `string`.
 * Only ASCII case folding and ASCII whitespace are modelled; every string
 * the model inspects is treated as a sequence of single-byte characters.
 */
module Text {
  import opened Wrappers

  // ---------------------------------------------------------------------
  // Substring search: `str::contains`, `str::starts_with`
  // ---------------------------------------------------------------------

  /** `sub[j..]` occurs in `s` at offset `i + j`. */
  predicate MatchAt(s: string, sub: string, i: nat, j: nat)
    decreases |sub| - j
  {
    j >= |sub| || (i + j < |s| && s[i + j] == sub[j] && MatchAt(s, sub, i, j + 1))
  }

  /** `sub` occurs in `s` at some offset `i` or later. */
  predicate ContainsFrom(s: string, sub: string, i: nat)
    decreases |s| - i
  {
    i + |sub| <= |s| && (MatchAt(s, sub, i, 0) || ContainsFrom(s, sub, i + 1))
  }

  /** `s.contains(sub)`: the naive left-to-right search. */
  predicate Contains(s: string, sub: string)
  {
    ContainsFrom(s, sub, 0)
  }

  /** `sub` sits in `s` at offset `k`. */
  predicate OccursAt(s: string, sub: string, k: nat)
  {
    k + |sub| <= |s| && s[k..k + |sub|] == sub
  }

  lemma {:induction false} MatchAtIff(s: string, sub: string, i: nat, j: nat)
    requires i + |sub| <= |s| && j <= |sub|
    ensures MatchAt(s, sub, i, j) <==> s[i + j..i + |sub|] == sub[j..]
    decreases |sub| - j
  {
    if j < |sub| {
      MatchAtIff(s, sub, i, j + 1);
      var a, b := s[i + j..i + |sub|], sub[j..];
      assert a == [s[i + j]] + s[i + j + 1..i + |sub|];
      assert b == [sub[j]] + sub[j + 1..];
    }
  }

  lemma {:induction false} ContainsFromIff(s: string, sub: string, i: nat)
    ensures ContainsFrom(s, sub, i) <==> exists k: nat :: i <= k && OccursAt(s, sub, k)
    decreases |s| - i
  {
    if i + |sub| <= |s| {
      MatchAtIff(s, sub, i, 0);
      ContainsFromIff(s, sub, i + 1);
      assert sub[0..] == sub;
      assert MatchAt(s, sub, i, 0) <==> OccursAt(s, sub, i);
      if MatchAt(s, sub, i, 0) {
        assert OccursAt(s, sub, i);
      } else if ContainsFrom(s, sub, i + 1) {
        var k: nat :| i + 1 <= k && OccursAt(s, sub, k);
        assert i <= k;
      } else {
        forall k: nat | i <= k
          ensures !OccursAt(s, sub, k)
        {
          if k > i {
            assert i + 1 <= k;
          }
        }
      }
    } else {
      forall k: nat | i <= k
        ensures !OccursAt(s, sub, k)
      {
      }
    }
  }

  /** `Contains` agrees with the textbook definition of a substring. */
  lemma ContainsIff(s: string, sub: string)
    ensures Contains(s, sub) <==> exists k: nat :: OccursAt(s, sub, k)
  {
    ContainsFromIff(s, sub, 0);
  }

  /** A witness offset proves containment. */
  lemma ContainsAt(s: string, sub: string, k: nat)
    requires OccursAt(s, sub, k)
    ensures Contains(s, sub)
  {
    ContainsIff(s, sub);
  }

  /** Containment is transitive: a text holding `mid` holds whatever `mid` holds. */
  lemma ContainsTrans(s: string, mid: string, sub: string)
    requires Contains(s, mid) && Contains(mid, sub)
    ensures Contains(s, sub)
  {
    ContainsIff(s, mid);
    ContainsIff(mid, sub);
    var k: nat :| OccursAt(s, mid, k);
    var j: nat :| OccursAt(mid, sub, j);
    forall i | 0 <= i < |sub|
      ensures s[k + j + i] == sub[i]
    {
      assert s[k..k + |mid|][j + i] == mid[j + i];
      assert mid[j..j + |sub|][i] == sub[i];
    }
    assert s[k + j..k + j + |sub|] == sub;
    ContainsAt(s, sub, k + j);
  }

  /** A string lacking one of `sub`'s characters cannot contain `sub`. */
  lemma NotContainsMissingChar(s: string, sub: string, c: char)
    requires c in sub && c !in s
    ensures !Contains(s, sub)
  {
    ContainsIff(s, sub);
    forall k: nat | k + |sub| <= |s|
      ensures !OccursAt(s, sub, k)
    {
      assert forall x :: x in s[k..k + |sub|] ==> x in s;
    }
  }

  /**
   * An occurrence of `sub` cannot straddle a character `sub` lacks: if
   * neither side contains `sub`, neither does the whole.
   */
  lemma NotContainsAcross(a: string, c: char, b: string, sub: string)
    requires c !in sub && !Contains(a, sub) && !Contains(b, sub)
    ensures !Contains(a + [c] + b, sub)
  {
    var s := a + [c] + b;
    ContainsIff(s, sub);
    ContainsIff(a, sub);
    ContainsIff(b, sub);
    forall k: nat | k + |sub| <= |s|
      ensures !OccursAt(s, sub, k)
    {
      if k + |sub| <= |a| {
        assert s[k..k + |sub|] == a[k..k + |sub|];
        assert !OccursAt(a, sub, k);
      } else if k > |a| {
        assert s[k..k + |sub|] == b[k - |a| - 1..k - |a| - 1 + |sub|];
        assert !OccursAt(b, sub, k - |a| - 1);
      } else {
        assert s[k..k + |sub|][|a| - k] == c;
      }
    }
  }

  /** Containment survives extending the string on either side. */
  lemma ContainsInConcat(a: string, s: string, b: string, sub: string)
    requires Contains(s, sub)
    ensures Contains(a + s + b, sub)
  {
    ContainsIff(s, sub);
    var k: nat :| OccursAt(s, sub, k);
    var t := a + s + b;
    assert t[|a| + k..|a| + k + |sub|] == s[k..k + |sub|];
    ContainsAt(t, sub, |a| + k);
  }

  /** `s.starts_with(p)`. */
  predicate StartsWith(s: string, p: string)
  {
    |p| <= |s| && s[..|p|] == p
  }

  // ---------------------------------------------------------------------
  // ASCII case folding: `str::to_lowercase` on ASCII text
  // ---------------------------------------------------------------------

  function LowerChar(c: char): char
  {
    if 'A' <= c <= 'Z' then (c as int + 32) as char else c
  }

  /** `s.to_lowercase()`, restricted to ASCII letters. */
  function Lower(s: string): string
  {
    seq(|s|, i requires 0 <= i < |s| => LowerChar(s[i]))
  }

  lemma LowerIdempotent(s: string)
    ensures Lower(Lower(s)) == Lower(s)
  {
  }

  lemma LowerConcat(a: string, b: string)
    ensures Lower(a + b) == Lower(a) + Lower(b)
  {
  }

  /** `c.is_ascii_digit()`. */
  predicate IsDigit(c: char)
  {
    '0' <= c <= '9'
  }

  /** A non-empty word of lower-case ASCII letters and digits. */
  predicate IsBareWord(s: string)
  {
    s != [] && forall i | 0 <= i < |s| :: 'a' <= s[i] <= 'z' || IsDigit(s[i])
  }

  /** `c.is_ascii_whitespace()` as used by `split_whitespace` and `trim`. */
  predicate IsWhitespace(c: char)
  {
    c == ' ' || c == '\t' || c == '\n' || c == '\r' || c == '\U{000B}' || c == '\U{000C}'
  }

  // ---------------------------------------------------------------------
  // Searching for a single character
  // ---------------------------------------------------------------------

  /** `s.find(c)`: the first index of `c`. */
  function IndexOf(s: string, c: char): (r: Option<nat>)
    ensures r.None? <==> c !in s
    ensures r.Some? ==> r.value < |s| && s[r.value] == c && c !in s[..r.value]
    decreases |s|
  {
    if s == [] then None
    else if s[0] == c then Some(0)
    else
      assert s == [s[0]] + s[1..];
      match IndexOf(s[1..], c)
      case None => None
      case Some(i) =>
        assert s[..i + 1] == [s[0]] + s[1..][..i];
        Some(i + 1)
  }

  /** The first occurrence of `c` is the one with no `c` before it. */
  lemma IndexOfIs(s: string, c: char, i: nat)
    requires i < |s| && s[i] == c && c !in s[..i]
    ensures IndexOf(s, c) == Some(i)
  {
  }

  /** `s.rfind(c)`: the last index of `c`. */
  function LastIndexOf(s: string, c: char): (r: Option<nat>)
    ensures r.None? <==> c !in s
    ensures r.Some? ==> r.value < |s| && s[r.value] == c && c !in s[r.value + 1..]
    decreases |s|
  {
    if s == [] then None
    else if s[|s| - 1] == c then Some(|s| - 1)
    else
      var r := LastIndexOf(s[..|s| - 1], c);
      assert s == s[..|s| - 1] + [s[|s| - 1]];
      r
  }

  // ---------------------------------------------------------------------
  // Lines, whitespace tokens and trimming
  // ---------------------------------------------------------------------

  /** Drops one `\r` left in front of the `\n` a line was split at. */
  function StripCr(line: string): string
  {
    if |line| > 0 && line[|line| - 1] == '\r' then line[..|line| - 1] else line
  }

  /**
   * `s.lines()`: pieces between `\n`s, each without a `\r` that preceded
   * its `\n`; a final line ending adds no empty line.
   */
  function Lines(s: string): (r: seq<string>)
    ensures forall k :: 0 <= k < |r| ==> '\n' !in r[k]
    decreases |s|
  {
    if s == [] then []
    else
      match IndexOf(s, '\n')
      case None => [s]
      case Some(i) => [StripCr(s[..i])] + Lines(s[i + 1..])
  }

  lemma LinesOfSingleLine(s: string)
    requires s != [] && '\n' !in s
    ensures Lines(s) == [s]
  {
  }

  lemma LinesOfConcat(a: string, b: string)
    requires '\n' !in a
    ensures Lines(a + "\n" + b) == [StripCr(a)] + Lines(b)
  {
    var s := a + "\n" + b;
    assert s[|a|] == '\n' && s[..|a|] == a && s[|a| + 1..] == b;
  }

  /** The end of the run of non-whitespace characters starting at `i`. */
  function TokenEnd(s: string, i: nat): (j: nat)
    requires i <= |s|
    ensures i <= j <= |s|
    ensures forall k :: i <= k < j ==> !IsWhitespace(s[k])
    ensures j < |s| ==> IsWhitespace(s[j])
    decreases |s| - i
  {
    if i == |s| || IsWhitespace(s[i]) then i else TokenEnd(s, i + 1)
  }

  /** A non-empty run of non-whitespace characters. */
  predicate IsToken(t: string)
  {
    t != [] && forall k :: 0 <= k < |t| ==> !IsWhitespace(t[k])
  }

  /** The same test phrased by membership, which a literal settles at once. */
  predicate HasNoWhitespace(t: string)
  {
    ' ' !in t && '\t' !in t && '\n' !in t && '\r' !in t && '\U{000B}' !in t && '\U{000C}' !in t
  }

  lemma IsTokenByMembership(t: string)
    requires t != [] && HasNoWhitespace(t)
    ensures IsToken(t)
  {
    forall k | 0 <= k < |t|
      ensures !IsWhitespace(t[k])
    {
      assert t[k] in t;
    }
  }

  /** `s.split_whitespace()`. */
  function SplitWhitespace(s: string): (r: seq<string>)
    ensures forall k :: 0 <= k < |r| ==> IsToken(r[k])
    decreases |s|
  {
    if s == [] then []
    else if IsWhitespace(s[0]) then SplitWhitespace(s[1..])
    else
      var n := TokenEnd(s, 0);
      [s[..n]] + SplitWhitespace(s[n..])
  }

  lemma SplitWhitespaceOfToken(t: string)
    requires IsToken(t)
    ensures SplitWhitespace(t) == [t]
  {
    assert TokenEnd(t, 0) == |t|;
    assert t[..|t|] == t && t[|t|..] == [];
  }

  lemma SplitWhitespaceCons(t: string, rest: string)
    requires IsToken(t)
    ensures SplitWhitespace(t + " " + rest) == [t] + SplitWhitespace(rest)
  {
    var s := t + " " + rest;
    assert forall k :: 0 <= k < |t| ==> s[k] == t[k];
    assert s[|t|] == ' ';
    assert TokenEnd(s, 0) == |t|;
    assert s[..|t|] == t;
    assert s[|t|..] == [' '] + rest;
    assert SplitWhitespace([' '] + rest) == SplitWhitespace(rest) by {
      assert ([' '] + rest)[1..] == rest;
    }
  }

  function TrimStart(s: string): (r: string)
    ensures |r| <= |s| && r == s[|s| - |r|..]
    ensures r != [] ==> !IsWhitespace(r[0])
    decreases |s|
  {
    if s != [] && IsWhitespace(s[0]) then TrimStart(s[1..]) else s
  }

  function TrimEnd(s: string): (r: string)
    ensures |r| <= |s| && r == s[..|r|]
    ensures r != [] ==> !IsWhitespace(r[|r| - 1])
    decreases |s|
  {
    if s != [] && IsWhitespace(s[|s| - 1]) then TrimEnd(s[..|s| - 1]) else s
  }

  /** `s.trim()`. */
  function Trim(s: string): string
  {
    TrimEnd(TrimStart(s))
  }

  /** Trimming a string that neither starts nor ends with whitespace changes nothing. */
  lemma TrimOfTrimmed(s: string)
    requires s != [] && !IsWhitespace(s[0]) && !IsWhitespace(s[|s| - 1])
    ensures Trim(s) == s
  {
  }

  /** One leading space is trimmed away. */
  lemma TrimLeadingSpace(s: string)
    ensures Trim(" " + s) == Trim(s)
  {
    assert (" " + s)[1..] == s;
  }

  /** `s.trim_matches(|c| c == a || c == b)`. */
  function TrimChars(s: string, a: char, b: char): (r: string)
    ensures |r| <= |s|
    ensures r != [] ==> r[0] != a && r[0] != b && r[|r| - 1] != a && r[|r| - 1] != b
    decreases |s|
  {
    if s != [] && (s[0] == a || s[0] == b) then TrimChars(s[1..], a, b)
    else if s != [] && (s[|s| - 1] == a || s[|s| - 1] == b) then TrimChars(s[..|s| - 1], a, b)
    else s
  }

  // ---------------------------------------------------------------------
  // Decimal numbers: `to_string` and `str::parse::<u32>`
  // ---------------------------------------------------------------------

  function DigitChar(d: nat): (c: char)
    requires d < 10
    ensures IsDigit(c)
  {
    ('0' as int + d) as char
  }

  function DigitValue(c: char): (d: nat)
    requires IsDigit(c)
    ensures d < 10
  {
    c as int - '0' as int
  }

  predicate AllDigits(s: string)
  {
    forall k :: 0 <= k < |s| ==> IsDigit(s[k])
  }

  /** `n.to_string()`: decimal digits, no leading zero except for zero itself. */
  function NatToString(n: nat): (r: string)
    ensures r != [] && AllDigits(r)
    ensures r[0] == '0' ==> n == 0
    ensures n < 10 <==> |r| == 1
    decreases n
  {
    if n < 10 then [DigitChar(n)] else NatToString(n / 10) + [DigitChar(n % 10)]
  }

  /** The value a string of decimal digits denotes. */
  function DigitsValue(s: string): nat
    requires AllDigits(s)
    decreases |s|
  {
    if s == [] then 0 else DigitsValue(s[..|s| - 1]) * 10 + DigitValue(s[|s| - 1])
  }

  /**
   * `s.parse::<u32>()`: an optional `+` then one or more ASCII digits whose
   * value fits in 32 bits; anything else is an error (here `None`).
   */
  function ParseU32(s: string): (r: Option<nat>)
    ensures r.Some? ==> r.value < 0x1_0000_0000
    ensures r.Some? ==> exists k: nat :: k <= 1 && k < |s| && AllDigits(s[k..]) && DigitsValue(s[k..]) == r.value
  {
    var k: nat := if |s| > 0 && s[0] == '+' then 1 else 0;
    var digits := s[k..];
    if |digits| == 0 || !AllDigits(digits) then None
    else if DigitsValue(digits) < 0x1_0000_0000 then Some(DigitsValue(digits))
    else None
  }

  lemma {:induction false} DigitsValueOfNatToString(n: nat)
    ensures DigitsValue(NatToString(n)) == n
    decreases n
  {
    if n >= 10 {
      DigitsValueOfNatToString(n / 10);
      var s := NatToString(n);
      assert s[..|s| - 1] == NatToString(n / 10);
    }
  }

  /** Printing a `u32` and parsing it back gives the same number. */
  lemma ParseU32OfNatToString(n: nat)
    requires n < 0x1_0000_0000
    ensures ParseU32(NatToString(n)) == Some(n)
  {
    DigitsValueOfNatToString(n);
  }

  /** A string with a non-digit after the optional sign does not parse. */
  lemma ParseU32RejectsNonDigit(s: string, k: nat)
    requires 0 < k < |s| || (k == 0 < |s| && s[0] != '+')
    requires !IsDigit(s[k])
    ensures ParseU32(s) == None
  {
    var start: nat := if |s| > 0 && s[0] == '+' then 1 else 0;
    if start <= k {
      assert s[start..][k - start] == s[k];
    }
  }

  // ---------------------------------------------------------------------
  // Joining
  // ---------------------------------------------------------------------

  /** `parts.join(sep)`. */
  function Join(parts: seq<string>, sep: string): string
    decreases |parts|
  {
    if |parts| == 0 then ""
    else if |parts| == 1 then parts[0]
    else parts[0] + sep + Join(parts[1..], sep)
  }

  /** A join starts the way its first part does. */
  lemma JoinHead(parts: seq<string>, sep: string)
    requires parts != [] && parts[0] != []
    ensures Join(parts, sep) != [] && Join(parts, sep)[0] == parts[0][0]
  {
  }
}
