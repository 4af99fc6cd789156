/** String helpers: `toLowerCase`, `includes`, `trim` and decimal rendering of
    counts, restricted to ASCII (Unicode case mapping and whitespace are not modelled). */
module Text {

  /** `toLowerCase` on one character (ASCII letters only). */
  function LowerChar(c: char): char
  {
    if 'A' <= c <= 'Z' then (c as int + 32) as char else c
  }

  /** `toLowerCase` on a string. */
  function Lower(s: string): (r: string)
    ensures |r| == |s|
    ensures forall i :: 0 <= i < |s| ==> r[i] == LowerChar(s[i])
    ensures forall i :: 0 <= i < |r| ==> !('A' <= r[i] <= 'Z')
  {
    seq(|s|, i requires 0 <= i < |s| => LowerChar(s[i]))
  }

  /** Lower-casing twice is lower-casing once. */
  lemma LowerIdempotent(s: string)
    ensures Lower(Lower(s)) == Lower(s)
  {
    assert forall i :: 0 <= i < |s| ==> LowerChar(LowerChar(s[i])) == LowerChar(s[i]);
  }

  /** `needle` occurs at offset `i` of `hay`. */
  predicate OccursAt(hay: string, needle: string, i: int)
  {
    0 <= i && i + |needle| <= |hay| && hay[i..i + |needle|] == needle
  }

  /** `hay.includes(needle)`, scanning the start positions from the left. */
  function Contains(hay: string, needle: string): (r: bool)
    ensures r <==> exists i :: OccursAt(hay, needle, i)
    decreases |hay|
  {
    if |needle| <= |hay| && hay[..|needle|] == needle then
      assert OccursAt(hay, needle, 0);
      true
    else if hay == [] then
      assert forall i :: !OccursAt(hay, needle, i);
      false
    else
      var rest := Contains(hay[1..], needle);
      assert !OccursAt(hay, needle, 0);
      assert rest ==> exists i :: OccursAt(hay, needle, i) by {
        if rest {
          var i :| OccursAt(hay[1..], needle, i);
          assert OccursAt(hay, needle, i + 1);
        }
      }
      assert (exists i :: OccursAt(hay, needle, i)) ==> rest by {
        if exists i :: OccursAt(hay, needle, i) {
          var i :| OccursAt(hay, needle, i);
          assert i != 0;
          assert OccursAt(hay[1..], needle, i - 1);
        }
      }
      rest
  }

  /** Every string contains the empty string, so an empty query matches everything. */
  lemma ContainsEmpty(hay: string)
    ensures Contains(hay, "")
  {
    assert OccursAt(hay, "", 0);
  }

  /** The characters `trim` strips (ASCII white space). */
  predicate IsSpace(c: char)
  {
    c == ' ' || c == '\t' || c == '\n' || c == '\r' || c as int == 11 || c as int == 12
  }

  /** True when every character of `s` is white space (this includes the empty string). */
  predicate AllSpace(s: string)
  {
    forall i :: 0 <= i < |s| ==> IsSpace(s[i])
  }

  function TrimStart(s: string): (r: string)
    ensures |r| <= |s| && r == s[|s| - |r|..]
    ensures r == [] || !IsSpace(r[0])
    ensures AllSpace(s[..|s| - |r|])
    decreases |s|
  {
    if s != [] && IsSpace(s[0]) then
      var r := TrimStart(s[1..]);
      assert AllSpace(s[..|s| - |r|]) by {
        forall i | 1 <= i < |s| - |r|
          ensures IsSpace(s[i])
        {
          assert s[1..][..|s| - 1 - |r|][i - 1] == s[i];
        }
      }
      r
    else s
  }

  function TrimEnd(s: string): (r: string)
    ensures |r| <= |s| && r == s[..|r|]
    ensures r == [] || !IsSpace(r[|r| - 1])
    ensures AllSpace(s[|r|..])
    decreases |s|
  {
    if s != [] && IsSpace(s[|s| - 1]) then
      var r := TrimEnd(s[..|s| - 1]);
      assert AllSpace(s[|r|..]) by {
        forall i | |r| <= i < |s| - 1
          ensures IsSpace(s[i])
        {
          assert s[..|s| - 1][|r|..][i - |r|] == s[i];
        }
      }
      r
    else s
  }

  /** `s.trim()`: the longest slice of `s` that neither starts nor ends with white space. */
  function Trim(s: string): (r: string)
    ensures |r| <= |s|
    ensures exists i :: OccursAt(s, r, i)
    ensures r == [] || (!IsSpace(r[0]) && !IsSpace(r[|r| - 1]))
  {
    var t := TrimStart(s);
    var r := TrimEnd(t);
    PrefixOfSuffixOccurs(s, t, r);
    TrimEndKeepsStart(t);
    r
  }

  /** A prefix of a suffix of `s` is a slice of `s` at the suffix's offset. */
  lemma PrefixOfSuffixOccurs(s: string, t: string, r: string)
    requires |t| <= |s| && t == s[|s| - |t|..]
    requires |r| <= |t| && r == t[..|r|]
    ensures OccursAt(s, r, |s| - |t|)
  {
    var i := |s| - |t|;
    forall k | 0 <= k < |r|
      ensures s[i..i + |r|][k] == r[k]
    {
      assert r[k] == t[k] && t[k] == s[i + k];
    }
    assert s[i..i + |r|] == r;
  }

  /** Trimming the end keeps a first character that is not white space. */
  lemma TrimEndKeepsStart(t: string)
    requires t == [] || !IsSpace(t[0])
    ensures TrimEnd(t) == [] || !IsSpace(TrimEnd(t)[0])
  {
    var r := TrimEnd(t);
    if r != [] {
      assert r[0] == t[0];
    }
  }

  /** `!s.trim()` holds exactly for the empty and the all-white-space strings. */
  lemma {:induction false} TrimEmptyIff(s: string)
    ensures Trim(s) == [] <==> AllSpace(s)
  {
    var t := TrimStart(s);
    assert s == s[..|s| - |t|] + t;
    if Trim(s) == [] {
      assert t[|TrimEnd(t)|..] == t;
      assert t == [];
      assert s[..|s|] == s;
    }
  }

  /** Trimming is idempotent. */
  lemma TrimIdempotent(s: string)
    ensures Trim(Trim(s)) == Trim(s)
  {
    var r := Trim(s);
    if r != [] {
      assert TrimStart(r) == r;
      assert TrimEnd(r) == r;
    }
  }

  /** The character of a decimal digit. */
  function DigitChar(d: nat): char
    requires d < 10
  {
    ('0' as int + d) as char
  }

  /** The value of a decimal digit character. */
  function DigitValue(c: char): nat
  {
    if '0' <= c <= '9' then c as int - '0' as int else 0
  }

  /** The decimal rendering of `n`, as `${n}` produces it for a non-negative integer. */
  function Decimal(n: nat): (r: string)
    ensures |r| >= 1
    ensures forall i :: 0 <= i < |r| ==> '0' <= r[i] <= '9'
    ensures n > 0 ==> r[0] != '0'
  {
    if n < 10 then [DigitChar(n)] else Decimal(n / 10) + [DigitChar(n % 10)]
  }

  /** Reading a string of decimal digits back to its value. */
  function ParseDecimal(s: string): nat
  {
    if s == [] then 0 else ParseDecimal(s[..|s| - 1]) * 10 + DigitValue(s[|s| - 1])
  }

  /** The decimal rendering reads back as the number it renders. */
  lemma {:induction false} DecimalRoundTrip(n: nat)
    ensures ParseDecimal(Decimal(n)) == n
  {
    if n >= 10 {
      DecimalRoundTrip(n / 10);
      var s := Decimal(n);
      assert s[..|s| - 1] == Decimal(n / 10);
    }
  }

  /** The UTF-16 code units of one character: a surrogate pair for a character beyond
      the Basic Multilingual Plane, one unit otherwise. */
  function Utf16Units(c: char): (k: nat)
    ensures k == 1 <==> (c as int) < 0x1_0000
    ensures k == 2 <==> (c as int) >= 0x1_0000
  {
    if c as int >= 0x1_0000 then 2 else 1
  }

  /** JavaScript's `s.length`, which counts UTF-16 code units, not characters. */
  function Utf16Length(s: string): (n: nat)
    ensures |s| <= n <= 2 * |s|
  {
    if s == [] then 0 else Utf16Length(s[..|s| - 1]) + Utf16Units(s[|s| - 1])
  }

  /** The length is the number of characters exactly when none is beyond the Basic
      Multilingual Plane, and twice that exactly when all are. */
  lemma {:induction false} Utf16LengthExtremes(s: string)
    ensures Utf16Length(s) == |s| <==> forall i :: 0 <= i < |s| ==> (s[i] as int) < 0x1_0000
    ensures Utf16Length(s) == 2 * |s| <==> forall i :: 0 <= i < |s| ==> (s[i] as int) >= 0x1_0000
  {
    if s != [] {
      var p := s[..|s| - 1];
      Utf16LengthExtremes(p);
      assert forall i :: 0 <= i < |p| ==> p[i] == s[i];
    }
  }
}
