/**
 * Character and string helpers shared by the backend and the two clients:
 * decimal digits (`str(n)`, `n.toString()`), whitespace trimming (`String.prototype.trim`),
 * lower-casing (`toLowerCase`) and substring search (`String.prototype.includes`).
 */
module Text {

  predicate IsDigit(c: char)
  {
    '0' <= c <= '9'
  }

  predicate AllDigits(s: string)
  {
    forall i :: 0 <= i < |s| ==> IsDigit(s[i])
  }

  function DigitValue(c: char): (d: nat)
    requires IsDigit(c)
    ensures d < 10
  {
    (c as int) - ('0' as int)
  }

  function DigitChar(d: nat): (c: char)
    requires d < 10
    ensures IsDigit(c) && DigitValue(c) == d
  {
    (('0' as int) + d) as char
  }

  /** The decimal spelling of a natural number, without leading zeros. */
  function NatToString(n: nat): (s: string)
    ensures |s| >= 1 && AllDigits(s)
    ensures n < 10 <==> |s| == 1
    ensures 10 <= n < 100 ==> |s| == 2
    decreases n
  {
    if n < 10 then [DigitChar(n)] else NatToString(n / 10) + [DigitChar(n % 10)]
  }

  /** The spelling starts with `0` only for zero itself. */
  lemma {:induction false} NatToStringNoLeadingZero(n: nat)
    ensures NatToString(n)[0] == '0' ==> n == 0
    decreases n
  {
    if n >= 10 {
      NatToStringNoLeadingZero(n / 10);
      assert NatToString(n)[0] == NatToString(n / 10)[0];
    }
  }

  /** The number a string of decimal digits denotes. */
  function DigitsValue(s: string): nat
    requires AllDigits(s)
  {
    if s == [] then 0 else 10 * DigitsValue(s[..|s| - 1]) + DigitValue(s[|s| - 1])
  }

  /** Reading back the decimal spelling of `n` gives `n`. */
  lemma {:induction false} DigitsValueOfNatToString(n: nat)
    ensures DigitsValue(NatToString(n)) == n
    decreases n
  {
    if n >= 10 {
      var s := NatToString(n);
      assert s[..|s| - 1] == NatToString(n / 10);
      DigitsValueOfNatToString(n / 10);
    }
  }

  /** The two-digit spelling of a number below 100 is its tens digit then its units digit. */
  lemma TwoDigitSpelling(n: nat)
    requires 10 <= n < 100
    ensures NatToString(n) == [DigitChar(n / 10), DigitChar(n % 10)]
  {
    assert NatToString(n / 10) == [DigitChar(n / 10)];
  }

  /** The characters `String.prototype.trim` removes, restricted to ASCII and the common Unicode spaces. */
  predicate IsSpace(c: char)
  {
    c == ' ' || c == '\t' || c == '\n' || c == '\r' || c == '\U{000B}' || c == '\U{000C}'
    || c == '\U{00A0}' || c == '\U{FEFF}' || c == '\U{2028}' || c == '\U{2029}'
  }

  predicate AllSpaces(s: string)
  {
    forall i :: 0 <= i < |s| ==> IsSpace(s[i])
  }

  function TrimStart(s: string): (r: string)
    ensures |r| <= |s| && r == s[|s| - |r|..]
    ensures r != [] ==> !IsSpace(r[0])
    ensures AllSpaces(s[..|s| - |r|])
    decreases |s|
  {
    if s != [] && IsSpace(s[0]) then
      var r := TrimStart(s[1..]);
      assert s[1..][|s| - 1 - |r|..] == s[|s| - |r|..];
      assert forall i :: 1 <= i < |s| - |r| ==> s[1..][..|s| - 1 - |r|][i - 1] == s[i];
      r
    else s
  }

  function TrimEnd(s: string): (r: string)
    ensures |r| <= |s| && r == s[..|r|]
    ensures r != [] ==> !IsSpace(r[|r| - 1])
    ensures AllSpaces(s[|r|..])
    decreases |s|
  {
    if s != [] && IsSpace(s[|s| - 1]) then
      var r := TrimEnd(s[..|s| - 1]);
      assert s[..|s| - 1][..|r|] == s[..|r|];
      assert forall i :: |r| <= i < |s| - 1 ==> s[..|s| - 1][|r|..][i - |r|] == s[i];
      r
    else s
  }

  /** `r` is the slice of `s` at `i` with only whitespace before and after it. */
  predicate TrimmedAt(s: string, r: string, i: int)
  {
    0 <= i && i + |r| <= |s| && r == s[i..i + |r|] && AllSpaces(s[..i]) && AllSpaces(s[i + |r|..])
  }

  /** Trimming the end of what `TrimStart` leaves gives a slice of `s` with only whitespace around it. */
  lemma TrimEndOfTrimStart(s: string)
    ensures TrimmedAt(s, TrimEnd(TrimStart(s)), |s| - |TrimStart(s)|)
  {
    var a := TrimStart(s);
    var r := TrimEnd(a);
    var i := |s| - |a|;
    assert s[i..i + |r|] == a[..|r|];
    assert a[|r|..] == s[i + |r|..];
  }

  /** `s.trim()`: the slice of `s` left after its leading and trailing whitespace. */
  function Trim(s: string): (r: string)
    ensures |r| <= |s|
    ensures exists i :: TrimmedAt(s, r, i)
    ensures r != [] ==> !IsSpace(r[0]) && !IsSpace(r[|r| - 1])
    ensures r == [] <==> AllSpaces(s)
  {
    var a := TrimStart(s);
    var r := TrimEnd(a);
    TrimEndOfTrimStart(s);
    assert r == [] ==> AllSpaces(s) by {
      if r == [] {
        assert a[|r|..] == a;
        assert s[..|s| - |a|] == s;
      }
    }
    assert r != [] ==> !IsSpace(s[|s| - |a|]) by {
      if r != [] {
        assert r[0] == a[0];
      }
    }
    r
  }

  /**
   * The trimmed text is the only slice with whitespace around it and none at its own ends:
   * any such slice is what `Trim` returns.
   */
  lemma TrimUnique(s: string, r: string, i: int)
    requires TrimmedAt(s, r, i)
    requires r != [] ==> !IsSpace(r[0]) && !IsSpace(r[|r| - 1])
    ensures r == Trim(s)
  {
    var t := Trim(s);
    var j :| TrimmedAt(s, t, j);
    if r == [] {
      SpacesBefore(s, i);
      SpacesAfter(s, i);
      assert AllSpaces(s);
    } else {
      assert !AllSpaces(s) by {
        assert s[i] == r[0];
      }
      SameStart(s, r, i, t, j);
      SameEnd(s, r, i, t, j);
      assert r == s[i..i + |r|] == t;
    }
  }

  /** Two slices with whitespace before them and none at their first character start at the same index. */
  lemma SameStart(s: string, r: string, i: int, t: string, j: int)
    requires TrimmedAt(s, r, i) && TrimmedAt(s, t, j)
    requires r != [] && t != [] && !IsSpace(r[0]) && !IsSpace(t[0])
    ensures i == j
  {
    SpacesBefore(s, i);
    SpacesBefore(s, j);
    assert s[i] == r[0] && s[j] == t[0];
  }

  /** Two slices with whitespace after them and none at their last character end at the same index. */
  lemma SameEnd(s: string, r: string, i: int, t: string, j: int)
    requires TrimmedAt(s, r, i) && TrimmedAt(s, t, j)
    requires r != [] && t != [] && !IsSpace(r[|r| - 1]) && !IsSpace(t[|t| - 1])
    ensures i + |r| == j + |t|
  {
    SpacesAfter(s, i + |r|);
    SpacesAfter(s, j + |t|);
    assert s[i + |r| - 1] == r[|r| - 1] && s[j + |t| - 1] == t[|t| - 1];
  }

  lemma SpacesBefore(s: string, n: int)
    requires 0 <= n <= |s| && AllSpaces(s[..n])
    ensures forall k :: 0 <= k < n ==> IsSpace(s[k])
  {
    assert forall k :: 0 <= k < n ==> s[..n][k] == s[k];
  }

  lemma SpacesAfter(s: string, n: int)
    requires 0 <= n <= |s| && AllSpaces(s[n..])
    ensures forall k :: n <= k < |s| ==> IsSpace(s[k])
  {
    assert forall k :: n <= k < |s| ==> s[n..][k - n] == s[k];
  }

  /**
   * Lower-casing of one character as `toLowerCase` does it for ASCII and Latin-1:
   * `A`-`Z` and the accented capitals U+00C0-U+00DE (except the sign U+00D7) move down by 32.
   */
  function LowerChar(c: char): (l: char)
    ensures 'A' <= c <= 'Z' ==> 'a' <= l <= 'z'
    ensures IsUpper(c) ==> l as int == c as int + 32
    ensures !IsUpper(c) ==> l == c
  {
    if IsUpper(c) then ((c as int) + 32) as char else c
  }

  predicate IsUpper(c: char)
  {
    ('A' <= c <= 'Z') || ('\U{00C0}' <= c <= '\U{00DE}' && c != '\U{00D7}')
  }

  function Lower(s: string): (r: string)
    ensures |r| == |s|
    ensures forall i :: 0 <= i < |s| ==> r[i] == LowerChar(s[i])
  {
    seq(|s|, i requires 0 <= i < |s| => LowerChar(s[i]))
  }

  /** Lower-casing twice changes nothing more than lower-casing once. */
  lemma LowerIdempotent(s: string)
    ensures Lower(Lower(s)) == Lower(s)
  {
    assert forall i :: 0 <= i < |s| ==> !IsUpper(LowerChar(s[i]));
  }

  /** `s.includes(t)`: `t` occurs in `s` as a contiguous slice. */
  predicate Contains(s: string, t: string)
    ensures Contains(s, t) ==> |t| <= |s|
    ensures t == [] ==> Contains(s, t)
    decreases |s|
  {
    t <= s || (s != [] && Contains(s[1..], t))
  }

  /** `t` occurs in `s` starting at index `i`. */
  predicate OccursAt(s: string, t: string, i: int)
  {
    0 <= i && i + |t| <= |s| && s[i..i + |t|] == t
  }

  /** An occurrence at index `i` is found by `Contains`. */
  lemma {:induction false} OccursImpliesContains(s: string, t: string, i: int)
    requires OccursAt(s, t, i)
    ensures Contains(s, t)
    decreases i
  {
    if i > 0 {
      assert s[1..][i - 1..i - 1 + |t|] == s[i..i + |t|];
      OccursImpliesContains(s[1..], t, i - 1);
    }
  }

  /** What `Contains` finds occurs at some index. */
  lemma {:induction false} ContainsImpliesOccurs(s: string, t: string)
    requires Contains(s, t)
    ensures exists i :: OccursAt(s, t, i)
    decreases |s|
  {
    if t <= s {
      assert OccursAt(s, t, 0);
    } else {
      ContainsImpliesOccurs(s[1..], t);
      var j :| OccursAt(s[1..], t, j);
      assert s[1..][j..j + |t|] == s[j + 1..j + 1 + |t|];
      assert OccursAt(s, t, j + 1);
    }
  }

  /** `Contains` agrees with the slice reading of `includes`. */
  lemma ContainsIffOccurs(s: string, t: string)
    ensures Contains(s, t) <==> exists i :: OccursAt(s, t, i)
  {
    if Contains(s, t) {
      ContainsImpliesOccurs(s, t);
    }
    if exists i :: OccursAt(s, t, i) {
      var i :| OccursAt(s, t, i);
      OccursImpliesContains(s, t, i);
    }
  }

  /** Lower-casing both texts keeps an occurrence, so a name that contains a text contains it ignoring case. */
  lemma ContainsLower(s: string, t: string)
    ensures Contains(s, t) ==> Contains(Lower(s), Lower(t))
  {
    if Contains(s, t) {
      ContainsIffOccurs(s, t);
      var i :| OccursAt(s, t, i);
      assert Lower(s)[i..i + |t|] == Lower(t) by {
        assert forall k :: 0 <= k < |t| ==> Lower(s)[i..i + |t|][k] == LowerChar(s[i + k]) == LowerChar(t[k]);
      }
      assert OccursAt(Lower(s), Lower(t), i);
      ContainsIffOccurs(Lower(s), Lower(t));
    }
  }
}
