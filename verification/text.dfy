/** The string operations the pipeline relies on: Python's `str.strip()`
    with no argument, and the decimal rendering of an `int` inside an
    f-string. */
module Text {

  /** Python's `str.isspace` for one character: the ASCII controls
      tab through carriage return, the four information separators,
      space, NEL, and the Unicode space, line and paragraph separators. */
  predicate IsSpace(c: char) {
    var u := c as int;
    || 9 <= u <= 13
    || 28 <= u <= 32
    || u == 0x85 || u == 0xA0 || u == 0x1680
    || 0x2000 <= u <= 0x200A
    || u == 0x2028 || u == 0x2029 || u == 0x202F || u == 0x205F || u == 0x3000
  }

  /** Within ASCII, whitespace is exactly the space, the controls tab
      through carriage return and the four information separators; no
      visible character (letters, digits, punctuation) counts. */
  lemma AsciiSpace(c: char)
    requires c as int < 128
    ensures IsSpace(c) <==> c == ' ' || '\t' <= c <= '\r' || 28 <= c as int <= 31
    ensures '!' <= c <= '~' ==> !IsSpace(c)
  {
  }

  predicate AllSpace(s: string) {
    forall k :: 0 <= k < |s| ==> IsSpace(s[k])
  }

  /** Neither empty nor starting or ending with whitespace. */
  predicate Trimmed(s: string) {
    |s| > 0 && !IsSpace(s[0]) && !IsSpace(s[|s| - 1])
  }

  /** Drops the leading whitespace: the result is the suffix of `s` that
      starts at its first non-space character. */
  function TrimLeft(s: string): (r: string)
    ensures |r| <= |s| && r == s[|s| - |r|..]
    ensures AllSpace(s[..|s| - |r|])
    ensures r == [] || !IsSpace(r[0])
    decreases |s|
  {
    hide IsSpace;
    if s != [] && IsSpace(s[0]) then
      var t := s[1..];
      var r := TrimLeft(t);
      assert t[|t| - |r|..] == s[|s| - |r|..];
      var dropped, dropped' := s[..|s| - |r|], t[..|t| - |r|];
      assert AllSpace(dropped) by {
        forall k | 0 <= k < |dropped|
          ensures IsSpace(dropped[k])
        {
          if k > 0 {
            assert dropped[k] == dropped'[k - 1];
          }
        }
      }
      r
    else s
  }

  /** Drops the trailing whitespace: the result is the prefix of `s` that
      ends at its last non-space character. */
  function TrimRight(s: string): (r: string)
    ensures |r| <= |s| && r == s[..|r|]
    ensures AllSpace(s[|r|..])
    ensures r == [] || !IsSpace(r[|r| - 1])
    decreases |s|
  {
    hide IsSpace;
    if s != [] && IsSpace(s[|s| - 1]) then
      var t := s[..|s| - 1];
      var r := TrimRight(t);
      assert t[..|r|] == s[..|r|];
      var dropped, dropped' := s[|r|..], t[|r|..];
      assert AllSpace(dropped) by {
        forall k | 0 <= k < |dropped|
          ensures IsSpace(dropped[k])
        {
          if k < |dropped'| {
            assert dropped[k] == dropped'[k];
          }
        }
      }
      r
    else s
  }

  /** `s.strip()`. */
  function Strip(s: string): (r: string)
    ensures |r| <= |s|
    ensures r == [] || Trimmed(r)
  {
    TrimLeft(TrimRight(s))
  }

  lemma TrimRightExact(s: string, hi: nat)
    requires hi <= |s| && AllSpace(s[hi..])
    requires hi == 0 || !IsSpace(s[hi - 1])
    ensures TrimRight(s) == s[..hi]
  {
  }

  lemma {:induction false} TrimLeftExact(s: string, lo: nat)
    requires lo <= |s| && AllSpace(s[..lo])
    requires lo == |s| || !IsSpace(s[lo])
    ensures TrimLeft(s) == s[lo..]
    decreases lo
  {
    if lo > 0 {
      assert s[..lo][0] == s[0];
      var t := s[1..];
      var head, head' := s[..lo], t[..lo - 1];
      assert AllSpace(head') by {
        forall k | 0 <= k < |head'|
          ensures IsSpace(head'[k])
        {
          assert head'[k] == head[k + 1];
        }
      }
      TrimLeftExact(t, lo - 1);
      assert t[lo - 1..] == s[lo..];
    }
  }

  /** `strip` keeps exactly the span between the leading and the trailing
      whitespace: whenever `s[..lo]` and `s[hi..]` are whitespace and
      `s[lo..hi]` is empty or starts and ends with non-space characters,
      the stripped string is `s[lo..hi]`. */
  lemma {:induction false} StripKeepsCore(s: string, lo: nat, hi: nat)
    requires lo <= hi <= |s|
    requires AllSpace(s[..lo]) && AllSpace(s[hi..])
    requires lo == hi || (!IsSpace(s[lo]) && !IsSpace(s[hi - 1]))
    ensures Strip(s) == s[lo..hi]
  {
    if lo == hi {
      assert AllSpace(s) by {
        forall k | 0 <= k < |s|
          ensures IsSpace(s[k])
        {
          if k < lo {
            assert s[..lo][k] == s[k];
          } else {
            assert s[hi..][k - hi] == s[k];
          }
        }
      }
      TrimRightExact(s, 0);
    } else {
      TrimRightExact(s, hi);
      var t := s[..hi];
      assert t[..lo] == s[..lo];
      TrimLeftExact(t, lo);
      assert t[lo..] == s[lo..hi];
    }
  }

  /** The fold's single trailing space is all that `strip` removes from a
      string that has no surrounding whitespace of its own. */
  lemma StripDropsTrailingSpace(s: string)
    requires Trimmed(s)
    ensures Strip(s + " ") == s
  {
    var t := s + " ";
    assert t[..0] == [];
    assert t[|s|..] == " ";
    assert t[0] == s[0] && t[|s| - 1] == s[|s| - 1];
    StripKeepsCore(t, 0, |s|);
    assert t[0..|s|] == s;
  }

  /** A string that is already stripped is left alone. */
  lemma StripIdempotent(s: string)
    ensures Strip(Strip(s)) == Strip(s)
  {
    var r := Strip(s);
    assert r[..0] == [] && r[|r|..] == [];
    assert AllSpace(r[..0]) && AllSpace(r[|r|..]);
    hide Strip, TrimLeft, TrimRight;
    StripKeepsCore(r, 0, |r|);
    assert r[0..|r|] == r;
  }

  predicate IsDigit(c: char) {
    '0' <= c <= '9'
  }

  predicate AllDigits(s: string) {
    forall k :: 0 <= k < |s| ==> IsDigit(s[k])
  }

  function DigitChar(d: nat): (c: char)
    requires d < 10
    ensures IsDigit(c) && c as int - '0' as int == d
  {
    (48 + d) as char
  }

  /** `f"{n}"` for a non-negative `int`: its decimal digits, most
      significant first, with no leading zero. */
  function Digits(n: nat): (s: string)
    ensures |s| > 0 && AllDigits(s)
    ensures s[0] != '0' || n == 0
    decreases n
  {
    if n < 10 then [DigitChar(n)] else Digits(n / 10) + [DigitChar(n % 10)]
  }

  /** `int(s)` for a string of decimal digits. */
  function ParseDigits(s: string): nat
    requires AllDigits(s)
    decreases |s|
  {
    if s == [] then 0
    else ParseDigits(s[..|s| - 1]) * 10 + (s[|s| - 1] as int - '0' as int)
  }

  /** Rendering a number and reading it back gives the number: distinct
      step numbers always produce distinct labels. */
  lemma {:induction false} ParseDigitsOfDigits(n: nat)
    ensures ParseDigits(Digits(n)) == n
    decreases n
  {
    var s := Digits(n);
    if n < 10 {
      assert s[..0] == [];
    } else {
      var hi := Digits(n / 10);
      assert s == hi + [DigitChar(n % 10)];
      assert s[..|s| - 1] == hi;
      ParseDigitsOfDigits(n / 10);
    }
  }

  /** Digits are never whitespace, so a rendered number neither starts
      nor ends with any. */
  lemma DigitsTrimmed(n: nat)
    ensures Trimmed(Digits(n))
  {
    var s := Digits(n);
    assert IsDigit(s[0]) && IsDigit(s[|s| - 1]);
  }

  /** `pat` occurs in `s` starting at index `i`. */
  predicate OccursAt(s: string, pat: string, i: nat) {
    i + |pat| <= |s| && s[i..i + |pat|] == pat
  }

  /** Python's `pat in s`. */
  predicate Contains(s: string, pat: string) {
    exists i: nat | i <= |s| :: OccursAt(s, pat, i)
  }
}
