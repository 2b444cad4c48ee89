/**
 Shared vocabulary of the voice gateway model: bytes, an optional value, and
 the handful of Python string operations the core relies on (`str.strip`,
 `str.lower`, `" ".join`, `str(int)`), each defined once and characterised by
 its contract.
 */
module Common {

  /** One octet of audio data. */
  newtype byte = x: int | 0 <= x < 256

  /** A Python `bytes` value. */
  type Bytes = seq<byte>

  datatype Option<+T> = None | Some(value: T)

  // ---------------------------------------------------------------------------
  // Whitespace and `str.strip()`
  // ---------------------------------------------------------------------------

  /** The characters for which Python's `str.isspace()` is true; `str.strip()`
      with no argument removes exactly these from both ends. */
  predicate IsSpace(c: char)
  {
    || c == ' ' || c == '\t' || c == '\n' || c == '\r'
    || c == '\U{000B}' || c == '\U{000C}'
    || ('\U{001C}' <= c <= '\U{001F}')
    || c == '\U{0085}' || c == '\U{00A0}' || c == '\U{1680}'
    || ('\U{2000}' <= c <= '\U{200A}')
    || c == '\U{2028}' || c == '\U{2029}' || c == '\U{202F}' || c == '\U{205F}'
    || c == '\U{3000}'
  }

  predicate AllSpace(s: string)
  {
    forall i :: 0 <= i < |s| ==> IsSpace(s[i])
  }

  /** Neither end of `s` is whitespace: what `strip()` leaves behind. */
  predicate Trimmed(s: string)
  {
    |s| == 0 || (!IsSpace(s[0]) && !IsSpace(s[|s| - 1]))
  }

  /** `s.lstrip()`: leading whitespace removed one character at a time
      (`TrimLeftShape` states what remains). */
  function TrimLeft(s: string): (r: string)
    ensures |r| <= |s|
  {
    if |s| > 0 && IsSpace(s[0]) then TrimLeft(s[1..]) else s
  }

  /** `s.rstrip()`: trailing whitespace removed one character at a time
      (`TrimRightShape` states what remains). */
  function TrimRight(s: string): (r: string)
    ensures |r| <= |s|
  {
    if |s| > 0 && IsSpace(s[|s| - 1]) then TrimRight(s[..|s| - 1]) else s
  }

  /** `s.strip()`: `lstrip()` followed by `rstrip()`. What it returns is
      characterised by `StripSlice` and `StripUnique` below. */
  function Strip(s: string): (r: string)
    ensures |r| <= |s|
  {
    TrimRight(TrimLeft(s))
  }

  /** The result of `strip()` is the slice of `s` left after removing the
      whitespace padding on both sides, and has no whitespace at either end. */
  lemma StripSlice(s: string)
    ensures Trimmed(Strip(s))
    ensures var o := |s| - |TrimLeft(s)|;
      && o + |Strip(s)| <= |s| && Strip(s) == s[o..o + |Strip(s)|]
      && AllSpace(s[..o]) && AllSpace(s[o + |Strip(s)|..])
  {
    var l := TrimLeft(s);
    var r := TrimRight(l);
    TrimLeftShape(s);
    TrimRightShape(l);
    assert Trimmed(r) by {
      if |r| > 0 {
        assert r[0] == l[0];
      }
    }
    var o := |s| - |l|;
    assert s[o + |r|..] == l[|r|..];
  }

  // ---------------------------------------------------------------------------
  // `str.lower()`
  // ---------------------------------------------------------------------------

  /** Lower-case mapping of one character; only the ASCII letters are folded. */
  function LowerChar(c: char): char
  {
    if 'A' <= c <= 'Z' then (c as int - 'A' as int + 'a' as int) as char else c
  }

  /** `s.lower()`, character by character. */
  function Lower(s: string): (r: string)
    ensures |r| == |s|
    ensures forall i :: 0 <= i < |s| ==> r[i] == LowerChar(s[i])
  {
    seq(|s|, i requires 0 <= i < |s| => LowerChar(s[i]))
  }

  /** `a` and `b` differ at most in the case of their letters. */
  predicate SameIgnoringCase(a: string, b: string)
  {
    |a| == |b| && forall i :: 0 <= i < |a| ==> LowerChar(a[i]) == LowerChar(b[i])
  }

  // ---------------------------------------------------------------------------
  // `sep.join(parts)`
  // ---------------------------------------------------------------------------

  /** `sep.join(parts)`: the parts in order with one `sep` between neighbours. */
  function Join(sep: string, parts: seq<string>): string
  {
    if |parts| == 0 then ""
    else if |parts| == 1 then parts[0]
    else Join(sep, parts[..|parts| - 1]) + sep + parts[|parts| - 1]
  }

  function TotalLength(parts: seq<string>): nat
  {
    if |parts| == 0 then 0 else TotalLength(parts[..|parts| - 1]) + |parts[|parts| - 1]|
  }

  /** `b"".join(chunks)`. */
  function Flatten(chunks: seq<Bytes>): Bytes
  {
    if |chunks| == 0 then [] else Flatten(chunks[..|chunks| - 1]) + chunks[|chunks| - 1]
  }

  // ---------------------------------------------------------------------------
  // `str(n)` for integers
  // ---------------------------------------------------------------------------

  function DigitChar(d: nat): char
    requires d < 10
  {
    ('0' as int + d) as char
  }

  predicate IsDigit(c: char)
  {
    '0' <= c <= '9'
  }

  /** `str(n)` for `n >= 0`: decimal digits, most significant first, no leading zero. */
  function NatToString(n: nat): (r: string)
    ensures |r| > 0
    ensures forall i :: 0 <= i < |r| ==> IsDigit(r[i])
    ensures |r| > 1 ==> r[0] != '0'
  {
    if n < 10 then [DigitChar(n)] else NatToString(n / 10) + [DigitChar(n % 10)]
  }

  /** `str(i)` for any Python `int`. */
  function IntToString(i: int): (r: string)
    ensures |r| > 0
    ensures i < 0 <==> r[0] == '-'
  {
    if i < 0 then "-" + NatToString(-i) else NatToString(i)
  }

  /** Reads a string of decimal digits back as a number (the inverse of `NatToString`). */
  function ParseNat(s: string): nat
    requires forall i :: 0 <= i < |s| ==> IsDigit(s[i])
  {
    if |s| == 0 then 0
    else
      var c := s[|s| - 1];
      assert IsDigit(c);
      10 * ParseNat(s[..|s| - 1]) + (c as int - '0' as int)
  }

  function ParseInt(s: string): int
    requires |s| > 0
    requires s[0] == '-' ==> forall i :: 1 <= i < |s| ==> IsDigit(s[i])
    requires s[0] != '-' ==> forall i :: 0 <= i < |s| ==> IsDigit(s[i])
  {
    if s[0] == '-' then 0 - ParseNat(s[1..]) as int else ParseNat(s)
  }

  // ---------------------------------------------------------------------------
  // Facts about the string operations
  // ---------------------------------------------------------------------------

  /** `lstrip()` returns the longest suffix of `s` that does not start with
      whitespace: what it drops is all whitespace. */
  lemma {:induction false} TrimLeftShape(s: string)
    ensures TrimLeft(s) == s[|s| - |TrimLeft(s)|..]
    ensures AllSpace(s[..|s| - |TrimLeft(s)|])
    ensures |TrimLeft(s)| > 0 ==> !IsSpace(TrimLeft(s)[0])
    decreases |s|
  {
    if |s| > 0 && IsSpace(s[0]) {
      TrimLeftShape(s[1..]);
      var k := |s| - |TrimLeft(s)|;
      assert s[1..][..k - 1] == s[1..k];
      assert forall i :: 1 <= i < k ==> s[i] == s[1..k][i - 1];
    }
  }

  /** `rstrip()` returns the longest prefix of `s` that does not end with
      whitespace: what it drops is all whitespace. */
  lemma {:induction false} TrimRightShape(s: string)
    ensures TrimRight(s) == s[..|TrimRight(s)|]
    ensures AllSpace(s[|TrimRight(s)|..])
    ensures |TrimRight(s)| > 0 ==> !IsSpace(TrimRight(s)[|TrimRight(s)| - 1])
    decreases |s|
  {
    if |s| > 0 && IsSpace(s[|s| - 1]) {
      var t := s[..|s| - 1];
      TrimRightShape(t);
      var n := |TrimRight(s)|;
      assert t[n..] + [s[|s| - 1]] == s[n..];
      assert forall i :: n <= i < |s| - 1 ==> s[i] == t[n..][i - n];
    }
  }

  lemma {:induction false} TrimLeftSkipsSpace(w: string, y: string)
    requires AllSpace(w)
    ensures TrimLeft(w + y) == TrimLeft(y)
    decreases |w|
  {
    if |w| > 0 {
      assert (w + y)[1..] == w[1..] + y;
      TrimLeftSkipsSpace(w[1..], y);
    } else {
      assert w + y == y;
    }
  }

  lemma {:induction false} TrimRightSkipsSpace(y: string, v: string)
    requires AllSpace(v)
    ensures TrimRight(y + v) == TrimRight(y)
    decreases |v|
  {
    if |v| > 0 {
      assert (y + v)[..|y + v| - 1] == y + v[..|v| - 1];
      TrimRightSkipsSpace(y, v[..|v| - 1]);
    } else {
      assert y + v == y;
    }
  }

  /** Whatever way `s` splits into whitespace, a trimmed core and whitespace,
      `strip()` returns that core: the decomposition is unique. */
  lemma StripUnique(s: string, a: string, r: string, b: string)
    requires s == a + r + b && AllSpace(a) && AllSpace(b) && Trimmed(r)
    ensures Strip(s) == r
  {
    assert s == a + (r + b);
    TrimLeftSkipsSpace(a, r + b);
    if |r| > 0 {
      assert TrimLeft(r + b) == r + b;
      TrimRightSkipsSpace(r, b);
    } else {
      assert r + b == b;
      TrimLeftSkipsSpace(b, "");
      assert b + "" == b;
    }
  }

  /** The padding `strip()` removes, as two all-whitespace strings. */
  lemma StripPadding(x: string) returns (a: string, b: string)
    ensures x == a + Strip(x) + b && AllSpace(a) && AllSpace(b)
  {
    StripSlice(x);
    var r := Strip(x);
    var o := |x| - |TrimLeft(x)|;
    a, b := x[..o], x[o + |r|..];
    assert x == x[..o] + x[o..o + |r|] + x[o + |r|..];
  }

  /** Extra whitespace around a string does not change what `strip()` returns. */
  lemma StripIgnoresPadding(w: string, x: string, v: string)
    requires AllSpace(w) && AllSpace(v)
    ensures Strip(w + x + v) == Strip(x)
  {
    var a, b := StripPadding(x);
    var r := Strip(x);
    StripSlice(x);
    calc {
      w + x + v;
      w + (a + r + b) + v;
      { SeqAssoc5(w, a, r, b, v); }
      (w + a) + r + (b + v);
    }
    AllSpaceConcat(w, a);
    AllSpaceConcat(b, v);
    StripUnique(w + x + v, w + a, r, b + v);
  }

  lemma SeqAssoc5<T>(p: seq<T>, q: seq<T>, r: seq<T>, s: seq<T>, t: seq<T>)
    ensures p + (q + r + s) + t == (p + q) + r + (s + t)
  {
  }

  lemma AllSpaceConcat(a: string, b: string)
    requires AllSpace(a) && AllSpace(b)
    ensures AllSpace(a + b)
  {
    forall i | 0 <= i < |a + b|
      ensures IsSpace((a + b)[i])
    {
      if i < |a| {
        assert (a + b)[i] == a[i];
      } else {
        assert (a + b)[i] == b[i - |a|];
      }
    }
  }

  /** `strip()` is idempotent. */
  lemma StripIdempotent(s: string)
    ensures Strip(Strip(s)) == Strip(s)
  {
    var r := Strip(s);
    StripSlice(s);
    assert r == "" + r + "";
    StripUnique(r, "", r, "");
  }

  lemma LowerDistributes(a: string, b: string)
    ensures Lower(a + b) == Lower(a) + Lower(b)
  {
  }

  lemma LowerKeepsSpace(w: string)
    requires AllSpace(w)
    ensures Lower(w) == w
  {
  }

  /** Strings that differ only in letter case lower-case to the same string. */
  lemma SameIgnoringCaseLower(a: string, b: string)
    requires SameIgnoringCase(a, b)
    ensures Lower(a) == Lower(b)
  {
  }

  /** The length of `sep.join(parts)`: every part plus one separator per gap. */
  lemma {:induction false} JoinLength(sep: string, parts: seq<string>)
    requires |parts| > 0
    ensures |Join(sep, parts)| == TotalLength(parts) + |sep| * (|parts| - 1)
  {
    if |parts| > 1 {
      var init := parts[..|parts| - 1];
      var k := |parts| - 1;
      JoinLength(sep, init);
      assert |Join(sep, parts)| == |Join(sep, init)| + |sep| + |parts[k]|;
      assert |sep| * (k - 1) + |sep| == |sep| * k;
    }
  }

  lemma {:induction false} ParseNatAppend(s: string, c: char)
    requires forall i :: 0 <= i < |s| ==> IsDigit(s[i])
    requires IsDigit(c)
    ensures ParseNat(s + [c]) == 10 * ParseNat(s) + (c as int - '0' as int)
  {
    assert (s + [c])[..|s|] == s;
  }

  /** Reading back `str(n)` gives `n`. */
  lemma {:induction false} NatToStringRoundTrip(n: nat)
    ensures ParseNat(NatToString(n)) == n
  {
    if n >= 10 {
      NatToStringRoundTrip(n / 10);
      ParseNatAppend(NatToString(n / 10), DigitChar(n % 10));
    }
  }

  /** Reading back `str(i)` gives `i`; in particular `str` is injective on ints. */
  lemma IntToStringRoundTrip(i: int)
    ensures ParseInt(IntToString(i)) == i
  {
    if i < 0 {
      assert IntToString(i)[1..] == NatToString(-i);
      NatToStringRoundTrip(-i);
    } else {
      NatToStringRoundTrip(i);
    }
  }
}
