/**
 * The JavaScript string operations the system relies on, written over
 * `seq<char>`: prefix tests, `indexOf`, `includes`, `split`, `slice(-n)`,
 * `padStart`, `trim`, `toUpperCase` and the decimal rendering of integers.
 */
module Strings {
  import opened Wrappers

  predicate StartsWith(s: string, prefix: string) {
    |prefix| <= |s| && s[..|prefix|] == prefix
  }

  /** A prefix of `a` is a prefix of `a + b`. */
  lemma StartsWithAppend(a: string, b: string, prefix: string)
    requires StartsWith(a, prefix)
    ensures StartsWith(a + b, prefix)
  {
    assert (a + b)[..|prefix|] == a[..|prefix|];
  }

  /** `sub` occurs in `s` starting at index `j`. */
  predicate OccursAt(s: string, sub: string, j: int) {
    0 <= j && j + |sub| <= |s| && s[j..j + |sub|] == sub
  }

  /** JavaScript `s.indexOf(sub)`: the first index at which `sub` occurs. */
  function IndexOf(s: string, sub: string): (r: Option<nat>)
    ensures r.Some? ==> OccursAt(s, sub, r.value)
    ensures r.Some? ==> forall j :: 0 <= j < r.value ==> !OccursAt(s, sub, j)
    ensures r.None? ==> forall j :: 0 <= j ==> !OccursAt(s, sub, j)
    decreases |s|
  {
    if |s| < |sub| then None
    else if s[..|sub|] == sub then Some(0)
    else
      match IndexOf(s[1..], sub)
      case None =>
        assert forall j :: 1 <= j ==> OccursAt(s, sub, j) == OccursAt(s[1..], sub, j - 1);
        None
      case Some(k) =>
        assert forall j :: 1 <= j ==> OccursAt(s, sub, j) == OccursAt(s[1..], sub, j - 1);
        Some(k + 1)
  }

  /** JavaScript `s.includes(sub)`. */
  predicate Contains(s: string, sub: string) {
    IndexOf(s, sub).Some?
  }

  /** JavaScript `s.split(sep)` for a non-empty separator. */
  function Split(s: string, sep: string): (r: seq<string>)
    requires |sep| > 0
    ensures |r| >= 1
    ensures |r| == 1 <==> !Contains(s, sep)
    ensures IndexOf(s, sep).Some? ==> r[0] == s[..IndexOf(s, sep).value]
    ensures IndexOf(s, sep).None? ==> r == [s]
    decreases |s|
  {
    match IndexOf(s, sep)
    case None => [s]
    case Some(i) => [s[..i]] + Split(s[i + |sep|..], sep)
  }

  /** The text before the first `sep` (all of `s` when there is none): `s.split(sep)[0]`. */
  function BeforeFirst(s: string, sep: string): (r: string)
    requires |sep| > 0
    ensures r == Split(s, sep)[0]
    ensures StartsWith(s, r)
    ensures !Contains(r, sep)
  {
    match IndexOf(s, sep)
    case None => s
    case Some(i) =>
      assert forall j :: 0 <= j ==> OccursAt(s[..i], sep, j) ==> OccursAt(s, sep, j);
      s[..i]
  }

  predicate IsDigit(c: char) {
    '0' <= c <= '9'
  }

  predicate AllDigits(s: string) {
    forall i :: 0 <= i < |s| ==> IsDigit(s[i])
  }

  /** Two digit strings concatenate to a digit string. */
  lemma AllDigitsAppend(a: string, b: string)
    requires AllDigits(a) && AllDigits(b)
    ensures AllDigits(a + b)
  {
    forall i | 0 <= i < |a + b|
      ensures IsDigit((a + b)[i])
    {
      if i < |a| {
        assert (a + b)[i] == a[i];
      } else {
        assert (a + b)[i] == b[i - |a|];
      }
    }
  }

  function DigitChar(d: nat): (c: char)
    requires d < 10
    ensures IsDigit(c)
  {
    ['0', '1', '2', '3', '4', '5', '6', '7', '8', '9'][d]
  }

  /** JavaScript `String(n)` for a non-negative integer: decimal, no leading zero. */
  function NatToString(n: nat): (r: string)
    ensures |r| >= 1 && AllDigits(r)
    ensures n < 10 <==> |r| == 1
    decreases n
  {
    if n < 10 then [DigitChar(n)] else NatToString(n / 10) + [DigitChar(n % 10)]
  }

  /** JavaScript `String(i)` for an integer. */
  function IntToString(i: int): (r: string)
    ensures |r| >= 1
    ensures i >= 0 ==> AllDigits(r)
    ensures i < 0 ==> r[0] == '-' && AllDigits(r[1..])
  {
    if i >= 0 then NatToString(i) else "-" + NatToString(-i)
  }

  /** JavaScript `s.slice(-n)` for `n > 0`: the last `n` characters, or all of `s`. */
  function LastN(s: string, n: nat): (r: string)
    ensures |r| == if |s| <= n then |s| else n
    ensures forall i :: 0 <= i < |r| ==> r[i] == s[|s| - |r| + i]
  {
    if |s| <= n then s else s[|s| - n..]
  }

  function Repeat(c: char, n: nat): (r: string)
    ensures |r| == n && forall i :: 0 <= i < n ==> r[i] == c
  {
    if n == 0 then [] else [c] + Repeat(c, n - 1)
  }

  /** JavaScript `s.padStart(width, c)` with a one-character pad. */
  function PadStart(s: string, width: nat, c: char): (r: string)
    ensures |r| == if |s| >= width then |s| else width
    ensures r[|r| - |s|..] == s
    ensures forall i :: 0 <= i < |r| - |s| ==> r[i] == c
  {
    if |s| >= width then s else Repeat(c, width - |s|) + s
  }

  /** The characters JavaScript's `\s` and `String.prototype.trim` treat as white space. */
  predicate IsJsSpace(c: char) {
    c == ' ' || c == '\t' || c == '\n' || c == '\r' || c == '\U{000B}' || c == '\U{000C}'
    || c == '\U{00A0}' || c == '\U{1680}' || ('\U{2000}' <= c <= '\U{200A}')
    || c == '\U{2028}' || c == '\U{2029}' || c == '\U{202F}' || c == '\U{205F}'
    || c == '\U{3000}' || c == '\U{FEFF}'
  }

  function TrimStart(s: string): (r: string)
    ensures |r| <= |s| && s[|s| - |r|..] == r
    ensures r == [] || !IsJsSpace(r[0])
    ensures forall i :: 0 <= i < |s| - |r| ==> IsJsSpace(s[i])
  {
    if s != [] && IsJsSpace(s[0]) then TrimStart(s[1..]) else s
  }

  function TrimEnd(s: string): (r: string)
    ensures |r| <= |s| && s[..|r|] == r
    ensures r == [] || !IsJsSpace(r[|r| - 1])
    ensures forall i :: |r| <= i < |s| ==> IsJsSpace(s[i])
  {
    if s != [] && IsJsSpace(s[|s| - 1]) then TrimEnd(s[..|s| - 1]) else s
  }

  /** JavaScript `s.trim()`. */
  function Trim(s: string): string {
    TrimEnd(TrimStart(s))
  }

  /**
   * JavaScript `toUpperCase` on one character, exact for ASCII and for every
   * character whose upper case contains only ASCII letters (dotless i, long s,
   * sharp s and the Latin ligatures). Every other non-ASCII character is kept
   * as it is: its real upper case is non-ASCII as well.
   */
  function UpperChar(c: char): string {
    if 'a' <= c <= 'z' then [(c as int - 32) as char]
    else if c == '\U{0131}' then "I"
    else if c == '\U{017F}' then "S"
    else if c == '\U{00DF}' then "SS"
    else if c == '\U{FB00}' then "FF"
    else if c == '\U{FB01}' then "FI"
    else if c == '\U{FB02}' then "FL"
    else if c == '\U{FB03}' then "FFI"
    else if c == '\U{FB04}' then "FFL"
    else if c == '\U{FB05}' || c == '\U{FB06}' then "ST"
    else [c]
  }

  function ToUpperCase(s: string): string
    decreases |s|
  {
    if s == [] then [] else UpperChar(s[0]) + ToUpperCase(s[1..])
  }

  lemma {:induction false} ToUpperCaseAppend(a: string, b: string)
    ensures ToUpperCase(a + b) == ToUpperCase(a) + ToUpperCase(b)
    decreases |a|
  {
    if a == [] {
      assert a + b == b;
    } else {
      assert (a + b)[1..] == a[1..] + b;
      ToUpperCaseAppend(a[1..], b);
    }
  }

  /** Upper-casing works character by character: a word whose every character upper-cases to one character. */
  lemma {:induction false} ToUpperCaseByChar(s: string, u: string)
    requires |s| == |u|
    requires forall i :: 0 <= i < |s| ==> UpperChar(s[i]) == [u[i]]
    ensures ToUpperCase(s) == u
    decreases |s|
  {
    if s != [] {
      ToUpperCaseByChar(s[1..], u[1..]);
      assert u == [u[0]] + u[1..];
    }
  }

  /** A word of capital ASCII letters is its own upper case. */
  lemma {:induction false} ToUpperCaseCapitals(s: string)
    requires forall i :: 0 <= i < |s| ==> 'A' <= s[i] <= 'Z'
    ensures ToUpperCase(s) == s
    decreases |s|
  {
    if s != [] {
      ToUpperCaseCapitals(s[1..]);
      assert s == [s[0]] + s[1..];
    }
  }

  lemma UpperCharFixed(c: char)
    ensures ToUpperCase(UpperChar(c)) == UpperChar(c)
  {
    var u := UpperChar(c);
    if |u| == 1 {
      assert ToUpperCase(u) == UpperChar(u[0]) + ToUpperCase([]);
    } else if |u| == 2 {
      assert ToUpperCase(u) == UpperChar(u[0]) + ToUpperCase(u[1..]);
      assert ToUpperCase(u[1..]) == UpperChar(u[1]) + ToUpperCase([]);
    } else {
      assert ToUpperCase(u) == UpperChar(u[0]) + ToUpperCase(u[1..]);
      assert ToUpperCase(u[1..]) == UpperChar(u[1]) + ToUpperCase(u[2..]);
      assert ToUpperCase(u[2..]) == UpperChar(u[2]) + ToUpperCase([]);
    }
  }

  /** Upper-casing twice is upper-casing once: comparisons after `toUpperCase` ignore case. */
  lemma {:induction false} ToUpperCaseIdempotent(s: string)
    ensures ToUpperCase(ToUpperCase(s)) == ToUpperCase(s)
    decreases |s|
  {
    if s != [] {
      ToUpperCaseAppend(UpperChar(s[0]), ToUpperCase(s[1..]));
      UpperCharFixed(s[0]);
      ToUpperCaseIdempotent(s[1..]);
    }
  }

  /** `s.length` in JavaScript: UTF-16 code units, two for a character outside the basic plane. */
  function Utf16Length(s: string): (r: nat)
    ensures r >= |s|
    ensures (forall i :: 0 <= i < |s| ==> s[i] as int <= 0xFFFF) ==> r == |s|
    decreases |s|
  {
    if s == [] then 0 else (if s[0] as int > 0xFFFF then 2 else 1) + Utf16Length(s[1..])
  }

  lemma {:induction false} Utf16LengthAppend(a: string, b: string)
    ensures Utf16Length(a + b) == Utf16Length(a) + Utf16Length(b)
    decreases |a|
  {
    if a == [] {
      assert a + b == b;
    } else {
      assert (a + b)[1..] == a[1..] + b;
      Utf16LengthAppend(a[1..], b);
    }
  }

  function Pow10(k: nat): (r: nat)
    ensures r >= 1
  {
    if k == 0 then 1 else 10 * Pow10(k - 1)
  }

  /** The number a string of decimal digits denotes. */
  function DigitsValue(s: string): nat
    requires AllDigits(s)
    decreases |s|
  {
    if s == [] then 0 else 10 * DigitsValue(s[..|s| - 1]) + (s[|s| - 1] as int - '0' as int)
  }

  /** Reading back the decimal rendering of `n` gives `n`. */
  lemma {:induction false} NatToStringValue(n: nat)
    ensures DigitsValue(NatToString(n)) == n
    decreases n
  {
    if n >= 10 {
      NatToStringValue(n / 10);
      var s := NatToString(n);
      assert s[..|s| - 1] == NatToString(n / 10);
    }
  }

  /** A rendering no longer than `k` digits stands for a number below `10^k`. */
  lemma {:induction false} NatToStringBound(n: nat, k: nat)
    requires |NatToString(n)| <= k
    ensures n < Pow10(k)
    decreases n
  {
    if n >= 10 {
      NatToStringBound(n / 10, k - 1);
    }
  }

  /** The decimal rendering of `n` has at most `k` digits exactly when `n < 10^k`. */
  lemma {:induction false} NatToStringLength(n: nat, k: nat)
    requires k >= 1
    ensures |NatToString(n)| <= k <==> n < Pow10(k)
    decreases n
  {
    if n >= 10 && k >= 2 {
      NatToStringLength(n / 10, k - 1);
      assert n == 10 * (n / 10) + n % 10;
    }
  }

  /** Division with remainder is unique. */
  lemma DivModUnique(n: int, m: int, a: int, c: int)
    requires m > 0 && n == m * a + c && 0 <= c < m
    ensures n / m == a && n % m == c
  {
    var q, r := n / m, n % m;
    var d := a - q;
    assert m * q + r == n;
    assert m * d == r - c by {
      assert m * d == m * a - m * q;
    }
  }

  lemma SplitLastDigit(n: nat, p: nat)
    requires p >= 1
    ensures 10 * ((n / 10) % p) + n % 10 == n % (10 * p)
  {
    var q, r := n / 10, n % 10;
    var a, b := q / p, q % p;
    assert n == 10 * q + r;
    assert q == p * a + b;
    assert 10 * q == (10 * p) * a + 10 * b by {
      assert 10 * (p * a) == (10 * p) * a;
    }
    DivModUnique(n, 10 * p, a, 10 * b + r);
  }

  lemma DigitsValueSnoc(u: string, c: char)
    requires AllDigits(u) && IsDigit(c)
    ensures AllDigits(u + [c])
    ensures DigitsValue(u + [c]) == 10 * DigitsValue(u) + (c as int - '0' as int)
  {
    assert (u + [c])[..|u|] == u;
  }

  lemma LastNSnoc(t: string, c: char, k: nat)
    requires k >= 2 && |t| >= k
    ensures LastN(t + [c], k) == LastN(t, k - 1) + [c]
  {
  }

  /** The last `k` digits of the rendering of `n` are digits and denote `n mod 10^k`. */
  predicate LastDigitsMean(n: nat, k: nat) {
    AllDigits(LastN(NatToString(n), k)) && DigitsValue(LastN(NatToString(n), k)) == n % Pow10(k)
  }

  /** The last `k` digits of `n` (JavaScript `String(n).slice(-k)`) denote `n mod 10^k`. */
  lemma {:induction false} LastDigitsValue(n: nat, k: nat)
    requires k >= 1
    ensures LastDigitsMean(n, k)
    decreases n
  {
    if n < 10 || k == 1 || |NatToString(n)| <= k {
      LastDigitsBase(n, k);
    } else {
      LastDigitsValue(n / 10, k - 1);
      LastDigitsSnoc(n, k);
    }
  }

  /** A rendering of one digit, or at most `k` digits, or the last digit alone. */
  lemma LastDigitsBase(n: nat, k: nat)
    requires k >= 1 && (n < 10 || k == 1 || |NatToString(n)| <= k)
    ensures LastDigitsMean(n, k)
  {
    if |NatToString(n)| <= k {
      ShortLastDigits(n, k);
    } else {
      LastDigitOne(n);
    }
  }

  /** A rendering of at most `k` digits is its own last `k` digits. */
  lemma ShortLastDigits(n: nat, k: nat)
    requires k >= 1 && |NatToString(n)| <= k
    ensures LastDigitsMean(n, k)
  {
    var s := NatToString(n);
    assert LastN(s, k) == s;
    NatToStringValue(n);
    var p := Pow10(k);
    assert n % p == n by {
      NatToStringBound(n, k);
      DivModUnique(n, p, 0, n);
    }
  }

  /** The last digit of a rendering of two digits or more. */
  lemma LastDigitOne(n: nat)
    requires |NatToString(n)| > 1
    ensures LastDigitsMean(n, 1)
  {
    var c := DigitChar(n % 10);
    assert NatToString(n) == NatToString(n / 10) + [c];
    assert LastN(NatToString(n), 1) == [c];
    assert [c][..0] == [];
  }

  /** The last `k` digits of `n` are the last `k - 1` digits of `n / 10`, then the units digit. */
  lemma LastDigitsSnoc(n: nat, k: nat)
    requires k >= 2 && |NatToString(n)| > k
    requires LastDigitsMean(n / 10, k - 1)
    ensures LastDigitsMean(n, k)
  {
    var t := NatToString(n / 10);
    var c := DigitChar(n % 10);
    assert NatToString(n) == t + [c];
    var u := LastN(t, k - 1);
    LastNSnoc(t, c, k);
    DigitsValueSnoc(u, c);
    LastDigitStep(n, DigitsValue(u), Pow10(k - 1), c);
    assert Pow10(k) == 10 * Pow10(k - 1);
  }

  lemma LastDigitStep(n: nat, v: nat, p: nat, c: char)
    requires p >= 1 && v == (n / 10) % p && c == DigitChar(n % 10)
    ensures 10 * v + (c as int - '0' as int) == n % (10 * p)
  {
    SplitLastDigit(n, p);
  }

  /** Leading zeros do not change the value: `padStart(w, '0')` keeps the number. */
  lemma {:induction false} LeadingZerosValue(z: nat, s: string)
    requires AllDigits(s)
    ensures AllDigits(Repeat('0', z) + s)
    ensures DigitsValue(Repeat('0', z) + s) == DigitsValue(s)
    decreases |s|
  {
    var zs := Repeat('0', z);
    if s == [] {
      assert zs + s == zs;
      ZerosValue(z);
    } else {
      var n := |s| - 1;
      LeadingZerosValue(z, s[..n]);
      assert (zs + s)[..|zs + s| - 1] == zs + s[..n];
    }
  }

  lemma {:induction false} ZerosValue(z: nat)
    ensures AllDigits(Repeat('0', z)) && DigitsValue(Repeat('0', z)) == 0
    decreases z
  {
    if z > 0 {
      var zs := Repeat('0', z);
      ZerosValue(z - 1);
      assert zs[..z - 1] == Repeat('0', z - 1);
    }
  }

  predicate AllJsSpace(s: string) {
    forall i :: 0 <= i < |s| ==> IsJsSpace(s[i])
  }

  lemma {:induction false} TrimStartPastSpaces(ws: string, t: string)
    requires AllJsSpace(ws)
    requires t == [] || !IsJsSpace(t[0])
    ensures TrimStart(ws + t) == t
    decreases |ws|
  {
    if ws == [] {
      assert ws + t == t;
    } else {
      assert (ws + t)[1..] == ws[1..] + t;
      TrimStartPastSpaces(ws[1..], t);
    }
  }

  lemma {:induction false} TrimEndPastSpaces(t: string, ws: string)
    requires AllJsSpace(ws)
    requires t == [] || !IsJsSpace(t[|t| - 1])
    ensures TrimEnd(t + ws) == t
    decreases |ws|
  {
    if ws == [] {
      assert t + ws == t;
    } else {
      var n := |ws| - 1;
      assert (t + ws)[..|t + ws| - 1] == t + ws[..n];
      TrimEndPastSpaces(t, ws[..n]);
    }
  }

  /** Trimming text framed by white space gives back text that neither starts nor ends with white space. */
  lemma TrimFramed(ws1: string, body: string, ws2: string)
    requires AllJsSpace(ws1) && AllJsSpace(ws2)
    requires body != [] && !IsJsSpace(body[0]) && !IsJsSpace(body[|body| - 1])
    ensures Trim(ws1 + body + ws2) == body
  {
    assert ws1 + body + ws2 == ws1 + (body + ws2);
    TrimStartPastSpaces(ws1, body + ws2);
    TrimEndPastSpaces(body, ws2);
  }
}
