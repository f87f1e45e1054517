/** String helpers shared by the models: trimming, splitting at a separator and decimal numerals. */
module Text {

  datatype Option<+T> = None | Some(value: T)

  // ---------- white space ----------

  /** The characters Python's `str.strip` and `str.isspace` treat as blank. */
  predicate IsPySpace(c: char) {
    '\t' <= c <= '\r' || '\U{1C}' <= c <= ' ' || c == '\U{85}' || c == '\U{A0}' || c == '\U{1680}'
    || '\U{2000}' <= c <= '\U{200A}' || '\U{2028}' <= c <= '\U{2029}'
    || c == '\U{202F}' || c == '\U{205F}' || c == '\U{3000}'
  }

  /** The characters JavaScript's `String.prototype.trim` removes. */
  predicate IsJsSpace(c: char) {
    '\t' <= c <= '\r' || c == ' ' || c == '\U{A0}' || c == '\U{1680}'
    || '\U{2000}' <= c <= '\U{200A}' || '\U{2028}' <= c <= '\U{2029}'
    || c == '\U{202F}' || c == '\U{205F}' || c == '\U{3000}' || c == '\U{FEFF}'
  }

  /** The boundaries at which Python's `str.splitlines` cuts. */
  predicate IsLineBreak(c: char) {
    '\n' <= c <= '\r' || '\U{1C}' <= c <= '\U{1E}' || c == '\U{85}' || '\U{2028}' <= c <= '\U{2029}' 
  }

  function DropLeft(blank: char -> bool, s: string): (r: string)
    ensures |r| <= |s|
  {
    if s != "" && blank(s[0]) then DropLeft(blank, s[1..]) else s
  }

  function DropRight(blank: char -> bool, s: string): (r: string)
    ensures |r| <= |s|
  {
    if s != "" && blank(s[|s| - 1]) then DropRight(blank, s[..|s| - 1]) else s
  }

  function Trim(blank: char -> bool, s: string): string {
    DropRight(blank, DropLeft(blank, s))
  }

  /** No blank at either end: exactly the strings `Trim` leaves alone. */
  predicate Trimmed(blank: char -> bool, s: string) {
    s != "" ==> !blank(s[0]) && !blank(s[|s| - 1])
  }

  lemma {:induction false} DropLeftOf(blank: char -> bool, left: string, s: string)
    requires forall c :: c in left ==> blank(c)
    requires s != "" ==> !blank(s[0])
    ensures DropLeft(blank, left + s) == s
  {
    if left == "" {
      assert left + s == s;
    } else {
      assert left[0] in left && (left + s)[1..] == left[1..] + s;
      DropLeftOf(blank, left[1..], s);
    }
  }

  lemma {:induction false} DropRightOf(blank: char -> bool, s: string, right: string)
    requires forall c :: c in right ==> blank(c)
    requires s != "" ==> !blank(s[|s| - 1])
    ensures DropRight(blank, s + right) == s
  {
    var n := |right|;
    if n == 0 {
      assert s + right == s;
    } else {
      assert right[n - 1] in right && (s + right)[..|s + right| - 1] == s + right[..n - 1];
      DropRightOf(blank, s, right[..n - 1]);
    }
  }

  /** Trimming removes exactly a blank prefix and a blank suffix. */
  lemma TrimOf(blank: char -> bool, left: string, core: string, right: string)
    requires forall c :: c in left ==> blank(c)
    requires forall c :: c in right ==> blank(c)
    requires Trimmed(blank, core)
    ensures Trim(blank, left + core + right) == core
  {
    if core == "" {
      var s := left + core + right;
      assert forall c :: c in s ==> c in left || c in right;
      assert s + "" == s;
      DropLeftOf(blank, s, "");
    } else {
      assert left + core + right == left + (core + right);
      DropLeftOf(blank, left, core + right);
      DropRightOf(blank, core, right);
    }
  }

  lemma {:induction false} DropLeftSpec(blank: char -> bool, s: string)
    ensures var r := DropLeft(blank, s);
            && r == s[|s| - |r|..] && (r != "" ==> !blank(r[0]))
            && forall i :: 0 <= i < |s| - |r| ==> blank(s[i])
  {
    if s != "" && blank(s[0]) {
      DropLeftSpec(blank, s[1..]);
      var r := DropLeft(blank, s);
      forall i | 0 <= i < |s| - |r| ensures blank(s[i]) {
        if i > 0 { assert s[i] == s[1..][i - 1]; }
      }
    }
  }

  lemma {:induction false} DropRightSpec(blank: char -> bool, s: string)
    ensures var r := DropRight(blank, s);
            && r == s[..|r|] && (r != "" ==> !blank(r[|r| - 1]))
            && forall i :: |r| <= i < |s| ==> blank(s[i])
  {
    if s != "" && blank(s[|s| - 1]) {
      DropRightSpec(blank, s[..|s| - 1]);
      var r := DropRight(blank, s);
      forall i | |r| <= i < |s| ensures blank(s[i]) {
        if i < |s| - 1 { assert s[i] == s[..|s| - 1][i]; }
      }
    }
  }

  lemma TrimIsTrimmed(blank: char -> bool, s: string)
    ensures Trimmed(blank, Trim(blank, s))
  {
    DropLeftSpec(blank, s);
    DropRightSpec(blank, DropLeft(blank, s));
  }

  // ---------- searching and joining ----------

  /** The first position of `c` in `s`, or `|s|`. */
  function IndexOf(c: char, s: string): (k: nat)
    ensures k <= |s| && (k < |s| ==> s[k] == c)
  {
    if s == "" || s[0] == c then 0 else 1 + IndexOf(c, s[1..])
  }

  lemma {:induction false} NotBefore(c: char, s: string)
    ensures c !in s[..IndexOf(c, s)]
    ensures IndexOf(c, s) == |s| ==> c !in s
  {
    if s != "" && s[0] != c {
      NotBefore(c, s[1..]);
      var k := IndexOf(c, s);
      assert s[..k] == [s[0]] + s[1..][..k - 1];
      assert s == [s[0]] + s[1..];
    }
  }

  lemma {:induction false} IndexOfFirst(c: char, a: string, b: string)
    requires c !in a
    ensures IndexOf(c, a + [c] + b) == |a|
    ensures IndexOf(c, a) == |a|
  {
    if a != "" {
      assert (a + [c] + b)[1..] == a[1..] + [c] + b;
      IndexOfFirst(c, a[1..], b);
    }
  }

  /** Lower-casing of the ASCII letters; every other character is left alone. */
  function LowerChar(c: char): char {
    if 'A' <= c <= 'Z' then c + 32 as char else c
  }

  function Lower(s: string): (r: string)
    ensures |r| == |s|
  {
    seq(|s|, i requires 0 <= i < |s| => LowerChar(s[i]))
  }

  function Join(sep: string, parts: seq<string>): string {
    if parts == [] then ""
    else if |parts| == 1 then parts[0]
    else parts[0] + sep + Join(sep, parts[1..])
  }

  // ---------- decimal numerals ----------

  predicate IsDigit(c: char) { '0' <= c <= '9' }

  function Digit(d: nat): char
    requires d < 10
  {
    '0' + d as char
  }

  function DigitValue(c: char): (d: nat)
    requires IsDigit(c)
    ensures d < 10 && Digit(d) == c
  {
    (c - '0') as nat
  }

  /** Python's `str(n)` for a natural number. */
  function Decimal(n: nat): (s: string)
    ensures s != "" && forall c :: c in s ==> IsDigit(c)
  {
    if n < 10 then [Digit(n)] else Decimal(n / 10) + [Digit(n % 10)]
  }

  function DigitsValue(s: string): nat
    requires forall c :: c in s ==> IsDigit(c)
  {
    if s == "" then 0 else DigitsValue(s[..|s| - 1]) * 10 + DigitValue(s[|s| - 1])
  }

  lemma {:induction false} DecimalRoundTrip(n: nat)
    ensures DigitsValue(Decimal(n)) == n
  {
    var s := Decimal(n);
    if n < 10 {
      assert s[..0] == "";
    } else {
      DecimalRoundTrip(n / 10);
      assert s[..|s| - 1] == Decimal(n / 10);
    }
  }

  lemma DecimalInjective(m: nat, n: nat)
    requires Decimal(m) == Decimal(n)
    ensures m == n
  {
    DecimalRoundTrip(m);
    DecimalRoundTrip(n);
  }
}
