/** Repeated answers: collapsing a text that is several copies of itself (app/security/guardrails.py). */
module Collapse {
  import opened Text

  function Repeat(u: string, k: nat): string { if k == 0 then "" else u + Repeat(u, k - 1) }

  predicate HasPeriod(t: string, p: nat) { p > 0 && forall i :: 0 <= i < |t| - p ==> t[i] == t[i + p] }

  /** `parts` equal pieces of at least twenty characters. */
  predicate IsPower(t: string, parts: nat) {
    parts > 0 && |t| % parts == 0 && |t| / parts >= 20 && HasPeriod(t, |t| / parts)
  }

  // ---------- copies and periods ----------

  lemma {:induction false} RepeatLength(u: string, k: nat)
    ensures |Repeat(u, k)| == k * |u|
  {
    if k > 0 { RepeatLength(u, k - 1); }
  }

  /** A text is a whole number of copies of its head exactly when it has the head's length as a period. */
  lemma {:induction false} CopiesIffPeriod(t: string, p: nat, k: nat)
    requires p > 0 && k > 0 && |t| == k * p
    ensures Repeat(t[..p], k) == t <==> HasPeriod(t, p)
    decreases k
  {
    if k == 1 {
      assert t[..p] == t && Repeat(t, 1) == t + "";
    } else {
      assert |t[p..]| == (k - 1) * p;
      CopiesIffPeriod(t[p..], p, k - 1);
      assert t == t[..p] + t[p..];
      RepeatLength(t[..p], k - 1);
      if Repeat(t[..p], k) == t {
        assert Repeat(t[..p], k)[p..] == Repeat(t[..p], k - 1);
        HeadAgain(t, p, k);
        PeriodFromTail(t, p);
      }
      if HasPeriod(t, p) {
        assert t[..p] == t[p..][..p];
        assert HasPeriod(t[p..], p);
      }
    }
  }

  lemma HeadAgain(t: string, p: nat, k: nat)
    requires p > 0 && k > 1 && |t| == k * p && Repeat(t[..p], k - 1) == t[p..]
    ensures |t| >= 2 * p && t[p..][..p] == t[..p]
  {
    assert Repeat(t[..p], k - 1) == t[..p] + Repeat(t[..p], k - 2);
    RepeatLength(t[..p], k - 2);
    assert k * p == 2 * p + (k - 2) * p;
  }

  lemma PeriodFromTail(t: string, p: nat)
    requires p > 0 && |t| >= 2 * p && t[p..][..p] == t[..p] && HasPeriod(t[p..], p)
    ensures HasPeriod(t, p)
  {
    forall i | 0 <= i < |t| - p ensures t[i] == t[i + p] {
      if i < p {
        assert t[p..][..p][i] == t[..p][i];
      } else {
        assert t[p..][i - p] == t[p..][i];
      }
    }
  }

  lemma {:induction false} MultiplePeriod(t: string, q: nat, m: nat)
    requires HasPeriod(t, q) && m > 0
    ensures HasPeriod(t, m * q)
  {
    if m > 1 {
      MultiplePeriod(t, q, m - 1);
      forall i | 0 <= i < |t| - m * q ensures t[i] == t[i + m * q] {
        assert m * q == (m - 1) * q + q;
        assert t[i] == t[i + (m - 1) * q] && t[i + (m - 1) * q] == t[i + (m - 1) * q + q];
      }
      assert m * q > 0;
    } else {
      assert 1 * q == q;
    }
  }

  /** A period of the head that divides the text's period is a period of the text. */
  lemma {:induction false} HeadPeriodAt(t: string, p: nat, q: nat, k: nat, i: nat)
    requires HasPeriod(t, p) && k > 1 && p == k * q && p <= |t| && HasPeriod(t[..p], q) && i + q < |t|
    ensures t[i] == t[i + q]
    decreases i
  {
    if i >= p {
      HeadPeriodAt(t, p, q, k, i - p);
      assert t[i - p] == t[i] && t[i + q - p] == t[i + q];
    } else if i + q < p {
      assert t[..p][i] == t[..p][i + q];
    } else {
      MultiplePeriod(t[..p], q, k - 1);
      assert p - q == (k - 1) * q;
      var j := i + q - p;
      assert t[..p][j] == t[..p][j + (k - 1) * q];
      assert t[j] == t[j + p];
    }
  }

  lemma HeadPeriod(t: string, p: nat, q: nat, k: nat)
    requires HasPeriod(t, p) && k > 1 && p == k * q && p <= |t| && HasPeriod(t[..p], q)
    ensures HasPeriod(t, q)
  {
    forall i | 0 <= i < |t| - q ensures t[i] == t[i + q] { HeadPeriodAt(t, p, q, k, i); }
  }

  lemma PrefixPeriod(t: string, p: nat, n: nat)
    requires HasPeriod(t, p) && n <= |t|
    ensures HasPeriod(t[..n], p)
  {
  }

  // ---------- collapsing ----------

  /** `_collapse_concatenated_copy` */
  function CollapseCopy(t: string): string {
    if |t| < 40 then t
    else if IsPower(t, 2) then t[..|t| / 2]
    else if IsPower(t, 3) then t[..|t| / 3]
    else if IsPower(t, 4) then t[..|t| / 4]
    else t
  }

  /** Four copies are two copies, so the case `parts == 4` never fires. */
  lemma FourIsTwo(t: string)
    requires IsPower(t, 4)
    ensures IsPower(t, 2)
  {
    var q := |t| / 4;
    MultiplePeriod(t, q, 2);
    assert |t| / 2 == 2 * q;
  }

  method CollapseConcatenatedCopy(t: string) returns (u: string)
    ensures u == CollapseCopy(t)
  {
    var length := |t|;
    if length < 40 { return t; }
    for parts := 2 to 5
      invariant forall k :: 2 <= k < parts ==> !IsPower(t, k)
    {
      if length % parts == 0 {
        var size := length / parts;
        if size >= 20 {
          CopiesIffPeriod(t, size, parts);
          var unit := t[..size];
          if Repeat(unit, parts) == t { return unit; }
        }
      }
    }
    u := t;
  }

  /** One copy is kept out of one, two or three; the text is that copy repeated. */
  lemma CollapseIsRoot(t: string)
    ensures var u := CollapseCopy(t);
            if u == t then !IsPower(t, 2) && !IsPower(t, 3)
            else if IsPower(t, 2) then t == Repeat(u, 2) && |t| == 2 * |u|
            else IsPower(t, 3) && t == Repeat(u, 3) && |t| == 3 * |u|
  {
    if IsPower(t, 4) { FourIsTwo(t); }
    if IsPower(t, 2) {
      CopiesIffPeriod(t, |t| / 2, 2);
    } else if IsPower(t, 3) {
      CopiesIffPeriod(t, |t| / 3, 3);
    }
  }

  lemma CollapseUnfolds(t: string)
    ensures CollapseCopy(t) == if IsPower(t, 2) then t[..|t| / 2] else if IsPower(t, 3) then t[..|t| / 3] else t
    ensures CollapseCopy(t) != t <==> IsPower(t, 2) || IsPower(t, 3)
  {
    if IsPower(t, 4) { FourIsTwo(t); }
  }

  // ---------- collapsing twice ----------

  lemma FourHead(t: string)
    requires IsPower(t, 4)
    ensures IsPower(t, 2) && IsPower(t[..|t| / 2], 2)
  {
    var q := |t| / 4;
    FourIsTwo(t);
    PrefixPeriod(t, q, 2 * q);
  }

  lemma SixHead(t: string)
    requires IsPower(t, 6)
    ensures IsPower(t, 2) && IsPower(t[..|t| / 2], 3)
  {
    var q := |t| / 6;
    MultiplePeriod(t, q, 3);
    PrefixPeriod(t, q, 3 * q);
  }

  lemma NineHead(t: string)
    requires IsPower(t, 9)
    ensures IsPower(t, 3) && IsPower(t[..|t| / 3], 3)
  {
    var q := |t| / 9;
    MultiplePeriod(t, q, 3);
    PrefixPeriod(t, q, 3 * q);
  }

  /** A power whose root is a power is a higher power. */
  lemma SquareRoots(t: string)
    requires IsPower(t, 2)
    ensures IsPower(t[..|t| / 2], 2) ==> IsPower(t, 4)
    ensures IsPower(t[..|t| / 2], 3) ==> IsPower(t, 6)
  {
    var p := |t| / 2;
    if IsPower(t[..p], 2) { HeadPeriod(t, p, p / 2, 2); }
    if IsPower(t[..p], 3) { HeadPeriod(t, p, p / 3, 3); }
  }

  lemma CubeRoots(t: string)
    requires IsPower(t, 3)
    ensures IsPower(t[..|t| / 3], 2) ==> IsPower(t, 6)
    ensures IsPower(t[..|t| / 3], 3) ==> IsPower(t, 9)
  {
    var p := |t| / 3;
    if IsPower(t[..p], 2) { HeadPeriod(t, p, p / 2, 2); }
    if IsPower(t[..p], 3) { HeadPeriod(t, p, p / 3, 3); }
  }

  /** A nine-fold text that is also a square has half the nine-fold period. */
  lemma HalfPeriod(t: string, h: nat)
    requires h > 0 && |t| == 18 * h && HasPeriod(t, 2 * h) && HasPeriod(t, 9 * h)
    ensures HasPeriod(t, h)
  {
    MultiplePeriod(t, 2 * h, 4);
    assert 4 * (2 * h) == 8 * h;
    forall i | 0 <= i < |t| - h ensures t[i] == t[i + h] {
      var j := if i >= 9 * h then i - 8 * h else i;
      if i >= 9 * h { assert t[j] == t[j + 8 * h] && t[j + h] == t[j + h + 8 * h]; }
      assert t[j] == t[j + 9 * h] && t[j + h] == t[j + h + 8 * h];
    }
  }

  lemma NineAndTwo(t: string)
    requires IsPower(t, 9) && IsPower(t, 2)
    ensures IsPower(t[..|t| / 2], 3)
  {
    var h := |t| / 18;
    assert |t| == 18 * h && |t| / 9 == 2 * h && |t| / 2 == 9 * h;
    HalfPeriod(t, h);
    hide IsPower;
    CubeOf(t[..9 * h], t, h);
  }

  lemma CubeOf(u: string, t: string, h: nat)
    requires |t| == 18 * h && HasPeriod(t, h) && u == t[..9 * h] && 3 * h >= 20
    ensures IsPower(u, 3)
  {
    PrefixPeriod(t, h, 9 * h);
    MultiplePeriod(u, h, 3);
  }

  /** Collapsing twice does more than collapsing once exactly on four, six and nine copies. */
  lemma IdempotentIff(t: string)
    ensures CollapseCopy(CollapseCopy(t)) == CollapseCopy(t) <==> !IsPower(t, 4) && !IsPower(t, 6) && !IsPower(t, 9)
  {
    CollapseUnfolds(t);
    var u := CollapseCopy(t);
    CollapseUnfolds(u);
    if IsPower(t, 4) { FourHead(t); }
    if IsPower(t, 6) { SixHead(t); }
    if IsPower(t, 9) {
      NineHead(t);
      if IsPower(t, 2) { NineAndTwo(t); }
    }
    if IsPower(t, 2) {
      SquareRoots(t);
    } else if IsPower(t, 3) {
      CubeRoots(t);
    }
    hide IsPower, CollapseCopy;
  }

  lemma DoubleIsPower(s: string)
    requires |s| >= 20
    ensures IsPower(s + s, 2) && CollapseCopy(s + s) == s
  {
    var t := s + s;
    assert |t| / 2 == |s| && t[..|s|] == s;
    CollapseUnfolds(t);
    hide CollapseCopy;
  }

  /** A fourfold copy is caught as two and leaves two. */
  lemma FourfoldLeavesTwo(u: string)
    requires |u| >= 20
    ensures CollapseCopy(Repeat(u, 4)) == Repeat(u, 2) && CollapseCopy(Repeat(u, 2)) == u
  {
    hide *;
    RepeatAdd(u, 2, 2);
    RepeatTwo(u);
    DoubleIsPower(u + u);
    DoubleIsPower(u);
  }

  lemma RepeatTwo(u: string)
    ensures Repeat(u, 2) == u + u
  {
    assert Repeat(u, 1) == u + "" && Repeat(u, 2) == u + Repeat(u, 1);
  }

  lemma RepeatThree(u: string)
    ensures Repeat(u, 3) == u + u + u
  {
    RepeatTwo(u);
    assert Repeat(u, 3) == u + Repeat(u, 2);
  }

  /** A text is shortened exactly when it is two or three copies of one text of twenty characters or more. */
  lemma CollapseIff(t: string)
    ensures CollapseCopy(t) != t <==> exists u: string :: |u| >= 20 && (t == u + u || t == u + u + u)
    ensures CollapseCopy(t) != t ==> var u := CollapseCopy(t); |u| >= 20 && (t == u + u || t == u + u + u)
  {
    CollapseUnfolds(t);
    if CollapseCopy(t) != t {
      CollapseIsRoot(t);
      RepeatTwo(CollapseCopy(t));
      RepeatThree(CollapseCopy(t));
    }
    if u: string :| |u| >= 20 && (t == u + u || t == u + u + u) {
      if t == u + u {
        DoubleIsPower(u);
      } else {
        RepeatThree(u);
        assert t[..|u|] == u && |t| == 3 * |u|;
        CopiesIffPeriod(t, |u|, 3);
        assert |t| / 3 == |u|;
      }
    }
    hide CollapseCopy;
  }

  // ---------- collapsing until nothing changes ----------

  /** The fixpoint of collapsing; each round at least halves the text. */
  function CollapseFully(t: string): (u: string)
    decreases |t|
  {
    CollapseUnfolds(t);
    if CollapseCopy(t) == t then t else CollapseFully(CollapseCopy(t))
  }

  lemma {:induction false} RepeatRepeat(u: string, a: nat, b: nat)
    ensures Repeat(Repeat(u, a), b) == Repeat(u, a * b)
    decreases b
  {
    if b > 0 {
      RepeatRepeat(u, a, b - 1);
      RepeatAdd(u, a, a * (b - 1));
      assert a * b == a + a * (b - 1);
    } else {
      assert a * b == 0;
    }
  }

  lemma {:induction false} RepeatAdd(u: string, a: nat, b: nat)
    ensures Repeat(u, a + b) == Repeat(u, a) + Repeat(u, b)
    decreases a
  {
    if a > 0 {
      RepeatAdd(u, a - 1, b);
      assert u + (Repeat(u, a - 1) + Repeat(u, b)) == u + Repeat(u, a - 1) + Repeat(u, b);
    } else {
      assert "" + Repeat(u, b) == Repeat(u, b);
    }
  }

  ghost predicate IsRoot(u: string, t: string) { exists k: nat :: k >= 1 && t == Repeat(u, k) }

  lemma RootOfRoot(u: string, v: string, t: string, m: nat)
    requires IsRoot(u, v) && m >= 1 && t == Repeat(v, m)
    ensures IsRoot(u, t)
  {
    var j: nat :| j >= 1 && v == Repeat(u, j);
    RepeatRepeat(u, j, m);
    assert j * m >= 1;
  }

  /** The fixpoint collapses no further, and the text is a number of its copies. */
  lemma {:induction false} CollapseFullyIsRoot(t: string)
    ensures IsRoot(CollapseFully(t), t)
    ensures CollapseCopy(CollapseFully(t)) == CollapseFully(t)
    decreases |t|
  {
    CollapseUnfolds(t);
    CollapseIsRoot(t);
    hide CollapseCopy, IsPower;
    if CollapseCopy(t) == t {
      assert Repeat(t, 1) == t + "";
    } else {
      var u := CollapseCopy(t);
      CollapseFullyIsRoot(u);
      RootOfRoot(CollapseFully(t), u, t, if IsPower(t, 2) then 2 else 3);
    }
  }
}
