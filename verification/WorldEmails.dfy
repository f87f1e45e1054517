/** Login emails of the synthetic world (app/synthetic/graph.py, `allocate_login_email`). */
module Emails {
  import opened Text

  const EMAIL_DOMAINS := ["gmail.com", "outlook.com", "uol.com.br", "nexamail.com"]
  const DEMO_LOGIN_EMAIL := "ana.costa@nexamail.com"
  const DEMO_LOGIN_NAME := "Ana Costa"
  const DEMO_SHOWCASE_EMAIL := "demo@test.com.br"
  const DEMO_SHOWCASE_NAME := "Demo Tester"

  function Without(c: char, s: string): string {
    if s == "" then "" else (if s[0] == c then "" else [s[0]]) + Without(c, s[1..])
  }

  /** `s.split()`: the words between runs of blanks. */
  function Words(s: string): seq<string>
    decreases |s|
  {
    var t := DropLeft(IsPySpace, s);
    if t == "" then []
    else
      var k := WordEnd(t);
      if k == 0 then [] else [t[..k]] + Words(t[k..])
  }

  function WordEnd(s: string): (k: nat)
    ensures k <= |s|
  {
    if s == "" || IsPySpace(s[0]) then 0 else 1 + WordEnd(s[1..])
  }

  /** `_slug_person` on a name that is already ASCII. */
  function Slug(name: string): string { Join(".", Words(Without('\'', Lower(name)))) }

  /** `f"{n:04d}"` */
  function FourDigits(n: nat): string {
    if n < 10 then "000" + Decimal(n) else if n < 100 then "00" + Decimal(n)
    else if n < 1000 then "0" + Decimal(n) else Decimal(n)
  }

  function LocalPart(name: string, index: nat): string {
    if Slug(name) != "" then Slug(name) else "cliente" + FourDigits(index)
  }

  function Domain(index: nat): (r: string)
    requires index > 0
    ensures r in EMAIL_DOMAINS
  {
    EMAIL_DOMAINS[(index - 1) % |EMAIL_DOMAINS|]
  }

  /** The candidates in the order they are tried: no suffix, then 2, 3, ... */
  function Candidate(slug: string, domain: string, k: nat): string {
    if k == 0 then slug + "@" + domain else slug + Decimal(k + 1) + "@" + domain
  }

  predicate IsTaken(used: set<string>, slug: string, domain: string, k: nat) {
    Lower(Candidate(slug, domain, k)) in used
  }

  // ---------- candidates are pairwise different, so the search ends ----------

  lemma LowerConcat(a: string, b: string)
    ensures Lower(a + b) == Lower(a) + Lower(b)
  {
  }

  lemma LowerDigits(n: nat)
    ensures Lower(Decimal(n)) == Decimal(n)
  {
    var d := Decimal(n);
    assert forall i :: 0 <= i < |d| ==> d[i] in d;
  }

  lemma LowerCandidate(slug: string, domain: string, k: nat)
    ensures Lower(Candidate(slug, domain, k))
            == Lower(slug) + (if k == 0 then "" else Decimal(k + 1)) + Lower("@" + domain)
  {
    hide Lower, Decimal;
    LowerDigits(k + 1);
    var n := if k == 0 then "" else Decimal(k + 1);
    LowerConcat(slug, n + ("@" + domain));
    LowerConcat(n, "@" + domain);
    assert Candidate(slug, domain, k) == slug + (n + ("@" + domain));
    LowerEmpty();
  }

  lemma LowerEmpty()
    ensures Lower("") == ""
  {
  }

  lemma CandidateInjective(slug: string, domain: string, j: nat, k: nat)
    requires Lower(Candidate(slug, domain, j)) == Lower(Candidate(slug, domain, k))
    ensures j == k
  {
    hide Lower, Decimal, Candidate;
    LowerCandidate(slug, domain, j);
    LowerCandidate(slug, domain, k);
    var m := if j == 0 then "" else Decimal(j + 1);
    var n := if k == 0 then "" else Decimal(k + 1);
    Cancel(Lower(slug), m, n, Lower("@" + domain));
    if j != 0 && k != 0 { DecimalInjective(j + 1, k + 1); }
  }

  lemma CandidatesDiffer(slug: string, domain: string, j: nat, k: nat)
    requires j != k
    ensures Lower(Candidate(slug, domain, j)) != Lower(Candidate(slug, domain, k))
  {
    hide Lower, Candidate;
    if Lower(Candidate(slug, domain, j)) == Lower(Candidate(slug, domain, k)) {
      CandidateInjective(slug, domain, j, k);
    }
  }

  lemma Cancel(a: string, m: string, n: string, z: string)
    requires a + m + z == a + n + z
    ensures m == n
  {
    assert |m| == |n|;
    assert (a + m + z)[|a|..|a| + |m|] == m && (a + n + z)[|a|..|a| + |n|] == n;
  }

  /** The position of the first free candidate; `left` holds the used emails not met yet. */
  function FirstFree(used: set<string>, left: set<string>, slug: string, domain: string, k: nat): (r: nat)
    requires left <= used && forall j :: j >= k && IsTaken(used, slug, domain, j) ==> IsTaken(left, slug, domain, j)
    ensures r >= k && !IsTaken(used, slug, domain, r)
    ensures forall j :: k <= j < r ==> IsTaken(used, slug, domain, j)
    decreases |left|
  {
    if !IsTaken(used, slug, domain, k) then k
    else
      var c := Lower(Candidate(slug, domain, k));
      assert forall j :: j >= k + 1 && IsTaken(left, slug, domain, j) ==> IsTaken(left - {c}, slug, domain, j) by {
        forall j | j >= k + 1 && IsTaken(left, slug, domain, j) ensures IsTaken(left - {c}, slug, domain, j) {
          CandidatesDiffer(slug, domain, j, k);
        }
      }
      assert IsTaken(left, slug, domain, k);
      FirstFree(used, left - {c}, slug, domain, k + 1)
  }

  /** The address `allocate_login_email` settles on. */
  function Allocate(used: set<string>, name: string, index: nat): (email: string)
    requires index > 0
    ensures Lower(email) !in used
  {
    var slug, domain := LocalPart(name, index), Domain(index);
    Candidate(slug, domain, FirstFree(used, used, slug, domain, 0))
  }

  lemma FirstFreeUnique(used: set<string>, slug: string, domain: string, k: nat)
    requires !IsTaken(used, slug, domain, k) && forall j :: 0 <= j < k ==> IsTaken(used, slug, domain, j)
    ensures k == FirstFree(used, used, slug, domain, 0)
  {
    hide IsTaken;
  }

  method AllocateLoginEmail(used: set<string>, name: string, index: nat) returns (email: string)
    requires index > 0
    ensures email == Allocate(used, name, index) && Lower(email) !in used
  {
    var slug, domain := LocalPart(name, index), Domain(index);
    var candidate := slug + "@" + domain;
    var suffix := 2;
    ghost var k, left := 0, used;
    while Lower(candidate) in used
      invariant suffix == k + 2 && candidate == Candidate(slug, domain, k) && left <= used
      invariant forall j :: 0 <= j < k ==> IsTaken(used, slug, domain, j)
      invariant forall j :: j >= k && IsTaken(used, slug, domain, j) ==> IsTaken(left, slug, domain, j)
      decreases |left|
    {
      ghost var c := Lower(candidate);
      assert IsTaken(used, slug, domain, k);
      assert c in left;
      forall j | j >= k + 1 && IsTaken(left, slug, domain, j) ensures IsTaken(left - {c}, slug, domain, j) {
        CandidatesDiffer(slug, domain, j, k);
      }
      left, k := left - {c}, k + 1;
      candidate := slug + Decimal(suffix) + "@" + domain;
      suffix := suffix + 1;
    }
    assert !IsTaken(used, slug, domain, k);
    FirstFreeUnique(used, slug, domain, k);
    email := candidate;
  }

  // ---------- the showcase address is in none of the four domains ----------

  ghost predicate HasAllocatedForm(email: string) {
    exists local: string, domain :: domain in EMAIL_DOMAINS && email == local + "@" + domain
  }

  lemma AllocateForm(used: set<string>, name: string, index: nat)
    requires index > 0
    ensures HasAllocatedForm(Allocate(used, name, index))
  {
    var slug, domain := LocalPart(name, index), Domain(index);
    var k := FirstFree(used, used, slug, domain, 0);
    var local := if k == 0 then slug else slug + Decimal(k + 1);
    assert Candidate(slug, domain, k) == local + "@" + domain;
  }

  lemma ShowcaseIsSpecial(email: string)
    requires HasAllocatedForm(email)
    ensures Lower(email) != DEMO_SHOWCASE_EMAIL
  {
    var local, domain :| domain in EMAIL_DOMAINS && email == local + "@" + domain;
    var e, n := Lower(email), |local|;
    assert email[n] == '@' && email[n + 1] == domain[0];
    if |email| == 16 {
      if domain == "outlook.com" {
        assert n == 4 && e[5] == 'o' && DEMO_SHOWCASE_EMAIL[5] == 't';
      } else {
        assert n != 4 && e[n] == '@' && forall i :: 0 <= i < 16 && DEMO_SHOWCASE_EMAIL[i] == '@' ==> i == 4;
      }
    }
  }
}
