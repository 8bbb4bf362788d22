/** dedupe_name of schema.py: the first free " (n)" suffix. */
module Names {

  // ------------------------------------------------------------------
  // Decimal rendering
  // ------------------------------------------------------------------

  function Digit(d: nat): char
    requires d < 10
  {
    '0' + d as char
  }

  function Decimal(n: nat): (s: string)
    ensures |s| > 0
  {
    if n < 10 then [Digit(n)] else Decimal(n / 10) + [Digit(n % 10)]
  }

  /** Reads decimal digits back. */
  function Parse(s: string): int {
    if s == [] then 0 else 10 * Parse(s[..|s| - 1]) + (s[|s| - 1] as int - '0' as int)
  }

  lemma {:induction false} ParseDecimal(n: nat)
    ensures Parse(Decimal(n)) == n
  {
    if n < 10 {
      assert Decimal(n)[..0] == [];
    } else {
      ParseDecimal(n / 10);
      assert Decimal(n)[..|Decimal(n)| - 1] == Decimal(n / 10);
    }
  }

  /** The n-th candidate for a name. */
  function Suffixed(name: string, n: nat): (s: string)
    ensures s != name
  {
    var s := name + " (" + Decimal(n) + ")";
    assert |s| > |name|;
    s
  }

  /** A suffix is the number in ordinary decimal digits, in parentheses after a space. */
  lemma SuffixIsTheNumber(name: string, n: nat)
    ensures var s := Suffixed(name, n);
            && |s| >= |name| + 4 && s[..|name|] == name && s[|name|] == ' ' && s[|name| + 1] == '(' && s[|s| - 1] == ')'
            && var digits := s[|name| + 2..|s| - 1];
               && Parse(digits) == n && (n > 0 ==> digits[0] != '0') && (n == 0 ==> digits == "0")
               && forall i :: 0 <= i < |digits| ==> '0' <= digits[i] <= '9'
  {
    var s := Suffixed(name, n);
    assert s[|name| + 2..|s| - 1] == Decimal(n);
    ParseDecimal(n);
    OrdinaryDigits(n);
  }

  lemma {:induction false} OrdinaryDigits(n: nat)
    ensures (n > 0 ==> Decimal(n)[0] != '0') && (n == 0 ==> Decimal(n) == "0")
    ensures forall i :: 0 <= i < |Decimal(n)| ==> '0' <= Decimal(n)[i] <= '9'
  {
    if n >= 10 {
      OrdinaryDigits(n / 10);
    }
  }

  lemma SuffixedInjective(name: string, m: nat, n: nat)
    requires Suffixed(name, m) == Suffixed(name, n)
    ensures m == n
  {
    var s, t := Suffixed(name, m), Suffixed(name, n);
    assert Decimal(m) == s[|name| + 2..|s| - 1];
    assert Decimal(n) == t[|name| + 2..|t| - 1];
    ParseDecimal(m);
    ParseDecimal(n);
  }

  // ------------------------------------------------------------------
  // The search
  // ------------------------------------------------------------------

  /** The candidates from the n-th on that are taken. Finite, so the search ends. */
  ghost function TakenFrom(name: string, taken: set<string>, n: nat): set<string> {
    set s | s in taken && exists k :: k >= n && s == Suffixed(name, k)
  }

  lemma TakenShrinks(name: string, taken: set<string>, n: nat)
    requires Suffixed(name, n) in taken
    ensures TakenFrom(name, taken, n + 1) < TakenFrom(name, taken, n)
  {
    var s := Suffixed(name, n);
    assert s in TakenFrom(name, taken, n);
    forall k: nat | k >= n + 1
      ensures s != Suffixed(name, k)
    {
      if s == Suffixed(name, k) {
        SuffixedInjective(name, n, k);
      }
    }
    assert s !in TakenFrom(name, taken, n + 1);
  }

  /** The least n from `from` on whose candidate is free. */
  ghost predicate FirstFree(name: string, taken: set<string>, from: nat, n: nat) {
    && from <= n
    && Suffixed(name, n) !in taken
    && forall k :: from <= k < n ==> Suffixed(name, k) in taken
  }

  lemma {:induction false} SomeFree(name: string, taken: set<string>, from: nat) returns (n: nat)
    ensures FirstFree(name, taken, from, n)
    decreases TakenFrom(name, taken, from)
  {
    n := from;
    if Suffixed(name, from) in taken {
      TakenShrinks(name, taken, from);
      n := SomeFree(name, taken, from + 1);
    }
  }

  lemma FirstFreeUnique(name: string, taken: set<string>, from: nat, m: nat, n: nat)
    requires FirstFree(name, taken, from, m) && FirstFree(name, taken, from, n)
    ensures m == n
  {
    assert m < n ==> Suffixed(name, m) in taken;
    assert n < m ==> Suffixed(name, n) in taken;
  }

  ghost function FreeSuffix(name: string, taken: set<string>): (n: nat)
    ensures FirstFree(name, taken, 2, n)
  {
    SomeFreeExists(name, taken);
    var n: nat :| FirstFree(name, taken, 2, n);
    n
  }

  lemma SomeFreeExists(name: string, taken: set<string>)
    ensures exists n: nat :: FirstFree(name, taken, 2, n)
  {
    var n := SomeFree(name, taken, 2);
  }

  /** The name a new recipe gets among `taken`. */
  ghost function Deduped(name: string, taken: set<string>): (r: string)
    ensures r !in taken
  {
    if name !in taken then name else Suffixed(name, FreeSuffix(name, taken))
  }

  /** dedupe_name. It ends on every finite set of taken names. */
  method DedupeName(name: string, taken: set<string>) returns (r: string)
    ensures r == Deduped(name, taken)
    ensures r !in taken
  {
    if name !in taken {
      return name;
    }
    var n := 2;
    while Suffixed(name, n) in taken
      invariant 2 <= n
      invariant forall k :: 2 <= k < n ==> Suffixed(name, k) in taken
      decreases TakenFrom(name, taken, n)
    {
      TakenShrinks(name, taken, n);
      n := n + 1;
    }
    FirstFreeUnique(name, taken, 2, n, FreeSuffix(name, taken));
    r := Suffixed(name, n);
  }

  // ------------------------------------------------------------------
  // How far the search goes
  // ------------------------------------------------------------------

  ghost function Candidates(name: string, n: nat): set<string> {
    set k | 2 <= k < n :: Suffixed(name, k)
  }

  lemma {:induction false} CandidateCount(name: string, n: nat)
    requires n >= 2
    ensures |Candidates(name, n)| == n - 2
  {
    if n == 2 {
      assert Candidates(name, n) == {};
    } else {
      CandidateCount(name, n - 1);
      OneMoreCandidate(name, n - 1);
    }
  }

  lemma OneMoreCandidate(name: string, n: nat)
    requires n >= 2
    ensures Suffixed(name, n) !in Candidates(name, n)
    ensures Candidates(name, n + 1) == Candidates(name, n) + {Suffixed(name, n)}
  {
    forall k: nat | Suffixed(name, k) == Suffixed(name, n)
      ensures k == n
    {
      SuffixedInjective(name, k, n);
    }
  }

  /** A taken name gets the smallest free suffix from 2 on, and since the suffixes are all
      different names, that is at most one more than the number of names taken. */
  lemma SmallestFreeSuffix(name: string, taken: set<string>)
    requires name in taken
    ensures var n := FreeSuffix(name, taken);
            && Deduped(name, taken) == Suffixed(name, n)
            && 2 <= n <= |taken| + 1
            && forall k :: 2 <= k < n ==> Suffixed(name, k) in taken
  {
    var n := FreeSuffix(name, taken);
    CandidateCount(name, n);
    var tried := Candidates(name, n) + {name};
    assert name !in Candidates(name, n);
    assert tried <= taken;
    Subset(tried, taken);
  }

  lemma {:induction false} Subset(a: set<string>, b: set<string>)
    requires a <= b
    ensures |a| <= |b|
  {
    if a != {} {
      var x :| x in a;
      Subset(a - {x}, b - {x});
    }
  }
}
