/** Unique, deterministic step names (resolveStepName in worker/step-history.ts). */
module StepNames {
  import opened Graphs

  // ---- name:1, name:2, … ----

  function Digit(d: nat): char
    requires d < 10
  {
    "0123456789"[d]
  }

  /** Decimal notation. */
  function Decimal(n: nat): string {
    if n < 10 then [Digit(n)] else Decimal(n / 10) + [Digit(n % 10)]
  }

  lemma {:induction false} DecimalIsOneToOne(m: nat, n: nat)
    requires Decimal(m) == Decimal(n)
    ensures m == n
  {
    var s, t := Decimal(m), Decimal(n);
    assert s[|s| - 1] == Digit(m % 10) && t[|t| - 1] == Digit(n % 10);
    assert m % 10 == n % 10;
    DecimalLength(m);
    DecimalLength(n);
    if m >= 10 && n >= 10 {
      assert s[..|s| - 1] == Decimal(m / 10) && t[..|t| - 1] == Decimal(n / 10);
      DecimalIsOneToOne(m / 10, n / 10);
    }
  }

  lemma DecimalLength(n: nat)
    ensures |Decimal(n)| >= 1 && (n >= 10 ==> |Decimal(n)| >= 2)
  {
  }

  function Suffixed(base: string, i: nat): string {
    base + ":" + Decimal(i)
  }

  lemma SuffixedIsOneToOne(base: string, i: nat, j: nat)
    requires Suffixed(base, i) == Suffixed(base, j)
    ensures i == j
  {
    assert Suffixed(base, i)[|base| + 1..] == Decimal(i);
    assert Suffixed(base, j)[|base| + 1..] == Decimal(j);
    DecimalIsOneToOne(i, j);
  }

  // ---- the name a step gets ----

  /** The base name when it is free, else the first free suffix. */
  ghost predicate Resolves(used: set<string>, base: string, name: string) {
    if base !in used then name == base
    else exists i: nat :: i >= 1 && FirstFree(used, base, i) && name == Suffixed(base, i)
  }

  ghost predicate FirstFree(used: set<string>, base: string, i: nat) {
    Suffixed(base, i) !in used && forall j: nat :: 1 <= j < i ==> Suffixed(base, j) in used
  }

  lemma ResolvesToOne(used: set<string>, base: string, a: string, b: string)
    requires Resolves(used, base, a) && Resolves(used, base, b)
    ensures a == b && a !in used
  {
  }

  /** A finite set cannot hold every suffix. */
  lemma {:induction false} SomeFree(used: set<string>, left: set<string>, base: string, i: nat) returns (k: nat)
    requires i >= 1 && left <= used
    requires forall j: nat :: 1 <= j < i ==> Suffixed(base, j) in used
    requires forall j: nat :: j >= i && Suffixed(base, j) in used ==> Suffixed(base, j) in left
    ensures k >= 1 && FirstFree(used, base, k)
    decreases left
  {
    k := i;
    if Suffixed(base, i) in used {
      var left' := left - {Suffixed(base, i)};
      forall j: nat | j >= i + 1 && Suffixed(base, j) in used
        ensures Suffixed(base, j) in left'
      {
        if Suffixed(base, j) == Suffixed(base, i) {
          SuffixedIsOneToOne(base, i, j);
        }
      }
      k := SomeFree(used, left', base, i + 1);
    }
  }

  lemma SomeName(used: set<string>, base: string)
    ensures exists name :: Resolves(used, base, name)
  {
    if base !in used {
      assert Resolves(used, base, base);
    } else {
      var k := SomeFree(used, used, base, 1);
      assert Resolves(used, base, Suffixed(base, k));
    }
  }

  ghost function Resolved(used: set<string>, base: string): (name: string)
    ensures Resolves(used, base, name) && name !in used
  {
    SomeName(used, base);
    var name :| Resolves(used, base, name);
    ResolvesToOne(used, base, name, name);
    name
  }

  /** The names that a pass gives to the steps it meets, in order. */
  ghost function NamesOf(bases: seq<string>): (names: seq<string>)
    ensures |names| == |bases|
  {
    if bases == [] then []
    else
      var before := NamesOf(bases[..|bases| - 1]);
      before + [Resolved(Elems(before), bases[|bases| - 1])]
  }

  /** No two steps of a pass share a name. */
  lemma {:induction false} NamesAreDistinct(bases: seq<string>)
    ensures Distinct(NamesOf(bases))
  {
    if bases != [] {
      var n := |bases| - 1;
      NamesAreDistinct(bases[..n]);
      var before := NamesOf(bases[..n]);
      forall i | 0 <= i < n
        ensures before[i] in Elems(before)
      {
      }
    }
  }

  /** What a pass meets later does not change the names it gave before. */
  lemma {:induction false} NamesAreStable(bases: seq<string>, k: nat)
    requires k <= |bases|
    ensures NamesOf(bases)[..k] == NamesOf(bases[..k])
  {
    if k < |bases| {
      var n := |bases| - 1;
      NamesAreStable(bases[..n], k);
      assert bases[..n][..k] == bases[..k];
      assert NamesOf(bases)[..k] == NamesOf(bases[..n])[..k];
    } else {
      assert bases[..k] == bases;
    }
  }

  /** Steps whose own names differ are never suffixed. */
  lemma {:induction false} DistinctNamesStay(bases: seq<string>)
    requires Distinct(bases)
    ensures NamesOf(bases) == bases
  {
    if bases != [] {
      var n := |bases| - 1;
      DistinctNamesStay(bases[..n]);
      assert bases == bases[..n] + [bases[n]];
    }
  }

  /** A name that is used n times: the first use keeps it, the k-th after that is suffixed with k. */
  function Uses(base: string, n: nat): (names: seq<string>)
    ensures |names| == n
  {
    seq(n, k requires 0 <= k < n => if k == 0 then base else base + ":" + Decimal(k))
  }

  lemma {:induction false} RepeatedNames(base: string, n: nat)
    ensures NamesOf(seq(n, k => base)) == Uses(base, n)
  {
    if n > 0 {
      RepeatedNames(base, n - 1);
      assert seq(n, k => base)[..n - 1] == seq(n - 1, k => base);
      NextUse(base, n - 1);
      ResolvesToOne(Elems(Uses(base, n - 1)), base, Resolved(Elems(Uses(base, n - 1)), base), Uses(base, n)[n - 1]);
      assert Uses(base, n) == Uses(base, n - 1) + [Uses(base, n)[n - 1]];
    }
  }

  lemma NextUse(base: string, n: nat)
    ensures Resolves(Elems(Uses(base, n)), base, Uses(base, n + 1)[n])
  {
    var used := Elems(Uses(base, n));
    if n > 0 {
      assert Uses(base, n)[0] in used;
      forall j: nat | 1 <= j < n
        ensures Suffixed(base, j) in used
      {
        assert Uses(base, n)[j] in used;
      }
      if Suffixed(base, n) in used {
        assert |Suffixed(base, n)| > |base|;
        var k :| 0 <= k < n && Uses(base, n)[k] == Suffixed(base, n);
        SuffixedIsOneToOne(base, k, n);
      }
      assert FirstFree(used, base, n) && Uses(base, n + 1)[n] == Suffixed(base, n);
    }
  }
}
