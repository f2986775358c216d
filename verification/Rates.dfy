/** How often something can happen that keeps a minimum distance in time. */
module Rates {
  ghost predicate Spaced(stamps: seq<int>, gap: int) {
    forall i, j :: 0 <= i < j < |stamps| ==> stamps[i] + gap <= stamps[j]
  }

  lemma SpacedAppend(stamps: seq<int>, stamp: int, gap: nat)
    requires Spaced(stamps, gap) && (stamps != [] ==> stamps[|stamps| - 1] + gap <= stamp)
    ensures Spaced(stamps + [stamp], gap)
  {
  }

  /** The stamps from `lo` to `hi`, in order. */
  function Within(stamps: seq<int>, lo: int, hi: int): seq<int> {
    if stamps == [] then []
    else
      var last := stamps[|stamps| - 1];
      Within(stamps[..|stamps| - 1], lo, hi) + if lo <= last <= hi then [last] else []
  }

  lemma {:induction false} WithinSpaced(stamps: seq<int>, gap: nat, lo: int, hi: int)
    requires Spaced(stamps, gap)
    ensures var s := Within(stamps, lo, hi);
            && (forall t :: t in s ==> lo <= t <= hi && t in stamps)
            && (s != [] ==> (|s| - 1) * gap <= s[|s| - 1] - s[0])
  {
    if stamps != [] {
      var init, last := stamps[..|stamps| - 1], stamps[|stamps| - 1];
      WithinSpaced(init, gap, lo, hi);
      var s := Within(init, lo, hi);
      if lo <= last <= hi && s != [] {
        assert s[|s| - 1] in s && s[|s| - 1] in init;
        assert |s| * gap == (|s| - 1) * gap + gap;
        assert (s + [last])[0] == s[0];
      }
    }
  }

  lemma LessByFactor(a: int, b: int, unit: int)
    requires 0 < unit
    ensures a * unit < b * unit ==> a < b
  {
    if b <= a {
      assert 0 <= (a - b) * unit;
    }
  }

  lemma DivideBound(count: int, unit: int, span: int)
    requires 0 < unit && count * unit <= span
    ensures count <= span / unit
  {
    assert (span / unit + 1) * unit == span / unit * unit + unit;
    LessByFactor(count, span / unit + 1, unit);
  }

  /** Stamps a gap apart fit at most `span / gap + 1` times into any span. */
  lemma RateBound(stamps: seq<int>, gap: int, lo: int, span: nat)
    requires 0 < gap && Spaced(stamps, gap)
    ensures |Within(stamps, lo, lo + span)| <= span / gap + 1
  {
    WithinSpaced(stamps, gap, lo, lo + span);
    var s := Within(stamps, lo, lo + span);
    if s != [] {
      assert s[0] in s && s[|s| - 1] in s;
      DivideBound(|s| - 1, gap, span);
    }
  }

  function Ceiling(a: nat, b: int): nat
    requires 0 < b
  {
    (a + b - 1) / b
  }

  lemma CeilingBound(a: nat, b: int, k: nat)
    requires 0 < b && a <= k * b
    ensures Ceiling(a, b) <= k
  {
    assert (k + 1) * b == k * b + b;
    LessByFactor(Ceiling(a, b), k + 1, b);
  }

  /** A power of two. */
  function Power(n: nat): (r: nat)
    ensures r >= 1
  {
    if n == 0 then 1 else 2 * Power(n - 1)
  }

  lemma {:induction false} PowerGrows(m: nat, n: nat)
    requires m <= n
    ensures Power(m) <= Power(n)
  {
    if m < n {
      PowerGrows(m, n - 1);
    }
  }
}
