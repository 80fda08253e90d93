/**
 * The headline carousel (streamlit_app/app.py, lines 176-187): while the background
 * answer call is running, every tick shows the next article of the already-fetched
 * `news_summary` list, cycling through it.
 *
 * The completion flag is read through `flags`: `flags[t]` is what `done_evt.is_set()`
 * returned at the top of the t-th iteration. The seven-second sleep only separates two
 * checks, so it is not modelled beyond moving on to the next element of `flags`. A finite
 * `flags` with no `true` in it is an observation that ended while the answer was still
 * outstanding.
 */
module Rotation {
  import opened Headlines

  /** How many top-of-loop checks saw the flag unset: the length of the leading run of `false`. */
  function UnsetChecks(flags: seq<bool>): (n: nat)
    ensures n <= |flags|
    ensures forall k :: 0 <= k < n ==> !flags[k]
    ensures n < |flags| ==> flags[n]
  {
    if flags == [] || flags[0] then 0 else 1 + UnsetChecks(flags[1..])
  }

  /**
   * The remainder `k % n`, written recursively (subtract whole periods until below `n`).
   * The recursive form is what the carousel lemmas induct over; `SlotIsMod` shows it
   * equals the script's `idx % len(articles)`.
   */
  function Slot(k: nat, n: nat): (s: nat)
    requires n > 0
    ensures s < n
  {
    if k < n then k else Slot(k - n, n)
  }

  /** The articles of the first `n` ticks: tick `k` shows article `k mod |articles|`. */
  function Carousel(articles: seq<Article>, n: nat): (picked: seq<Article>)
    requires articles != [] || n == 0
    ensures |picked| == n
    ensures forall k :: 0 <= k < n ==> picked[k] == articles[Slot(k, |articles|)]
  {
    seq(n, k requires 0 <= k < n => articles[Slot(k, |articles|)])
  }

  /**
   * The rotation loop. `idx` is the script's counter and `shown` the articles it renders
   * into the carousel with `headline_html`, in order. Module Pipeline turns each of them
   * into its card. `answered` tells whether the loop ended because it saw the flag set
   * rather than because the observation ran out.
   */
  method RotateHeadlines(articles: seq<Article>, flags: seq<bool>)
    returns (idx: nat, shown: seq<Article>, answered: bool)
    ensures answered <==> UnsetChecks(flags) < |flags|
    ensures idx == |shown|
    ensures idx == (if articles == [] then 0 else UnsetChecks(flags))
    ensures forall k :: 0 <= k < |shown| ==> !flags[k]
    ensures articles != [] ==> shown == Carousel(articles, idx)
  {
    idx, shown := 0, [];
    var t := 0;
    while t < |flags| && !flags[t]
      invariant t <= |flags|
      invariant forall k :: 0 <= k < t ==> !flags[k]
      invariant idx == (if articles == [] then 0 else t)
      invariant shown == Carousel(articles, idx)
    {
      if articles != [] {
        SlotIsMod(idx, |articles|);
        CarouselStep(articles, idx);
        shown := shown + [articles[idx % |articles|]];
        idx := idx + 1;
      }
      t := t + 1;
    }
    LeadingUnset(flags, t);
    answered := t < |flags|;
  }

  /** The first `t` checks saw the flag unset and check `t` saw it set (or there is none): `t` is `UnsetChecks`. */
  lemma LeadingUnset(flags: seq<bool>, t: nat)
    requires t <= |flags|
    requires forall k :: 0 <= k < t ==> !flags[k]
    requires t < |flags| ==> flags[t]
    ensures UnsetChecks(flags) == t
  {
  }

  /** One more tick appends the next article. */
  lemma CarouselStep(articles: seq<Article>, n: nat)
    requires articles != []
    ensures Carousel(articles, n + 1) == Carousel(articles, n) + [articles[Slot(n, |articles|)]]
  {
    var longer, shorter := Carousel(articles, n + 1), Carousel(articles, n);
    assert forall k :: 0 <= k < n ==> longer[k] == shorter[k];
  }

  /** After `|articles|` more ticks the carousel shows the same article again. */
  lemma CarouselCycles(articles: seq<Article>, n: nat, k: nat)
    requires articles != []
    requires k + |articles| < n
    ensures Carousel(articles, n)[k + |articles|] == Carousel(articles, n)[k]
  {
    assert Slot(k + |articles|, |articles|) == Slot(k, |articles|);
  }

  /** Counting down by whole periods gives the remainder of the division. */
  lemma {:induction false} SlotIsMod(k: nat, n: nat)
    requires n > 0
    ensures Slot(k, n) == k % n
  {
    if k < n {
      ModUnique(k, n, 0, k);
    } else {
      SlotIsMod(k - n, n);
      AddPeriodMod(k - n, n);
    }
  }

  /** Adding the period does not change the remainder. */
  lemma AddPeriodMod(k: nat, n: nat)
    requires n > 0
    ensures (k + n) % n == k % n
  {
    var q, r := k / n, k % n;
    assert k + n == (q + 1) * n + r;
    ModUnique(k + n, n, q + 1, r);
  }

  /** Division with remainder has a single answer. */
  lemma ModUnique(x: nat, n: nat, q: int, r: int)
    requires n > 0 && 0 <= r < n && x == q * n + r
    ensures x % n == r
  {
    var q', r' := x / n, x % n;
    assert (q - q') * n == r' - r;
    if q > q' {
      MulAtLeast(q - q', n);
    } else if q < q' {
      MulAtLeast(q' - q, n);
    }
  }

  lemma MulAtLeast(a: int, n: nat)
    requires a >= 1
    ensures a * n >= n
  {
  }

  /** Tick `N` over `N` articles comes back to the first article. */
  lemma CarouselWrapsToFirst(articles: seq<Article>)
    requires articles != []
    ensures Carousel(articles, |articles| + 1)[|articles|] == articles[0]
  {
    CarouselCycles(articles, |articles| + 1, 0);
  }

  /** Within the first pass, each article is shown once, in list order. */
  lemma CarouselFirstPass(articles: seq<Article>, k: nat)
    requires k < |articles|
    ensures Carousel(articles, |articles|)[k] == articles[k]
  {
  }

  /** A longer run extends a shorter one: earlier ticks are never rewritten. */
  lemma CarouselExtends(articles: seq<Article>, m: nat, n: nat)
    requires articles != [] || n == 0
    requires m <= n
    ensures Carousel(articles, m) == Carousel(articles, n)[..m]
  {
  }

  /** If the flag is already set when the loop is reached, no article is shown. */
  lemma SetBeforeLoopShowsNothing(flags: seq<bool>)
    requires flags != [] && flags[0]
    ensures UnsetChecks(flags) == 0
  {
  }

  /** Each check that sees the flag unset adds one tick, and the answer never arriving keeps the carousel going. */
  lemma {:induction false} UnsetChecksCountsTicks(n: nat)
    ensures UnsetChecks(seq(n, _ => false)) == n
    ensures UnsetChecks(seq(n, _ => false) + [true]) == n
  {
    if n > 0 {
      UnsetChecksCountsTicks(n - 1);
      assert seq(n, _ => false)[1..] == seq(n - 1, _ => false);
      assert (seq(n, _ => false) + [true])[1..] == seq(n - 1, _ => false) + [true];
    }
  }
}
