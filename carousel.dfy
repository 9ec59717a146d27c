/** The image carousel of the Work page: one index into a fixed, non-empty
    list of project screenshots, moved by "next" and "previous" buttons that
    wrap around at both ends, and a row of indicator dots of which exactly
    the one at the current index is highlighted. */
module Carousel {

  /** An image reference (the bundled asset's file name). */
  type Image = string

  /** The screenshots the Work page shows, in order: two distinct
      images. */
  function ProjectImages(): (images: seq<Image>)
    ensures |images| == 2 && images[0] != images[1]
  {
    ["work1.png", "work1a.png"]
  }

  // ---------------------------------------------------------------------
  // Index arithmetic
  // ---------------------------------------------------------------------

  /** The index after pressing "next": one further, and back to the first
      image after the last one. */
  function Next(i: nat, n: nat): (r: nat)
    requires i < n
    ensures r < n
    ensures i + 1 < n ==> r == i + 1
    ensures i + 1 == n ==> r == 0
  {
    (i + 1) % n
  }

  /** The index after pressing "previous": one back, and to the last image
      from the first one. It agrees with the modular formula
      (i - 1 + n) mod n. */
  function Prev(i: nat, n: nat): (r: nat)
    requires i < n
    ensures r < n
    ensures r == (i - 1 + n) % n
  {
    if i == 0 then
      ModUnique(n - 1, 0, n - 1, n);
      n - 1
    else
      ModUnique(i - 1 + n, 1, i - 1, n);
      i - 1
  }

  /** "previous" undoes "next". */
  lemma PrevAfterNext(i: nat, n: nat)
    requires i < n
    ensures Prev(Next(i, n), n) == i
  {
  }

  /** "next" undoes "previous". */
  lemma NextAfterPrev(i: nat, n: nat)
    requires i < n
    ensures Next(Prev(i, n), n) == i
  {
  }

  /** A product of a positive factor and a positive modulus is at least the
      modulus. */
  lemma MulAtLeast(x: int, n: int)
    requires x >= 1 && n > 0
    ensures x * n >= n
  {
  }

  /** The remainder modulo n is determined by any decomposition
      a == q * n + m with m in [0, n). */
  lemma ModUnique(a: int, q: int, m: int, n: nat)
    requires n > 0 && 0 <= m < n && a == q * n + m
    ensures a % n == m
  {
    var q', m' := a / n, a % n;
    assert a == q' * n + m';
    if q > q' {
      MulAtLeast(q - q', n);
    } else if q < q' {
      MulAtLeast(q' - q, n);
    }
  }

  /** Adding one after reducing modulo n is the same as reducing after
      adding one. */
  lemma ModSucc(a: int, n: nat)
    requires n > 0
    ensures (a + 1) % n == if a % n + 1 < n then a % n + 1 else 0
  {
    var q, m := a / n, a % n;
    assert a == q * n + m;
    if m + 1 < n {
      ModUnique(a + 1, q, m + 1, n);
    } else {
      assert a + 1 == q * n + n == (q + 1) * n;
      ModUnique(a + 1, q + 1, 0, n);
    }
  }

  /** Subtracting one after reducing modulo n is the same as reducing after
      subtracting one. */
  lemma ModPred(a: int, n: nat)
    requires n > 0
    ensures (a - 1) % n == if a % n == 0 then n - 1 else a % n - 1
  {
    var q, m := a / n, a % n;
    assert a == q * n + m;
    if m == 0 {
      assert a - 1 == q * n - n + (n - 1) == (q - 1) * n + (n - 1);
      ModUnique(a - 1, q - 1, n - 1, n);
    } else {
      ModUnique(a - 1, q, m - 1, n);
    }
  }

  /** The index after pressing "next" k times. */
  function NextTimes(i: nat, k: nat, n: nat): (r: nat)
    requires i < n
    ensures r < n
    decreases k
  {
    if k == 0 then i else Next(NextTimes(i, k - 1, n), n)
  }

  /** The index after pressing "previous" k times. */
  function PrevTimes(i: nat, k: nat, n: nat): (r: nat)
    requires i < n
    ensures r < n
    decreases k
  {
    if k == 0 then i else Prev(PrevTimes(i, k - 1, n), n)
  }

  /** Pressing "next" k times moves the index k places forward, modulo n. */
  lemma {:induction false} NextTimesShifts(i: nat, k: nat, n: nat)
    requires i < n
    ensures NextTimes(i, k, n) == (i + k) % n
    decreases k
  {
    if k > 0 {
      NextTimesShifts(i, k - 1, n);
      ModSucc(i + k - 1, n);
    }
  }

  /** Pressing "previous" k times moves the index k places back, modulo n
      (the remainder taken in [0, n)). */
  lemma {:induction false} PrevTimesShifts(i: nat, k: nat, n: nat)
    requires i < n
    ensures PrevTimes(i, k, n) == (i - k) % n
    decreases k
  {
    if k > 0 {
      PrevTimesShifts(i, k - 1, n);
      ModPred(i - (k - 1), n);
    }
  }

  /** Pressing "next" as many times as there are images comes back to the
      starting image, and so does pressing "previous" that often. */
  lemma FullCycle(i: nat, n: nat)
    requires i < n
    ensures NextTimes(i, n, n) == i
    ensures PrevTimes(i, n, n) == i
  {
    NextTimesShifts(i, n, n);
    PrevTimesShifts(i, n, n);
    assert (i + n) % n == i by { ModAddPeriod(i, 1, n); }
    assert (i - n) % n == i by { ModAddPeriod(i, -1, n); }
  }

  /** Adding a multiple of n does not change the remainder of an index in
      [0, n). */
  lemma ModAddPeriod(i: nat, q: int, n: nat)
    requires i < n
    ensures (i + q * n) % n == i
  {
    ModUnique(i + q * n, q, i, n);
  }

  /** With the Work page's two images, pressing "next" from the first image
      shows 0, 1, 0, 1, ...: after k presses the index is k mod 2. */
  lemma {:induction false} ProjectImagesAlternate(k: nat)
    ensures NextTimes(0, k, |ProjectImages()|) == k % 2
    ensures Prev(0, |ProjectImages()|) == 1
  {
    NextTimesShifts(0, k, |ProjectImages()|);
  }

  // ---------------------------------------------------------------------
  // Indicator dots
  // ---------------------------------------------------------------------

  /** One dot per image; a dot is highlighted exactly when its position is
      the current index. */
  function Indicators(current: nat, n: nat): (dots: seq<bool>)
    ensures |dots| == n
    ensures forall idx :: 0 <= idx < n ==> (dots[idx] <==> idx == current)
  {
    seq(n, idx => idx == current)
  }

  /** The number of highlighted dots. */
  function ActiveCount(dots: seq<bool>): nat
  {
    if dots == [] then 0 else (if dots[0] then 1 else 0) + ActiveCount(dots[1..])
  }

  /** A row with no highlighted position has no highlighted dot. */
  lemma {:induction false} NoneActive(dots: seq<bool>)
    requires forall idx :: 0 <= idx < |dots| ==> !dots[idx]
    ensures ActiveCount(dots) == 0
  {
    if dots != [] {
      NoneActive(dots[1..]);
    }
  }

  /** A row highlighted exactly at position c has one highlighted dot. */
  lemma {:induction false} OneActive(dots: seq<bool>, c: nat)
    requires c < |dots|
    requires forall idx :: 0 <= idx < |dots| ==> (dots[idx] <==> idx == c)
    ensures ActiveCount(dots) == 1
  {
    if c == 0 {
      NoneActive(dots[1..]);
    } else {
      OneActive(dots[1..], c - 1);
    }
  }

  /** Exactly one dot is highlighted whenever the index is in range. */
  lemma ExactlyOneIndicatorActive(current: nat, n: nat)
    requires current < n
    ensures ActiveCount(Indicators(current, n)) == 1
  {
    OneActive(Indicators(current, n), current);
  }

  // ---------------------------------------------------------------------
  // The Work page's carousel state
  // ---------------------------------------------------------------------

  /** The carousel as the Work page holds it: the fixed image list and the
      mutable current index, which starts at the first image. */
  class WorkCarousel {
    const images: seq<Image>
    var currentSlide: nat

    /** The index always points into the image list. */
    predicate Valid()
      reads this
    {
      currentSlide < |images|
    }

    /** Mounting the page: the index starts at 0. */
    constructor (images: seq<Image>)
      requires |images| > 0
      ensures Valid()
      ensures this.images == images && currentSlide == 0
    {
      this.images := images;
      currentSlide := 0;
    }

    /** The "next" button. */
    method NextSlide()
      requires Valid()
      modifies this
      ensures Valid()
      ensures currentSlide == Next(old(currentSlide), |images|)
    {
      currentSlide := (currentSlide + 1) % |images|;
    }

    /** The "previous" button. */
    method PrevSlide()
      requires Valid()
      modifies this
      ensures Valid()
      ensures currentSlide == Prev(old(currentSlide), |images|)
    {
      currentSlide := if currentSlide == 0 then |images| - 1 else currentSlide - 1;
    }

    /** The image shown. */
    function ActiveImage(): (img: Image)
      reads this
      requires Valid()
      ensures img == images[currentSlide]
      ensures forall idx :: 0 <= idx < |images| && Dots()[idx] ==> img == images[idx]
    {
      images[currentSlide]
    }

    /** The indicator row rendered under the image. */
    function Dots(): (dots: seq<bool>)
      reads this
      requires Valid()
      ensures |dots| == |images|
      ensures forall idx :: 0 <= idx < |dots| ==> (dots[idx] <==> idx == currentSlide)
      ensures ActiveCount(dots) == 1
    {
      ExactlyOneIndicatorActive(currentSlide, |images|);
      Indicators(currentSlide, |images|)
    }
  }
}
