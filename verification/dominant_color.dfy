/**
 * get_dominant_color (visualization.py): pools, over all images together,
 * the pixels whose channel sum lies strictly between 20 and 740 and returns
 * the per-channel truncated mean, or black when nothing survives the filter.
 * Each image is given as the pixel list of its 50x50 thumbnail.
 */
module DominantColor {
  import opened Colors
  import opened Arith

  /**
   * A pixel as an image's pixel list yields it: a tuple for RGB and RGBA
   * images (channels past the third, such as alpha, are dropped by `p[:3]`),
   * a bare number for single-band images.
   */
  datatype Pixel = TuplePixel(r: Channel, g: Channel, b: Channel, rest: seq<Channel>) | BandPixel(value: Channel)

  /** The filter: tuple pixels that are neither near black nor near white. */
  predicate Kept(p: Pixel) {
    p.TuplePixel? && 20 < p.r + p.g + p.b < 740
  }

  /** `[p[:3] for p in pixels if isinstance(p, tuple) and 20 < sum(p[:3]) < 740]` */
  function Filtered(pixels: seq<Pixel>): (rs: seq<Rgb>)
    ensures |rs| <= |pixels|
    ensures forall k :: 0 <= k < |rs| ==> 20 < rs[k].r + rs[k].g + rs[k].b < 740
  {
    if pixels == [] then []
    else
      var p := pixels[0];
      (if Kept(p) then [Rgb(p.r, p.g, p.b)] else []) + Filtered(pixels[1..])
  }

  /** The filter runs pixel by pixel: filtering a concatenation concatenates the results. */
  lemma {:induction false} FilteredAppend(a: seq<Pixel>, b: seq<Pixel>)
    ensures Filtered(a + b) == Filtered(a) + Filtered(b)
  {
    if a != [] {
      assert (a + b)[1..] == a[1..] + b;
      FilteredAppend(a[1..], b);
    } else {
      assert a + b == b;
    }
  }

  /** A qualifying pixel is kept as its first three channels; any other pixel is dropped. */
  lemma FilteredSingle(p: Pixel)
    ensures Kept(p) ==> Filtered([p]) == [Rgb(p.r, p.g, p.b)]
    ensures !Kept(p) ==> Filtered([p]) == []
  {
    assert [p][1..] == [];
  }

  /** All kept pixels of all images, image after image (the `all_pixels` list). */
  function Pool(images: seq<seq<Pixel>>): seq<Rgb> {
    if images == [] then []
    else Pool(images[..|images| - 1]) + Filtered(images[|images| - 1])
  }

  /** Channel `ch` (0 red, 1 green, 2 blue) of a colour. */
  function Component(c: Rgb, ch: nat): Channel {
    if ch == 0 then c.r else if ch == 1 then c.g else c.b
  }

  function Sum(ps: seq<Rgb>, ch: nat): nat {
    if ps == [] then 0 else Sum(ps[..|ps| - 1], ch) + Component(ps[|ps| - 1], ch)
  }

  /** `int(np.mean([p[ch] for p in ps]))`: the mean, truncated; it is a channel value again. */
  function Mean(ps: seq<Rgb>, ch: nat): (m: Channel)
    requires ps != []
    ensures m * |ps| <= Sum(ps, ch) < (m + 1) * |ps|
  {
    SumBound(ps, ch);
    DivAtMost(Sum(ps, ch), |ps|, 255);
    Sum(ps, ch) / |ps|
  }

  /** The colour get_dominant_color returns for these images. */
  function DominantColorOf(images: seq<seq<Pixel>>): Rgb {
    var pool := Pool(images);
    if pool == [] then Black else Rgb(Mean(pool, 0), Mean(pool, 1), Mean(pool, 2))
  }

  method GetDominantColor(images: seq<seq<Pixel>>) returns (avg: Rgb)
    ensures avg == DominantColorOf(images)
    ensures Pool(images) == [] ==> avg == Black
    ensures Pool(images) != [] ==>
      forall ch :: 0 <= ch < 3 ==> Component(avg, ch) == Mean(Pool(images), ch)
  {
    var allPixels: seq<Rgb> := [];
    var k := 0;
    while k < |images|
      invariant 0 <= k <= |images|
      invariant allPixels == Pool(images[..k])
    {
      assert images[..k + 1][..k] == images[..k];
      allPixels := allPixels + Filtered(images[k]);
      k := k + 1;
    }
    assert images[..|images|] == images;
    if allPixels == [] {
      return Black;
    }
    avg := Rgb(Mean(allPixels, 0), Mean(allPixels, 1), Mean(allPixels, 2));
  }

  // ---------------------------------------------------------------------
  // Arithmetic of the mean
  // ---------------------------------------------------------------------

  lemma {:induction false} SumBound(ps: seq<Rgb>, ch: nat)
    ensures Sum(ps, ch) <= 255 * |ps|
  {
    if ps != [] {
      SumBound(ps[..|ps| - 1], ch);
    }
  }

  lemma DivAtMost(x: nat, n: nat, m: nat)
    requires n > 0 && x <= m * n
    ensures x / n <= m
  {
    var q := x / n;
    assert x == q * n + x % n;
    if q > m {
      MulMono(m + 1, q, n);
      assert false;
    }
  }

  lemma {:induction false} SumAppend(a: seq<Rgb>, b: seq<Rgb>, ch: nat)
    ensures Sum(a + b, ch) == Sum(a, ch) + Sum(b, ch)
  {
    if b == [] {
      assert a + b == a;
    } else {
      assert (a + b)[..|a + b| - 1] == a + b[..|b| - 1];
      SumAppend(a, b[..|b| - 1], ch);
    }
  }

  /** Taking element j out of a sequence takes its component out of the sum. */
  lemma SumRemove(qs: seq<Rgb>, j: nat, ch: nat)
    requires j < |qs|
    ensures Sum(qs, ch) == Sum(qs[..j] + qs[j + 1..], ch) + Component(qs[j], ch)
  {
    assert qs == (qs[..j] + [qs[j]]) + qs[j + 1..];
    SumAppend(qs[..j] + [qs[j]], qs[j + 1..], ch);
    assert (qs[..j] + [qs[j]])[..j] == qs[..j];
    SumAppend(qs[..j], qs[j + 1..], ch);
  }

  /** The channel sum depends only on which colours occur, not on their order. */
  lemma {:induction false} SumPermutation(ps: seq<Rgb>, qs: seq<Rgb>, ch: nat)
    requires multiset(ps) == multiset(qs)
    ensures Sum(ps, ch) == Sum(qs, ch)
    decreases |ps|
  {
    if ps != [] {
      var last := ps[|ps| - 1];
      var init := ps[..|ps| - 1];
      assert ps == init + [last];
      assert last in multiset(qs);
      var j :| 0 <= j < |qs| && qs[j] == last;
      var rest := qs[..j] + qs[j + 1..];
      assert qs == qs[..j] + [last] + qs[j + 1..];
      assert multiset(qs) == multiset(qs[..j]) + multiset{last} + multiset(qs[j + 1..]);
      assert multiset(rest) == multiset(qs[..j]) + multiset(qs[j + 1..]);
      assert multiset(ps) == multiset(init) + multiset{last};
      assert multiset(init) == multiset(ps) - multiset{last};
      assert multiset(rest) == multiset(qs) - multiset{last};
      SumPermutation(init, rest, ch);
      SumRemove(qs, j, ch);
    } else {
      assert |qs| == |multiset(qs)| == 0;
    }
  }

  lemma {:induction false} PoolAppend(a: seq<seq<Pixel>>, b: seq<seq<Pixel>>)
    ensures Pool(a + b) == Pool(a) + Pool(b)
  {
    if b == [] {
      assert a + b == a;
    } else {
      assert (a + b)[..|a + b| - 1] == a + b[..|b| - 1];
      PoolAppend(a, b[..|b| - 1]);
    }
  }

  /** Taking position j out of a sequence takes one copy of its element out of the multiset. */
  lemma RemoveAt<T>(ys: seq<T>, j: nat)
    requires j < |ys|
    ensures multiset(ys[..j] + ys[j + 1..]) == multiset(ys) - multiset{ys[j]}
  {
    assert ys == ys[..j] + [ys[j]] + ys[j + 1..];
  }

  /** Taking image j out of the list takes exactly its kept pixels out of the pool. */
  lemma {:induction false} PoolRemove(ys: seq<seq<Pixel>>, j: nat)
    requires j < |ys|
    ensures multiset(Pool(ys)) == multiset(Pool(ys[..j] + ys[j + 1..])) + multiset(Filtered(ys[j]))
  {
    var pre, post := ys[..j], ys[j + 1..];
    PoolSplitAt(ys, j);
    PoolAppend(pre, post);
    var a, b, c := Pool(pre), Filtered(ys[j]), Pool(post);
    assert multiset(a + b + c) == multiset(a) + multiset(b) + multiset(c);
    assert multiset(a + c) == multiset(a) + multiset(c);
  }

  /** The pool is the pixels of the images before j, then image j's, then those after it. */
  lemma {:induction false} PoolSplitAt(ys: seq<seq<Pixel>>, j: nat)
    requires j < |ys|
    ensures Pool(ys) == Pool(ys[..j]) + Filtered(ys[j]) + Pool(ys[j + 1..])
  {
    var upto, post := ys[..j + 1], ys[j + 1..];
    assert ys == upto + post;
    PoolAppend(upto, post);
    assert upto[..j] == ys[..j];
  }

  /** Which pixels are pooled depends only on which images are given, not on their order. */
  lemma {:induction false} PoolPermutation(xs: seq<seq<Pixel>>, ys: seq<seq<Pixel>>)
    requires multiset(xs) == multiset(ys)
    ensures multiset(Pool(xs)) == multiset(Pool(ys))
    decreases |xs|
  {
    if xs != [] {
      var last := xs[|xs| - 1];
      var init := xs[..|xs| - 1];
      assert xs == init + [last];
      assert multiset(init) == multiset(xs) - multiset{last};
      assert last in multiset(ys);
      var j :| 0 <= j < |ys| && ys[j] == last;
      RemoveAt(ys, j);
      PoolPermutation(init, ys[..j] + ys[j + 1..]);
      PoolRemove(ys, j);
    } else {
      assert |ys| == |multiset(ys)| == 0;
    }
  }

  /** The dominant colour does not depend on the order in which the images are given. */
  lemma DominantColorOrderFree(xs: seq<seq<Pixel>>, ys: seq<seq<Pixel>>)
    requires multiset(xs) == multiset(ys)
    ensures DominantColorOf(xs) == DominantColorOf(ys)
  {
    MeansOrderFree(xs, ys);
  }

  lemma MeansOrderFree(xs: seq<seq<Pixel>>, ys: seq<seq<Pixel>>)
    requires multiset(xs) == multiset(ys)
    ensures Pool(xs) == [] <==> Pool(ys) == []
    ensures Pool(xs) != [] ==>
      forall ch :: 0 <= ch < 3 ==> Mean(Pool(xs), ch) == Mean(Pool(ys), ch)
  {
    PoolPermutation(xs, ys);
    var p, q := Pool(xs), Pool(ys);
    assert |p| == |multiset(p)| == |multiset(q)| == |q|;
    forall ch | 0 <= ch < 3
      ensures p != [] ==> Mean(p, ch) == Mean(q, ch)
    {
      SumPermutation(p, q, ch);
    }
  }

  /** The truncated mean lies between the smallest and the largest pooled value of that channel. */
  lemma MeanBetween(ps: seq<Rgb>, ch: nat, lo: int, hi: int)
    requires ps != []
    requires forall k :: 0 <= k < |ps| ==> lo <= Component(ps[k], ch) <= hi
    ensures lo <= Mean(ps, ch) <= hi
  {
    SumRange(ps, ch, lo, hi);
    QuotientBetween(Sum(ps, ch), |ps|, Mean(ps, ch), lo, hi);
  }

  /** A quotient bracketed by m * n and (m + 1) * n inherits bounds lo * n and hi * n on the dividend. */
  lemma QuotientBetween(total: int, n: nat, m: int, lo: int, hi: int)
    requires n > 0
    requires m * n <= total < (m + 1) * n
    requires lo * n <= total <= hi * n
    ensures lo <= m <= hi
  {
    if m < lo {
      MulMono(m + 1, lo, n);
      assert false;
    }
    if m > hi {
      MulMono(hi + 1, m, n);
      assert false;
    }
  }

  lemma {:induction false} SumRange(ps: seq<Rgb>, ch: nat, lo: int, hi: int)
    requires forall k :: 0 <= k < |ps| ==> lo <= Component(ps[k], ch) <= hi
    ensures lo * |ps| <= Sum(ps, ch) <= hi * |ps|
  {
    if ps != [] {
      var m := |ps| - 1;
      var init := ps[..m];
      assert forall k :: 0 <= k < m ==> init[k] == ps[k];
      SumRange(init, ch, lo, hi);
      assert lo <= Component(ps[m], ch) <= hi;
      MulSucc(lo, m);
      MulSucc(hi, m);
    }
  }

  lemma MulSucc(a: int, m: nat)
    ensures a * (m + 1) == a * m + a
  {
  }
}
