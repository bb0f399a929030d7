/** The texture upload of src/Texture.js: the image-type gate of the apply button, and
    extractAdvancedColors, a one-pass k-means palette quantizer over the uploaded image's
    pixels, whose palette becomes the texture's colours. */
module Texture {
  import opened Basics
  import opened Three
  import opened State
  import opened Model
  import opened Gui

  /** One entry of the Uint8ClampedArray that getImageData returns. */
  type Byte = x: int | 0 <= x < 256

  /** An RGB triple read out of the image data; alpha is dropped. */
  datatype Sample = Sample(r: Byte, g: Byte, b: Byte)

  /** Every 20th byte starts a sample, that is every fifth RGBA pixel. */
  const SampleStride := 20

  /** The palette size the apply handler asks for. */
  const PaletteSize := 5

  // ----- sampling -----

  /** How many samples the stride loop takes from len bytes: the ceiling of len / 20. */
  function SampleCount(len: nat): nat
  {
    (len + SampleStride - 1) / SampleStride
  }

  /** The loop index 20 n is still inside the data exactly while fewer than SampleCount
      samples have been taken. */
  lemma SampleCountBound(len: nat, n: nat)
    ensures SampleStride * n < len <==> n < SampleCount(len)
  {
  }

  /** SampleCount is the ceiling of len / 20. */
  lemma SampleCountIsCeiling(len: nat)
    ensures SampleStride * SampleCount(len) >= len
    ensures SampleCount(len) > 0 ==> SampleStride * (SampleCount(len) - 1) < len
  {
  }

  /** With RGBA data the green and blue bytes of every sample exist. */
  lemma SampleInBounds(len: nat, k: nat)
    requires len % 4 == 0 && k < SampleCount(len)
    ensures SampleStride * k + 2 < len
  {
    SampleCountBound(len, k);
  }

  function SampleAt(data: seq<Byte>, k: nat): Sample
    requires |data| % 4 == 0 && k < SampleCount(|data|)
  {
    SampleInBounds(|data|, k);
    Sample(data[SampleStride * k], data[SampleStride * k + 1], data[SampleStride * k + 2])
  }

  /** The pixels array: bytes i, i + 1 and i + 2 for i = 0, 20, 40, ... */
  function Samples(data: seq<Byte>): (s: seq<Sample>)
    requires |data| % 4 == 0
    ensures |s| == SampleCount(|data|)
    ensures forall k :: 0 <= k < |s| ==>
      s[k].r == data[SampleStride * k] && s[k].g == data[SampleStride * k + 1] && s[k].b == data[SampleStride * k + 2]
  {
    seq(SampleCount(|data|), k requires 0 <= k < SampleCount(|data|) => SampleAt(data, k))
  }

  // ----- centroids -----

  /** pixels[Math.floor(Math.random() * pixels.length)]; with no pixels it is undefined. */
  function Centroid(samples: seq<Sample>, u: real): Option<Sample>
    requires 0.0 <= u < 1.0
  {
    if |samples| == 0 then None else Some(samples[PickIndex(u, |samples|)])
  }

  /** The k centroids, the i-th from the i-th random draw. */
  function Centroids(samples: seq<Sample>, k: nat, rand: Stream, from: nat): (cs: seq<Option<Sample>>)
    requires IsUnitStream(rand)
  {
    seq(k, i requires 0 <= i < k => Centroid(samples, rand(from + i)))
  }

  /** Exactly k centroids are chosen; each is one of the samples when there are any, and
      all are undefined when there are none. */
  lemma CentroidsAreSamples(samples: seq<Sample>, k: nat, rand: Stream, from: nat)
    requires IsUnitStream(rand)
    ensures |Centroids(samples, k, rand, from)| == k
    ensures |samples| > 0 ==> forall i :: 0 <= i < k ==>
      Centroids(samples, k, rand, from)[i].Some? && Centroids(samples, k, rand, from)[i].value in samples
    ensures |samples| == 0 ==> forall i :: 0 <= i < k ==> Centroids(samples, k, rand, from)[i].None?
  {
    var cs := Centroids(samples, k, rand, from);
    forall i | 0 <= i < k
      ensures |samples| > 0 ==> cs[i].Some? && cs[i].value in samples
      ensures |samples| == 0 ==> cs[i].None?
    {
      assert 0.0 <= rand(from + i) < 1.0;
      assert cs[i] == Centroid(samples, rand(from + i));
    }
  }

  // ----- nearest centroid -----

  function Square(x: int): nat
  {
    if x < 0 then (-x) * (-x) else x * x
  }

  /** The squared Euclidean distance. The source compares Math.sqrt of it, which orders the
      pixels the same way since the square root is strictly increasing. */
  function Distance(p: Sample, c: Sample): nat
  {
    Square(p.r - c.r) + Square(p.g - c.g) + Square(p.b - c.b)
  }

  lemma DistanceToSelf(p: Sample, c: Sample)
    ensures Distance(p, c) == 0 <==> p == c
  {
    if p != c {
      if p.r != c.r {
        SquarePositive(p.r - c.r);
      } else if p.g != c.g {
        SquarePositive(p.g - c.g);
      } else {
        SquarePositive(p.b - c.b);
      }
    }
  }

  lemma SquarePositive(x: int)
    requires x != 0
    ensures Square(x) > 0
  {
    var y := if x < 0 then -x else x;
    assert y >= 1;
    assert y * y >= y by {
      assert y * y == y * (y - 1) + y;
      assert y * (y - 1) >= 0;
    }
  }

  /** The running (clusterIdx, minDist) of the inner forEach; a minDist of None is Infinity. */
  datatype Best = Best(index: nat, dist: Option<nat>)

  /** dist < minDist, with Infinity above every distance. */
  predicate Closer(d: nat, best: Option<nat>)
  {
    best.None? || d < best.value
  }

  /** (clusterIdx, minDist) after the first n centroids. A centroid is undefined only when
      there are no pixels, so the pass never scans one; it is skipped here. */
  function Scan(p: Sample, cs: seq<Option<Sample>>, n: nat): Best
    requires n <= |cs|
  {
    if n == 0 then Best(0, None)
    else
      var b := Scan(p, cs, n - 1);
      if cs[n - 1].Some? && Closer(Distance(p, cs[n - 1].value), b.dist)
      then Best(n - 1, Some(Distance(p, cs[n - 1].value)))
      else b
  }

  /** The cluster index the pass gives a pixel. */
  function Nearest(p: Sample, cs: seq<Option<Sample>>): nat
  {
    Scan(p, cs, |cs|).index
  }

  /** The reference meaning: i is the lowest index of a centroid at minimal distance. */
  ghost predicate IsNearest(p: Sample, cs: seq<Option<Sample>>, i: nat)
  {
    && i < |cs| && cs[i].Some?
    && (forall j :: 0 <= j < |cs| && cs[j].Some? ==> Distance(p, cs[i].value) <= Distance(p, cs[j].value))
    && (forall j :: 0 <= j < i && cs[j].Some? ==> Distance(p, cs[i].value) < Distance(p, cs[j].value))
  }

  /** At most one index is the lowest nearest one. */
  lemma IsNearestUnique(p: Sample, cs: seq<Option<Sample>>, i: nat, j: nat)
    requires IsNearest(p, cs, i) && IsNearest(p, cs, j)
    ensures i == j
  {
  }

  lemma {:induction false} ScanIsArgmin(p: Sample, cs: seq<Option<Sample>>, n: nat)
    requires n <= |cs|
    ensures var b := Scan(p, cs, n);
      && (b.dist.None? <==> forall j :: 0 <= j < n ==> cs[j].None?)
      && (b.dist.None? ==> b.index == 0)
      && (b.dist.Some? ==> b.index < n && cs[b.index].Some? && b.dist.value == Distance(p, cs[b.index].value))
      && (forall j :: 0 <= j < n && cs[j].Some? ==> b.dist.Some? && b.dist.value <= Distance(p, cs[j].value))
      && (forall j :: 0 <= j < b.index && cs[j].Some? ==> b.dist.value < Distance(p, cs[j].value))
  {
    if n > 0 {
      ScanIsArgmin(p, cs, n - 1);
    }
  }

  /** The pass puts a pixel in the lowest-indexed cluster whose centroid is nearest to it;
      when every centroid is undefined, in cluster 0. */
  lemma NearestIsLowestArgmin(p: Sample, cs: seq<Option<Sample>>)
    ensures (exists j :: 0 <= j < |cs| && cs[j].Some?) ==> IsNearest(p, cs, Nearest(p, cs))
    ensures (forall j :: 0 <= j < |cs| ==> cs[j].None?) ==> Nearest(p, cs) == 0
  {
    ScanIsArgmin(p, cs, |cs|);
  }

  // ----- assignment -----

  /** The clusters after the forEach has pushed the first n pixels; None when the push
      throws, which happens only with no clusters at all (clusters[0] is undefined). */
  function AssignPrefix(samples: seq<Sample>, cs: seq<Option<Sample>>, n: nat): (r: Option<seq<seq<Sample>>>)
    requires n <= |samples|
    ensures r.Some? ==> |r.value| == |cs|
  {
    if n == 0 then Some(seq(|cs|, _ => []))
    else
      match AssignPrefix(samples, cs, n - 1)
      case None => None
      case Some(clusters) =>
        var i := Nearest(samples[n - 1], cs);
        if i < |clusters| then Some(clusters[i := clusters[i] + [samples[n - 1]]]) else None
  }

  /** All pixels of a cluster list, counted with multiplicity. */
  function Members(clusters: seq<seq<Sample>>): multiset<Sample>
  {
    if clusters == [] then multiset{} else Members(clusters[..|clusters| - 1]) + multiset(clusters[|clusters| - 1])
  }

  /** The cluster sizes added up. */
  function TotalSize(clusters: seq<seq<Sample>>): nat
  {
    if clusters == [] then 0 else TotalSize(clusters[..|clusters| - 1]) + |clusters[|clusters| - 1]|
  }

  lemma {:induction false} MembersSize(clusters: seq<seq<Sample>>)
    ensures |Members(clusters)| == TotalSize(clusters)
  {
    if clusters != [] {
      MembersSize(clusters[..|clusters| - 1]);
    }
  }

  lemma {:induction false} MembersPush(clusters: seq<seq<Sample>>, i: nat, x: Sample)
    requires i < |clusters|
    ensures Members(clusters[i := clusters[i] + [x]]) == Members(clusters) + multiset{x}
  {
    var pushed := clusters[i := clusters[i] + [x]];
    var last := |clusters| - 1;
    if i == last {
      assert pushed[..last] == clusters[..last];
    } else {
      assert pushed[..last] == clusters[..last][i := clusters[i] + [x]];
      MembersPush(clusters[..last], i, x);
    }
  }

  lemma MembersEmpty(k: nat)
    ensures Members(seq(k, _ => [])) == multiset{}
  {
    if k > 0 {
      var empty: seq<seq<Sample>> := seq(k, _ => []);
      assert empty[..k - 1] == seq(k - 1, _ => []);
      MembersEmpty(k - 1);
    }
  }

  /** With at least one centroid the pass picks an existing cluster. */
  lemma NearestInRange(p: Sample, cs: seq<Option<Sample>>)
    requires |cs| > 0
    ensures Nearest(p, cs) < |cs|
  {
    ScanIsArgmin(p, cs, |cs|);
  }

  /** Pushing a pixel onto the cluster of its nearest centroid keeps the clusters an exact,
      correctly placed partition of the pixels pushed so far. */
  lemma PushKeepsPartition(clusters: seq<seq<Sample>>, cs: seq<Option<Sample>>, prefix: seq<Sample>, p: Sample)
    requires |clusters| == |cs| && Nearest(p, cs) < |cs|
    requires Members(clusters) == multiset(prefix) && TotalSize(clusters) == |prefix|
    requires forall j, x :: 0 <= j < |cs| && x in clusters[j] ==> Nearest(x, cs) == j
    ensures var pushed := clusters[Nearest(p, cs) := clusters[Nearest(p, cs)] + [p]];
      && Members(pushed) == multiset(prefix + [p])
      && TotalSize(pushed) == |prefix| + 1
      && forall j, x :: 0 <= j < |cs| && x in pushed[j] ==> Nearest(x, cs) == j
  {
    var i := Nearest(p, cs);
    var pushed := clusters[i := clusters[i] + [p]];
    MembersPush(clusters, i, p);
    assert multiset(prefix + [p]) == multiset(prefix) + multiset{p};
    MembersSize(pushed);
    forall j, x | 0 <= j < |cs| && x in pushed[j]
      ensures Nearest(x, cs) == j
    {
      if j == i && x !in clusters[j] {
        assert x == p;
      }
    }
  }

  /** One pass puts every pixel into exactly one cluster, the one of its nearest centroid:
      the clusters hold exactly the pixels, and their sizes add up to the pixel count. The
      pass throws only when there are pixels but no clusters. */
  lemma {:induction false} Assignment(samples: seq<Sample>, cs: seq<Option<Sample>>, n: nat)
    requires n <= |samples|
    ensures AssignPrefix(samples, cs, n).None? <==> |cs| == 0 && n > 0
    ensures AssignPrefix(samples, cs, n).Some? ==>
      && Members(AssignPrefix(samples, cs, n).value) == multiset(samples[..n])
      && TotalSize(AssignPrefix(samples, cs, n).value) == n
      && forall i, x :: 0 <= i < |cs| && x in AssignPrefix(samples, cs, n).value[i] ==> Nearest(x, cs) == i
  {
    if n == 0 {
      MembersEmpty(|cs|);
      MembersSize(AssignPrefix(samples, cs, 0).value);
    } else {
      Assignment(samples, cs, n - 1);
      if |cs| > 0 {
        var p := samples[n - 1];
        NearestInRange(p, cs);
        var clusters := AssignPrefix(samples, cs, n - 1).value;
        assert samples[..n] == samples[..n - 1] + [p];
        PushKeepsPartition(clusters, cs, samples[..n - 1], p);
      }
    }
  }

  // ----- averaging -----

  function Channel(s: Sample, c: nat): Byte
    requires c < 3
  {
    if c == 0 then s.r else if c == 1 then s.g else s.b
  }

  /** The reduce over a cluster for one channel, left to right from 0. */
  function ChannelSum(cluster: seq<Sample>, c: nat): (total: nat)
    requires c < 3
    ensures total <= 255 * |cluster|
  {
    if cluster == [] then 0 else ChannelSum(cluster[..|cluster| - 1], c) + Channel(cluster[|cluster| - 1], c)
  }

  /** avg / count / 255 with count = cluster.length || 1. */
  function ChannelMean(cluster: seq<Sample>, c: nat): real
    requires c < 3
  {
    var count := if |cluster| == 0 then 1 else |cluster|;
    ChannelSum(cluster, c) as real / count as real / 255.0
  }

  /** The THREE.Color of one cluster. */
  function Mean(cluster: seq<Sample>): Color
  {
    Color(ChannelMean(cluster, 0), ChannelMean(cluster, 1), ChannelMean(cluster, 2))
  }

  /** clusters.map(mean). */
  function Means(clusters: seq<seq<Sample>>): (palette: seq<Color>)
    ensures |palette| == |clusters|
  {
    seq(|clusters|, i requires 0 <= i < |clusters| => Mean(clusters[i]))
  }

  lemma RatioBound(a: real, c: real)
    requires c >= 1.0 && 0.0 <= a <= 255.0 * c
    ensures 0.0 <= a / c / 255.0 <= 1.0
  {
    var q := a / c;
    assert q * c == a;
    assert q <= 255.0;
  }

  predicate InUnitRange(col: Color)
  {
    0.0 <= col.r <= 1.0 && 0.0 <= col.g <= 1.0 && 0.0 <= col.b <= 1.0
  }

  /** Every channel of a mean lies in [0, 1], and an empty cluster is black. */
  lemma MeanRange(cluster: seq<Sample>)
    ensures InUnitRange(Mean(cluster))
    ensures cluster == [] ==> Mean(cluster) == Black
  {
    var count := if |cluster| == 0 then 1 else |cluster|;
    forall c | 0 <= c < 3
      ensures 0.0 <= ChannelMean(cluster, c) <= 1.0
    {
      RatioBound(ChannelSum(cluster, c) as real, count as real);
    }
    assert 0 <= 0 < 3 && 0 <= 1 < 3 && 0 <= 2 < 3;
  }

  /** A cluster of one colour averages to that colour. */
  lemma {:induction false} UniformChannelSum(cluster: seq<Sample>, s: Sample, c: nat)
    requires c < 3 && forall j :: 0 <= j < |cluster| ==> cluster[j] == s
    ensures ChannelSum(cluster, c) == |cluster| * Channel(s, c)
  {
    if cluster != [] {
      UniformChannelSum(cluster[..|cluster| - 1], s, c);
    }
  }

  lemma Cancel(n: nat, v: nat)
    requires n > 0
    ensures (n * v) as real / n as real == v as real
  {
    assert (n * v) as real == n as real * v as real;
  }

  /** A cluster of pixels that all have one colour averages to that colour. */
  lemma UniformMean(cluster: seq<Sample>, s: Sample)
    requires |cluster| > 0 && forall j :: 0 <= j < |cluster| ==> cluster[j] == s
    ensures Mean(cluster) == Color(s.r as real / 255.0, s.g as real / 255.0, s.b as real / 255.0)
  {
    forall c | 0 <= c < 3
      ensures ChannelMean(cluster, c) == Channel(s, c) as real / 255.0
    {
      UniformChannelSum(cluster, s, c);
      Cancel(|cluster|, Channel(s, c));
    }
    assert 0 <= 0 < 3 && 0 <= 1 < 3 && 0 <= 2 < 3;
  }

  // ----- extractAdvancedColors -----

  /** extractAdvancedColors(image, k) on the image's RGBA bytes; None when it throws. */
  function Extract(data: seq<Byte>, k: nat, rand: Stream, from: nat): Option<seq<Color>>
    requires |data| % 4 == 0 && IsUnitStream(rand)
  {
    var samples := Samples(data);
    match AssignPrefix(samples, Centroids(samples, k, rand, from), |samples|)
    case None => None
    case Some(clusters) => Some(Means(clusters))
  }

  /** The palette has exactly k colours, each in [0, 1], the mean of the pixels nearest to
      its centroid; it is all black when the image has no pixels; extraction throws only
      for k = 0 on a non-empty image. */
  lemma ExtractPalette(data: seq<Byte>, k: nat, rand: Stream, from: nat)
    requires |data| % 4 == 0 && IsUnitStream(rand)
    ensures Extract(data, k, rand, from).None? <==> k == 0 && |data| > 0
    ensures Extract(data, k, rand, from).Some? ==>
      && |Extract(data, k, rand, from).value| == k
      && forall i :: 0 <= i < k ==> InUnitRange(Extract(data, k, rand, from).value[i])
    ensures |data| == 0 ==> Extract(data, k, rand, from) == Some(seq(k, _ => Black))
  {
    var samples := Samples(data);
    var cs := Centroids(samples, k, rand, from);
    Assignment(samples, cs, |samples|);
    SampleCountBound(|data|, 0);
    match AssignPrefix(samples, cs, |samples|)
    case None =>
    case Some(clusters) =>
      forall i | 0 <= i < k
        ensures InUnitRange(Means(clusters)[i])
      {
        MeanRange(clusters[i]);
      }
      if |data| == 0 {
        assert |samples| == 0 && clusters == seq(k, _ => []);
        forall i | 0 <= i < k
          ensures Means(clusters)[i] == Black
        {
          MeanRange(clusters[i]);
        }
        assert Means(clusters) == seq(k, _ => Black);
      }
  }

  /** The palette colour of cluster i is the mean of exactly the pixels whose nearest
      centroid is i. */
  lemma ExtractMeans(data: seq<Byte>, k: nat, rand: Stream, from: nat, i: nat)
    requires |data| % 4 == 0 && IsUnitStream(rand) && i < k
    ensures var samples := Samples(data);
      var cs := Centroids(samples, k, rand, from);
      Extract(data, k, rand, from).Some? ==>
      exists cluster :: Extract(data, k, rand, from).value[i] == Mean(cluster) &&
        AssignPrefix(samples, cs, |samples|).Some? && AssignPrefix(samples, cs, |samples|).value[i] == cluster &&
        forall x :: x in cluster ==> x in samples && Nearest(x, cs) == i
  {
    var samples := Samples(data);
    var cs := Centroids(samples, k, rand, from);
    Assignment(samples, cs, |samples|);
    CentroidsAreSamples(samples, k, rand, from);
    if Extract(data, k, rand, from).Some? {
      var clusters := AssignPrefix(samples, cs, |samples|).value;
      var cluster := clusters[i];
      assert samples[..|samples|] == samples;
      forall x | x in cluster
        ensures x in samples
      {
        MembersContain(clusters, i, x);
      }
      assert Extract(data, k, rand, from).value[i] == Mean(cluster);
    }
  }

  lemma {:induction false} MembersContain(clusters: seq<seq<Sample>>, i: nat, x: Sample)
    requires i < |clusters| && x in clusters[i]
    ensures x in Members(clusters)
  {
    if i < |clusters| - 1 {
      MembersContain(clusters[..|clusters| - 1], i, x);
    }
  }

  /** The stride loop of extractAdvancedColors. */
  method SamplePixels(data: seq<Byte>) returns (pixels: seq<Sample>)
    requires |data| % 4 == 0
    ensures pixels == Samples(data)
  {
    pixels := [];
    var i := 0;
    while i < |data|
      invariant i == SampleStride * |pixels| && |pixels| <= SampleCount(|data|)
      invariant pixels == Samples(data)[..|pixels|]
    {
      SampleCountBound(|data|, |pixels|);
      SampleInBounds(|data|, |pixels|);
      pixels := pixels + [Sample(data[i], data[i + 1], data[i + 2])];
      i := i + SampleStride;
    }
    SampleCountBound(|data|, |pixels|);
  }

  /** The centroid loop: one random draw per centroid. */
  method ChooseCentroids(pixels: seq<Sample>, k: nat, rand: Stream, from: nat) returns (centroids: seq<Option<Sample>>)
    requires IsUnitStream(rand)
    ensures centroids == Centroids(pixels, k, rand, from)
  {
    centroids := [];
    var i := 0;
    while i < k
      invariant 0 <= i <= k && |centroids| == i
      invariant forall j :: 0 <= j < i ==> centroids[j] == Centroid(pixels, rand(from + j))
    {
      var u := rand(from + i);
      if |pixels| == 0 {
        centroids := centroids + [None];
      } else {
        centroids := centroids + [Some(pixels[PickIndex(u, |pixels|)])];
      }
      i := i + 1;
    }
  }

  /** The inner forEach with its running minDist and clusterIdx. */
  method NearestCentroid(pixel: Sample, centroids: seq<Option<Sample>>) returns (clusterIdx: nat)
    ensures clusterIdx == Nearest(pixel, centroids)
  {
    var minDist: Option<nat> := None;
    clusterIdx := 0;
    var j := 0;
    while j < |centroids|
      invariant 0 <= j <= |centroids|
      invariant Best(clusterIdx, minDist) == Scan(pixel, centroids, j)
    {
      if centroids[j].Some? {
        var dist := Distance(pixel, centroids[j].value);
        if Closer(dist, minDist) {
          minDist := Some(dist);
          clusterIdx := j;
        }
      }
      j := j + 1;
    }
  }

  /** The outer forEach: each pixel pushed onto its cluster; None when the push throws. */
  method AssignPixels(pixels: seq<Sample>, centroids: seq<Option<Sample>>) returns (clusters: Option<seq<seq<Sample>>>)
    ensures clusters == AssignPrefix(pixels, centroids, |pixels|)
  {
    var current: seq<seq<Sample>> := seq(|centroids|, _ => []);
    var n := 0;
    while n < |pixels|
      invariant 0 <= n <= |pixels|
      invariant AssignPrefix(pixels, centroids, n) == Some(current)
    {
      var clusterIdx := NearestCentroid(pixels[n], centroids);
      if clusterIdx >= |current| {
        assert AssignPrefix(pixels, centroids, n + 1).None?;
        Assignment(pixels, centroids, n + 1);
        Assignment(pixels, centroids, |pixels|);
        return None;
      }
      assert AssignPrefix(pixels, centroids, n + 1) == Some(current[clusterIdx := current[clusterIdx] + [pixels[n]]]);
      current := current[clusterIdx := current[clusterIdx] + [pixels[n]]];
      n := n + 1;
    }
    clusters := Some(current);
  }

  /** extractAdvancedColors: the stride loop, the centroid loop, the assignment pass, then
      the averaging map; it reads k random draws. */
  method ExtractAdvancedColors(data: seq<Byte>, k: nat, rand: Stream, from: nat)
    returns (palette: Option<seq<Color>>, next: nat)
    requires |data| % 4 == 0 && IsUnitStream(rand)
    ensures palette == Extract(data, k, rand, from)
    ensures next == from + k
  {
    var pixels := SamplePixels(data);
    var centroids := ChooseCentroids(pixels, k, rand, from);
    next := from + k;
    var clusters := AssignPixels(pixels, centroids);
    if clusters.None? {
      return None, next;
    }
    palette := Some(Means(clusters.value));
  }

  // ----- the apply and remove buttons -----

  /** A decoded image as getImageData sees it once it is drawn on a canvas of its own size:
      width, height and the RGBA bytes, four per pixel. */
  datatype Bitmap = Bitmap(width: nat, height: nat, data: seq<Byte>)

  /** The chosen file: its MIME type, and the image it decodes to, or None when it does not
      decode (the image's onload never fires). */
  datatype ImageFile = ImageFile(mimeType: string, decoded: Option<Bitmap>)

  /** getImageData(0, 0, w, h) throws an IndexSizeError when w or h is zero. */
  predicate Readable(b: Bitmap)
  {
    b.width > 0 && b.height > 0
  }

  /** The byte count getImageData returns for a w by h canvas. */
  predicate WellSized(b: Bitmap)
  {
    |b.data| == 4 * (b.width * b.height)
  }

  /** file.type.startsWith("image/"). */
  predicate IsImageType(mimeType: string)
  {
    |mimeType| >= 6 && mimeType[..6] == "image/"
  }

  /** The gate accepts exactly the types that begin with "image/". */
  lemma ImageTypeGate(mimeType: string)
    ensures IsImageType(mimeType) ==> mimeType == "image/" + mimeType[6..]
    ensures IsImageType("image/" + mimeType)
    ensures |mimeType| < 6 ==> !IsImageType(mimeType)
  {
    assert ("image/" + mimeType)[..6] == "image/";
  }

  /** The apply button: without a garment, without a file, or with a file that is not an
      image nothing changes; otherwise the file is read, and the image's onload callback
      runs once it decodes. */
  method ApplyTextureClicked(garments: Garments, layers: Compositor, text: TextState, texture: TextureState,
                             logo: LogoState, file: Option<ImageFile>, kind: string, rand: Stream, from: nat)
    returns (next: nat, failed: bool)
    requires layers.Valid() && garments.Valid() && IsUnitStream(rand)
    requires file.Some? && file.value.decoded.Some? ==> WellSized(file.value.decoded.value)
    modifies layers, garments, texture
    ensures layers.Valid() && garments.Valid()
    ensures !ModelLoaded(old(garments.Snapshot())) || file.None? || !IsImageType(file.value.mimeType)
            || file.value.decoded.None? ==>
      && layers.Snapshot() == old(layers.Snapshot()) && garments.Snapshot() == old(garments.Snapshot())
      && texture.Value() == old(texture.Value()) && next == from && !failed
    ensures ModelLoaded(old(garments.Snapshot())) && file.Some? && IsImageType(file.value.mimeType)
            && file.value.decoded.Some? && !Readable(file.value.decoded.value) ==>
      && layers.Snapshot() == old(layers.Snapshot()) && garments.Snapshot() == old(garments.Snapshot())
      && texture.Value() == old(texture.Value()) && next == from && failed
    ensures ModelLoaded(old(garments.Snapshot())) && file.Some? && IsImageType(file.value.mimeType)
            && file.value.decoded.Some? && Readable(file.value.decoded.value) ==>
      var palette := Extract(file.value.decoded.value.data, PaletteSize, rand, from);
      && palette.Some?
      && texture.Value() == TextureRecord(kind, palette.value)
      && Applied(layers.Snapshot(), garments.Snapshot(), next, failed)
         == Apply(old(layers.Snapshot()), old(garments.Snapshot()), text.Value(), texture.Value(), logo.Value(),
                  rand, from + PaletteSize)
  {
    if garments.currentModelName.None? || garments.currentModelName.value !in garments.models {
      return from, false;
    }
    if file.None? || !IsImageType(file.value.mimeType) {
      return from, false;
    }
    if file.value.decoded.None? {
      return from, false;
    }
    next, failed := ApplyImage(garments, layers, text, texture, logo, file.value.decoded.value, kind, rand, from);
  }

  /** The image's onload callback: extract the palette of five, setTexture, applyToTShirt.
      A zero-sized image throws at getImageData, before anything is stored. */
  method ApplyImage(garments: Garments, layers: Compositor, text: TextState, texture: TextureState,
                    logo: LogoState, image: Bitmap, kind: string, rand: Stream, from: nat)
    returns (next: nat, failed: bool)
    requires layers.Valid() && garments.Valid() && IsUnitStream(rand) && WellSized(image)
    modifies layers, garments, texture
    ensures layers.Valid() && garments.Valid()
    ensures !Readable(image) ==>
      && layers.Snapshot() == old(layers.Snapshot()) && garments.Snapshot() == old(garments.Snapshot())
      && texture.Value() == old(texture.Value()) && next == from && failed
    ensures Readable(image) ==>
      var palette := Extract(image.data, PaletteSize, rand, from);
      && palette.Some?
      && texture.Value() == TextureRecord(kind, palette.value)
      && Applied(layers.Snapshot(), garments.Snapshot(), next, failed)
         == Apply(old(layers.Snapshot()), old(garments.Snapshot()), text.Value(), texture.Value(), logo.Value(),
                  rand, from + PaletteSize)
  {
    if !Readable(image) {
      return from, true;
    }
    RgbaBytes(image);
    next, failed := ApplyPalette(garments, layers, text, texture, logo, image.data, kind, rand, from);
  }

  /** The rest of the callback, once getImageData has returned the bytes: the palette of
      five is extracted, stored with the kind, and applied. */
  method ApplyPalette(garments: Garments, layers: Compositor, text: TextState, texture: TextureState,
                      logo: LogoState, data: seq<Byte>, kind: string, rand: Stream, from: nat)
    returns (next: nat, failed: bool)
    requires layers.Valid() && garments.Valid() && IsUnitStream(rand) && |data| % 4 == 0
    modifies layers, garments, texture
    ensures layers.Valid() && garments.Valid()
    ensures var palette := Extract(data, PaletteSize, rand, from);
      && palette.Some?
      && texture.Value() == TextureRecord(kind, palette.value)
      && Applied(layers.Snapshot(), garments.Snapshot(), next, failed)
         == Apply(old(layers.Snapshot()), old(garments.Snapshot()), text.Value(), texture.Value(), logo.Value(),
                  rand, from + PaletteSize)
  {
    var palette;
    palette, next := ExtractAdvancedColors(data, PaletteSize, rand, from);
    ExtractPalette(data, PaletteSize, rand, from);
    texture.SetTexture(kind, palette.value);
    next, failed := layers.ApplyToTShirt(garments, text, texture, logo, rand, next);
  }

  /** A readable image yields at least one pixel, and whole pixels only. */
  lemma RgbaBytes(image: Bitmap)
    requires WellSized(image) && Readable(image)
    ensures |image.data| > 0 && |image.data| % 4 == 0
  {
    var n := image.width * image.height;
    assert n >= image.height by {
      assert n == (image.width - 1) * image.height + image.height;
    }
  }

  /** The remove button: with a garment loaded, the texture record is cleared and applied. */
  method RemoveTextureClicked(garments: Garments, layers: Compositor, text: TextState, texture: TextureState,
                              logo: LogoState, rand: Stream, from: nat)
    returns (next: nat, failed: bool)
    requires layers.Valid() && garments.Valid() && IsUnitStream(rand)
    modifies layers, garments, texture
    ensures layers.Valid() && garments.Valid()
    ensures !ModelLoaded(old(garments.Snapshot())) ==>
      && layers.Snapshot() == old(layers.Snapshot()) && garments.Snapshot() == old(garments.Snapshot())
      && texture.Value() == old(texture.Value()) && next == from && !failed
    ensures ModelLoaded(old(garments.Snapshot())) ==>
      && texture.Value() == InitialTexture
      && Applied(layers.Snapshot(), garments.Snapshot(), next, failed)
         == Apply(old(layers.Snapshot()), old(garments.Snapshot()), text.Value(), InitialTexture, logo.Value(), rand, from)
  {
    if garments.currentModelName.None? || garments.currentModelName.value !in garments.models {
      return from, false;
    }
    texture.ClearTexture();
    next, failed := layers.ApplyToTShirt(garments, text, texture, logo, rand, from);
  }

  /** Removing the texture leaves the garment without a pattern: the texture layer the
      composite is built from is blank. */
  lemma RemovedTextureIsBlank(layers: Layers, reg: Registry, text: TextRecord, logo: LogoRecord, rand: Stream, from: nat)
    requires IsUnitStream(rand) && ModelLoaded(reg) && layers.fabric.Some?
    ensures var a := Apply(layers, reg, text, InitialTexture, logo, rand, from);
      !a.failed && a.next == from && a.layers.texture == Some(Layer([]))
  {
  }
}
