/** The line-plot card: how its `x` and `y` inputs become the two equal-length
    series of the sample. */
module LinePlotCard {
  import opened Values
  import Store

  /** One input of the card as its handler sees it: connected, carrying what
      the upstream card produced (a scalar or an array), or not connected,
      carrying the number typed into the card's own field. */
  datatype PlotInput = Linked(upstream: Val) | Local(own: Num)

  /** The values of the card's two input fields before the user edits them. */
  const DefaultX: PlotInput := Local(Num(0))
  const DefaultY: PlotInput := Local(Num(0))

  /** `Array(n).fill(v)`. */
  function Fill(v: Num, n: nat): (r: seq<Num>)
    ensures |r| == n
    ensures forall i :: 0 <= i < n ==> r[i] == v
  {
    seq(n, _ => v)
  }

  /** The array an input stands for: a connected array is used as it is,
      anything else is repeated `sampleSize` times. */
  function AsArray(input: PlotInput, sampleSize: nat): (r: seq<Num>)
    ensures input.Linked? && input.upstream.Arr? ==> r == input.upstream.s
    ensures input.Linked? && input.upstream.Scalar? ==>
      |r| == sampleSize && forall i :: 0 <= i < sampleSize ==> r[i] == input.upstream.n
    ensures input.Local? ==>
      |r| == sampleSize && forall i :: 0 <= i < sampleSize ==> r[i] == input.own
  {
    match input
    case Linked(Arr(s)) => s
    case Linked(Scalar(v)) => Fill(v, sampleSize)
    case Local(v) => Fill(v, sampleSize)
  }

  /** `Math.min(a, b, c)`. */
  function Min3(a: nat, b: nat, c: nat): (m: nat)
    ensures m <= a && m <= b && m <= c
    ensures m == a || m == b || m == c
  {
    if a <= b && a <= c then a else if b <= c then b else c
  }

  /** The card's input handler: both series cut to the shortest of the two
      arrays and the sample size. */
  function PlotSample(x: PlotInput, y: PlotInput, sampleSize: nat): (r: Sample)
    ensures |r.x| == |r.y|
    ensures |r.x| == Min3(|AsArray(x, sampleSize)|, |AsArray(y, sampleSize)|, sampleSize)
    ensures r.x <= AsArray(x, sampleSize) && r.y <= AsArray(y, sampleSize)
  {
    var xArray := AsArray(x, sampleSize);
    var yArray := AsArray(y, sampleSize);
    var minLength := Min3(|xArray|, |yArray|, sampleSize);
    Sample(xArray[..minLength], yArray[..minLength])
  }

  /** The handler as the card runs it: it reads the store's sample size and
      writes the two series back through the store's `setSample`. */
  method HandleInputChange(store: Store.DGStore, x: PlotInput, y: PlotInput)
    modifies store
    ensures store.sample == PlotSample(x, y, old(store.sampleSize))
    ensures |store.sample.x| == |store.sample.y| <= store.sampleSize
    ensures store.chart == old(store.chart) && store.generators == old(store.generators)
    ensures store.sampleSize == old(store.sampleSize)
  {
    store.SetSample(PlotSample(x, y, store.sampleSize));
  }

  /** Inputs that are not arrays give two constant series of exactly
      `sampleSize` values. */
  lemma ScalarInputsBroadcast(x: PlotInput, y: PlotInput, vx: Num, vy: Num, sampleSize: nat)
    requires x == Local(vx) || x == Linked(Scalar(vx))
    requires y == Local(vy) || y == Linked(Scalar(vy))
    ensures PlotSample(x, y, sampleSize) == Sample(Fill(vx, sampleSize), Fill(vy, sampleSize))
  {
    var r := PlotSample(x, y, sampleSize);
    assert |r.x| == sampleSize;
    assert r.x == AsArray(x, sampleSize);
    assert r.y == AsArray(y, sampleSize);
  }

  /** A connected array is cut to a prefix: with `x` of length 7, `y` of
      length 4 and 50 samples, both series hold 4 values, the first four of
      each array. */
  lemma RaggedArraysTruncate(xs: seq<Num>, ys: seq<Num>, sampleSize: nat)
    requires |ys| <= |xs| && |ys| <= sampleSize
    ensures PlotSample(Linked(Arr(xs)), Linked(Arr(ys)), sampleSize) == Sample(xs[..|ys|], ys)
    ensures |xs| == 7 && |ys| == 4 && sampleSize == 50 ==>
      |PlotSample(Linked(Arr(xs)), Linked(Arr(ys)), sampleSize).x| == 4
  {
    var r := PlotSample(Linked(Arr(xs)), Linked(Arr(ys)), sampleSize);
    assert |r.x| == |ys|;
    assert r.y == ys[..|ys|];
  }

  /** An array longer than the sample size is cut to `sampleSize` values. */
  lemma LongArrayTruncates(xs: seq<Num>, y: PlotInput, sampleSize: nat)
    requires |xs| >= sampleSize
    requires !(y.Linked? && y.upstream.Arr?) || |y.upstream.s| >= sampleSize
    ensures PlotSample(Linked(Arr(xs)), y, sampleSize).x == xs[..sampleSize]
  {
  }

  /** The card's initial inputs plot `sampleSize` points at (0, 0). */
  lemma DefaultPlot(sampleSize: nat)
    ensures PlotSample(DefaultX, DefaultY, sampleSize) == Sample(Fill(Num(0), sampleSize), Fill(Num(0), sampleSize))
  {
    ScalarInputsBroadcast(DefaultX, DefaultY, Num(0), Num(0), sampleSize);
  }
}
