/** The linear generator card: the loop that turns its `start` and `steps`
    inputs into a series of `sampleSize` numbers, the rule that series obeys,
    and the card's registration in the store. */
module LinearGeneratorCard {
  import opened Values
  import Store

  /** The values of the card's two input fields before the user edits them. */
  const DefaultStart: Val := Scalar(Num(0))
  const DefaultSteps: Val := Scalar(Num(1))

  /** The rule the card's output obeys: `n` values, the first taken from
      `start` at index 0, each later one the previous plus `steps` at its
      own index. */
  predicate FollowsRule(out: seq<Num>, start: Val, steps: Val, n: nat)
  {
    |out| == n &&
    (n > 0 ==> out[0] == At(start, 0)) &&
    (forall i :: 1 <= i < n ==> out[i] == Add(out[i - 1], At(steps, i)))
  }

  /** The loop of the card's input handler. */
  method LinearValues(start: Val, steps: Val, sampleSize: nat) returns (randomValues: seq<Num>)
    ensures FollowsRule(randomValues, start, steps, sampleSize)
  {
    randomValues := [];
    for i := 0 to sampleSize
      invariant |randomValues| == i
      invariant i > 0 ==> randomValues[0] == At(start, 0)
      invariant forall k :: 1 <= k < i ==> randomValues[k] == Add(randomValues[k - 1], At(steps, k))
    {
      var startTemp := At(start, i);
      var stepsTemp := At(steps, i);
      if i == 0 {
        randomValues := randomValues + [startTemp];
        continue;
      }
      var linearValue := Add(randomValues[i - 1], stepsTemp);
      randomValues := randomValues + [linearValue];
    }
  }

  /** The rule fixes the output: two series that follow it for the same
      inputs are equal. */
  lemma {:induction false} RuleDetermines(a: seq<Num>, b: seq<Num>, start: Val, steps: Val, n: nat)
    requires FollowsRule(a, start, steps, n) && FollowsRule(b, start, steps, n)
    ensures a == b
  {
    for k := 0 to n
      invariant forall j :: 0 <= j < k ==> a[j] == b[j]
    {
      if k > 0 {
        assert a[k - 1] == b[k - 1];
      }
    }
  }

  /** With scalar inputs the series is arithmetic: the i-th value is
      `start + i * steps`. */
  lemma ScalarSeries(out: seq<Num>, s: int, d: int, n: nat)
    requires FollowsRule(out, Scalar(Num(s)), Scalar(Num(d)), n)
    ensures forall i :: 0 <= i < n ==> out[i] == Num(s + i * d)
  {
    for k := 0 to n
      invariant forall j :: 0 <= j < k ==> out[j] == Num(s + j * d)
    {
      if k > 0 {
        assert out[k - 1] == Num(s + (k - 1) * d);
        assert s + (k - 1) * d + d == s + k * d;
      }
    }
  }

  /** The default inputs give 0, 1, 2, ...; five samples give [0, 1, 2, 3, 4]. */
  lemma DefaultSeries(out: seq<Num>, n: nat)
    requires FollowsRule(out, DefaultStart, DefaultSteps, n)
    ensures forall i :: 0 <= i < n ==> out[i] == Num(i)
    ensures n == 5 ==> out == [Num(0), Num(1), Num(2), Num(3), Num(4)]
  {
    ScalarSeries(out, 0, 1, n);
  }

  /** An array `start` contributes only its first element:
      [10, 20, 30] with steps 1 and three samples gives [10, 11, 12]. */
  lemma StartTailIgnored(out: seq<Num>, start: Val, start': Val, steps: Val, n: nat)
    requires FollowsRule(out, start, steps, n)
    requires At(start, 0) == At(start', 0)
    ensures FollowsRule(out, start', steps, n)
    ensures start == Arr([Num(10), Num(20), Num(30)]) && steps == Scalar(Num(1)) && n == 3 ==>
      out == [Num(10), Num(11), Num(12)]
  {
    if start == Arr([Num(10), Num(20), Num(30)]) && steps == Scalar(Num(1)) && n == 3 {
      assert out[0] == Num(10);
      assert out[1] == Add(out[0], Num(1));
      assert out[2] == Add(out[1], Num(1));
    }
  }

  /** The first element of an array `steps` is never read. */
  lemma FirstStepIgnored(out: seq<Num>, start: Val, s: seq<Num>, x: Num, n: nat)
    requires FollowsRule(out, start, Arr(s), n)
    requires |s| > 0
    ensures FollowsRule(out, start, Arr([x] + s[1..]), n)
  {
    forall i | 1 <= i < n ensures At(Arr([x] + s[1..]), i) == At(Arr(s), i) {
    }
  }

  /** An empty `start` array puts `undefined` first, and every later value is NaN. */
  lemma EmptyStartPoisons(out: seq<Num>, steps: Val, n: nat)
    requires FollowsRule(out, Arr([]), steps, n)
    ensures forall i :: 0 <= i < n ==> out[i] == NaN
  {
    for k := 0 to n
      invariant forall j :: 0 <= j < k ==> out[j] == NaN
    {
      if k > 0 {
        assert out[k - 1] == NaN;
      }
    }
  }

  /** A `steps` array shorter than the sample makes every value from its
      length on NaN. */
  lemma ShortStepsPoison(out: seq<Num>, start: Val, s: seq<Num>, n: nat)
    requires FollowsRule(out, start, Arr(s), n)
    requires 0 < |s| < n
    ensures forall i :: |s| <= i < n ==> out[i] == NaN
  {
    for k := |s| to n
      invariant forall j :: |s| <= j < k ==> out[j] == NaN
    {
      assert out[k] == Add(out[k - 1], At(Arr(s), k));
    }
  }

  /** The card's mount effect: it registers itself in the store as a
      one-element entry carrying the default inputs. */
  method Register(store: Store.DGStore, uuid: string)
    modifies store
    ensures store.generators == old(store.generators) + [[Store.LinearConfig(uuid, 0, 1)]]
    ensures store.chart == old(store.chart) && store.sample == old(store.sample)
    ensures store.sampleSize == old(store.sampleSize)
  {
    store.SetNewGenerator([Store.LinearConfig(uuid, DefaultStart.n.value, DefaultSteps.n.value)]);
  }
}
