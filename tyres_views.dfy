/** The catalogue listing helpers of tyres/views.py: the annotations
    annotate_tyres puts on each tyre model shown (its radius range such as
    "R15-R17, R19", its lowest price, its season label) and the brand list of
    the filter panel. */
module TyreViews {
  import opened Wrappers
  import opened Text
  import opened Sorting
  import opened TyreModels

  // ---------------------------------------------------------------------
  // Orders used for sorted(set(...))

  predicate IntLess(a: int, b: int) {
    a < b
  }

  lemma IntLessIsStrictOrder()
    ensures StrictOrder(IntLess)
  {
  }

  lemma StrLessIsStrictOrder()
    ensures StrictOrder(StrLess)
  {
    forall a | true
      ensures !StrLess(a, a)
    {
      StrLessIrreflexive(a);
    }
    forall a, b, c | StrLess(a, b) && StrLess(b, c)
      ensures StrLess(a, c)
    {
      StrLessTransitive(a, b, c);
    }
    forall a, b | a != b
      ensures StrLess(a, b) || StrLess(b, a)
    {
      StrLessTotal(a, b);
    }
  }

  predicate Ascending(s: seq<int>) {
    forall i, j :: 0 <= i < j < |s| ==> s[i] < s[j]
  }

  // ---------------------------------------------------------------------
  // Radius ranges

  /** The values that are not None, in their original order. */
  function Present(xs: seq<Option<int>>): (r: seq<int>)
    ensures forall x :: x in r <==> Some(x) in xs
  {
    if xs == [] then []
    else
      var rest := Present(xs[1..]);
      assert forall o :: o in xs <==> o == xs[0] || o in xs[1..];
      if xs[0].Some? then [xs[0].value] + rest else rest
  }

  /** sorted(set(radius for each variant if radius is not None)). */
  function SortedRadii(radii: seq<Option<int>>): (r: seq<int>)
    ensures Ascending(r)
    ensures forall x :: x in r <==> Some(x) in radii
  {
    IntLessIsStrictOrder();
    var r := SortDistinct(Present(radii), IntLess);
    assert forall x :: x in r <==> x in Elems(r);
    assert forall x :: x in Present(radii) <==> x in Elems(Present(radii));
    r
  }

  /** A run of consecutive radii lo, lo + 1, ..., hi. */
  datatype Run = Run(lo: int, hi: int)

  /** The runs of an ascending list, grouped as the loop of annotate_tyres
      groups them: the open run is start..prev and rest is still to be read. */
  function RunsFrom(start: int, prev: int, rest: seq<int>): seq<Run>
    decreases |rest|
  {
    if rest == [] then [Run(start, prev)]
    else if rest[0] == prev + 1 then RunsFrom(start, rest[0], rest[1..])
    else [Run(start, prev)] + RunsFrom(rest[0], rest[0], rest[1..])
  }

  function Runs(s: seq<int>): seq<Run> {
    if s == [] then [] else RunsFrom(s[0], s[0], s[1..])
  }

  predicate InRun(run: Run, x: int) {
    run.lo <= x <= run.hi
  }

  predicate Covers(runs: seq<Run>, x: int) {
    exists k :: 0 <= k < |runs| && InRun(runs[k], x)
  }

  /** Every run is non-empty, and any two runs are apart by a gap of at least
      one missing radius, earlier runs first. */
  predicate Separated(runs: seq<Run>) {
    && (forall k :: 0 <= k < |runs| ==> runs[k].lo <= runs[k].hi)
    && (forall i, j :: 0 <= i < j < |runs| ==> runs[i].hi + 1 < runs[j].lo)
  }

  /** Closing the open run in front of the runs of the rest keeps the runs
      apart, as long as the rest starts more than one above it. */
  lemma ConsRun(run: Run, r': seq<Run>)
    requires run.lo <= run.hi && Separated(r') && |r'| >= 1 && run.hi + 1 < r'[0].lo
    ensures Separated([run] + r')
    ensures forall x :: Covers([run] + r', x) <==> InRun(run, x) || Covers(r', x)
  {
    var r := [run] + r';
    forall j | 0 <= j < |r'|
      ensures run.hi + 1 < r'[j].lo
    {
      assert j == 0 || r'[0].hi + 1 < r'[j].lo;
    }
    forall i, j | 0 <= i < j < |r|
      ensures r[i].hi + 1 < r[j].lo
    {
      assert r[j] == r'[j - 1];
      if i > 0 {
        assert r[i] == r'[i - 1];
      }
    }
    forall x
      ensures Covers(r, x) <==> InRun(run, x) || Covers(r', x)
    {
      if Covers(r, x) {
        var k :| 0 <= k < |r| && InRun(r[k], x);
        if k > 0 {
          assert InRun(r'[k - 1], x);
        }
      }
      if Covers(r', x) {
        var k :| 0 <= k < |r'| && InRun(r'[k], x);
        assert InRun(r[k + 1], x);
      }
      if InRun(run, x) {
        assert InRun(r[0], x);
      }
    }
  }

  lemma {:induction false} RunsFromShape(start: int, prev: int, rest: seq<int>)
    requires start <= prev && Ascending(rest)
    requires forall i :: 0 <= i < |rest| ==> prev < rest[i]
    ensures var r := RunsFrom(start, prev, rest);
            && |r| >= 1 && r[0].lo == start
            && Separated(r)
            && forall x :: Covers(r, x) <==> (start <= x <= prev || x in rest)
    decreases |rest|
  {
    var r := RunsFrom(start, prev, rest);
    if rest == [] {
      assert InRun(r[0], start);
      forall x | Covers(r, x)
        ensures start <= x <= prev
      {
        var k :| 0 <= k < |r| && InRun(r[k], x);
      }
    } else {
      var tail := rest[1..];
      assert Ascending(tail);
      assert forall x :: x in rest <==> x == rest[0] || x in tail by {
        assert rest == [rest[0]] + tail;
      }
      if rest[0] == prev + 1 {
        RunsFromShape(start, rest[0], tail);
      } else {
        RunsFromShape(rest[0], rest[0], tail);
        ConsRun(Run(start, prev), RunsFrom(rest[0], rest[0], tail));
      }
    }
  }

  /** The runs of an ascending list of radii: they are apart from each other,
      they cover exactly the radii, each radius lies in exactly one run, and
      each run is maximal (the radius just below and just above it are absent). */
  lemma RunsPartition(s: seq<int>)
    requires Ascending(s)
    ensures var r := Runs(s);
            && Separated(r)
            && (forall x :: Covers(r, x) <==> x in s)
            && (forall x, i, j :: 0 <= i < |r| && 0 <= j < |r| && InRun(r[i], x) && InRun(r[j], x) ==> i == j)
            && (forall k :: 0 <= k < |r| ==> r[k].lo - 1 !in s && r[k].hi + 1 !in s)
            && (s == [] <==> r == [])
  {
    var r := Runs(s);
    if s != [] {
      RunsFromShape(s[0], s[0], s[1..]);
      assert forall x :: x in s <==> x == s[0] || x in s[1..] by {
        assert s == [s[0]] + s[1..];
      }
    }
    forall x, i, j | 0 <= i < |r| && 0 <= j < |r| && InRun(r[i], x) && InRun(r[j], x)
      ensures i == j
    {
    }
    forall k | 0 <= k < |r|
      ensures r[k].lo - 1 !in s && r[k].hi + 1 !in s
    {
      forall j | 0 <= j < |r|
        ensures !InRun(r[j], r[k].lo - 1) && !InRun(r[j], r[k].hi + 1)
      {
        if j < k {
          assert r[j].hi + 1 < r[k].lo;
        } else if j > k {
          assert r[k].hi + 1 < r[j].lo;
        }
      }
    }
  }

  /** "R15" for a single radius, "R15-R17" for a longer run. */
  function RunLabel(run: Run): string {
    if run.lo == run.hi then "R" + IntToString(run.lo)
    else "R" + IntToString(run.lo) + "-R" + IntToString(run.hi)
  }

  function Labels(runs: seq<Run>): (r: seq<string>)
    ensures |r| == |runs|
  {
    if runs == [] then [] else [RunLabel(runs[0])] + Labels(runs[1..])
  }

  lemma {:induction false} LabelsAppend(a: seq<Run>, b: seq<Run>)
    ensures Labels(a + b) == Labels(a) + Labels(b)
  {
    if a != [] {
      assert (a + b)[0] == a[0];
      assert (a + b)[1..] == a[1..] + b;
      LabelsAppend(a[1..], b);
      assert Labels(a + b) == [RunLabel(a[0])] + Labels(a[1..] + b);
    } else {
      assert a + b == b;
    }
  }

  /** The radius_range annotation: the runs of the distinct radii joined by
      ", ", or "—" when no variant has a radius. */
  function RadiusRange(radii: seq<Option<int>>): string {
    var s := SortedRadii(radii);
    if s == [] then "—" else Join(Labels(Runs(s)), ", ")
  }

  /** The grouping loop of annotate_tyres over the sorted distinct radii: one
      label per run, in order. */
  method GroupRuns(s: seq<int>) returns (ranges: seq<string>)
    requires s != []
    ensures ranges == Labels(Runs(s))
  {
    ranges := [];
    var start, prev := s[0], s[0];
    ghost var closed: seq<Run> := [];
    var i := 1;
    while i < |s|
      invariant 1 <= i <= |s|
      invariant ranges == Labels(closed)
      invariant closed + RunsFrom(start, prev, s[i..]) == Runs(s)
    {
      var r := s[i];
      if r == prev + 1 {
        RunsFromStep(start, prev, s, i);
        prev := r;
      } else {
        RunsFromStep(start, prev, s, i);
        CloseRun(closed, Run(start, prev), RunsFrom(r, r, s[i + 1..]));
        closed := closed + [Run(start, prev)];
        ranges := ranges + [RunLabel(Run(start, prev))];
        start, prev := r, r;
      }
      i := i + 1;
    }
    assert s[i..] == [];
    CloseRun(closed, Run(start, prev), []);
    ranges := ranges + [RunLabel(Run(start, prev))];
  }

  /** One step of the grouping loop: the next radius either extends the open
      run or closes it and opens a new one. */
  lemma RunsFromStep(start: int, prev: int, s: seq<int>, i: int)
    requires 1 <= i < |s|
    ensures s[i] == prev + 1 ==> RunsFrom(start, prev, s[i..]) == RunsFrom(start, s[i], s[i + 1..])
    ensures s[i] != prev + 1 ==> RunsFrom(start, prev, s[i..]) == [Run(start, prev)] + RunsFrom(s[i], s[i], s[i + 1..])
  {
    assert s[i..][0] == s[i] && s[i..][1..] == s[i + 1..];
  }

  /** Closing a run appends its label to the labels of the runs closed before. */
  lemma CloseRun(closed: seq<Run>, run: Run, rest: seq<Run>)
    ensures closed + ([run] + rest) == (closed + [run]) + rest
    ensures Labels(closed + [run]) == Labels(closed) + [RunLabel(run)]
  {
    LabelsAppend(closed, [run]);
    assert Labels([run]) == [RunLabel(run)];
  }

  /** The radius_range part of annotate_tyres. */
  method AnnotateRadiusRange(radii: seq<Option<int>>) returns (rangeText: string)
    ensures rangeText == RadiusRange(radii)
  {
    var s := SortedRadii(radii);
    if s == [] {
      return "—";
    }
    var ranges := GroupRuns(s);
    rangeText := Join(ranges, ", ");
  }

  // ---------------------------------------------------------------------
  // Lowest price and season

  /** min(price for each variant if price is not None), or None. */
  function MinPrice(prices: seq<Option<int>>): (r: Option<int>)
    ensures r.None? <==> forall i :: 0 <= i < |prices| ==> prices[i].None?
    ensures r.Some? ==> Some(r.value) in prices
    ensures r.Some? ==> forall i :: 0 <= i < |prices| && prices[i].Some? ==> r.value <= prices[i].value
  {
    if prices == [] then None
    else
      var rest := MinPrice(prices[1..]);
      assert forall i :: 1 <= i < |prices| ==> prices[i] == prices[1..][i - 1];
      match prices[0]
      case None => rest
      case Some(p) =>
        if rest.Some? && rest.value < p then rest else Some(p)
  }

  /** The season_display annotation: the first variant's season label, or "—". */
  function SeasonDisplay(variants: seq<TyreVariant>): (r: string)
    ensures variants == [] ==> r == "—"
    ensures variants != [] && variants[0].season in ChoiceValues(SeasonChoices) ==>
              exists i :: 0 <= i < |SeasonChoices| && SeasonChoices[i] == (variants[0].season, r)
  {
    if variants == [] then "—"
    else
      var v := variants[0].season;
      assert v in ChoiceValues(SeasonChoices) ==> exists i :: 0 <= i < |SeasonChoices| && SeasonChoices[i].0 == v;
      SeasonLabel(v)
  }

  function RadiiOf(variants: seq<TyreVariant>): seq<Option<int>> {
    seq(|variants|, i requires 0 <= i < |variants| => Some(variants[i].radius))
  }

  function PricesOf(variants: seq<TyreVariant>): seq<Option<int>> {
    seq(|variants|, i requires 0 <= i < |variants| => Some(variants[i].price))
  }

  datatype Annotation = Annotation(radiusRange: string, minPrice: Option<int>, seasonDisplay: string)

  function Annotations(variants: seq<TyreVariant>): Annotation {
    Annotation(RadiusRange(RadiiOf(variants)), MinPrice(PricesOf(variants)), SeasonDisplay(variants))
  }

  /** A tyre model on a catalogue page, with the attributes annotate_tyres sets. */
  class TyreCard {
    const model: TyreModel
    const variants: seq<TyreVariant>
    var radiusRange: string
    var minPrice: Option<int>
    var seasonDisplay: string

    constructor (model: TyreModel, variants: seq<TyreVariant>)
      ensures this.model == model && this.variants == variants
    {
      this.model := model;
      this.variants := variants;
      radiusRange, minPrice, seasonDisplay := "", None, "";
    }

    predicate Annotated()
      reads this
    {
      Annotation(radiusRange, minPrice, seasonDisplay) == Annotations(variants)
    }

    /** The body of the loop of annotate_tyres, for one card. */
    method Annotate()
      modifies this
      ensures Annotated()
    {
      radiusRange := AnnotateRadiusRange(RadiiOf(variants));
      minPrice := MinPrice(PricesOf(variants));
      seasonDisplay := SeasonDisplay(variants);
    }
  }

  /** annotate_tyres: sets the three annotations on every card of the page. */
  method AnnotateTyres(tyres: seq<TyreCard>)
    modifies set t | t in tyres
    ensures forall t :: t in tyres ==> t.Annotated()
  {
    var i := 0;
    while i < |tyres|
      invariant 0 <= i <= |tyres|
      invariant forall j :: 0 <= j < i ==> tyres[j].Annotated()
    {
      tyres[i].Annotate();
      i := i + 1;
    }
  }

  // ---------------------------------------------------------------------
  // Brand list of the filter panel

  function NormalisedBrands(brands: seq<string>): (r: seq<string>)
    ensures forall y :: y in r <==> exists b :: b in brands && b != "" && y == Capitalize(Strip(b))
  {
    if brands == [] then []
    else
      var rest := NormalisedBrands(brands[1..]);
      assert forall b :: b in brands <==> b == brands[0] || b in brands[1..];
      if brands[0] != "" then [Capitalize(Strip(brands[0]))] + rest else rest
  }

  /** sorted(set(b.strip().capitalize() for b in brands if b)): the distinct
      normalised brands in ascending order. The emptiness test is made before
      stripping, so a brand of only spaces contributes "". */
  function BrandList(brands: seq<string>): (r: seq<string>)
    ensures Increasing(r, StrLess)
    ensures Elems(r) == set b | b in brands && b != "" :: Capitalize(Strip(b))
  {
    StrLessIsStrictOrder();
    var r := SortDistinct(NormalisedBrands(brands), StrLess);
    assert forall y :: y in Elems(r) <==> y in NormalisedBrands(brands);
    r
  }
}
