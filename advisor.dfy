/**
 * The improvement advisor: for a crop and a row of seven measurements, one
 * suggestion per measurement that lies outside the crop's optimal band, in
 * the order of the `features` list.
 *
 * `Advise` and `Suggest` are the specification; `SuggestImprovements` is the
 * loop that appends to a list, proved equal to it; the lemmas state what the
 * specification promises about the suggestions.
 */
module Advisor {

  import opened Wrappers
  import opened CropTables

  /** Which way a measurement has to move. */
  datatype Direction = Increase | Decrease

  /** Why the advisor produces no list. */
  datatype AdvisorError =
    | UnknownCrop(crop: string)                             // the crop is not a key of `optimal_ranges`
    | NoInputRow                                            // `input_data` has no row 0
    | MissingFeatureRange(crop: string, feature: Feature)   // the crop's entry lacks a measurement

  /** The text of one suggestion: "<Direction> <column name>: <action text>". */
  function Message(d: Direction, f: Feature): (m: string)
    ensures |m| > 11 && m[9] == Name(f)[0] && m[10] == Name(f)[1]
    ensures m[0] == if d == Increase then 'I' else 'D'
  {
    match d
    case Increase => "Increase " + Name(f) + ": " + ImprovementActions(f).increase
    case Decrease => "Decrease " + Name(f) + ": " + ImprovementActions(f).decrease
  }

  /** The word a suggestion opens with. */
  function Verb(d: Direction): (w: string)
    ensures |w| == 9
  {
    if d == Increase then "Increase " else "Decrease "
  }

  /** The action text a suggestion ends with. */
  function Action(d: Direction, f: Feature): string
  {
    if d == Increase then ImprovementActions(f).increase else ImprovementActions(f).decrease
  }

  /**
   * A suggestion spells out its direction, the full column name of its
   * measurement, ": " and the action text for that direction, in that order.
   */
  lemma MessageSpells(d: Direction, f: Feature)
    ensures var m, k := Message(d, f), 9 + |Name(f)|;
      |m| == k + 2 + |Action(d, f)| &&
      m[..9] == Verb(d) && m[9..k] == Name(f) && m[k..k + 2] == ": " && m[k + 2..] == Action(d, f)
  {
    match d
    case Increase => Layout("Increase ", Name(f), ": ", ImprovementActions(f).increase);
    case Decrease => Layout("Decrease ", Name(f), ": ", ImprovementActions(f).decrease);
  }

  lemma Layout(a: string, b: string, c: string, e: string)
    ensures var m, i, j, k := a + b + c + e, |a|, |a| + |b|, |a| + |b| + |c|;
      m[..i] == a && m[i..j] == b && m[j..k] == c && m[k..] == e
  {
    var m := a + b + c + e;
    assert m == a + (b + (c + e));
    assert m[|a|..] == b + (c + e);
    assert m[|a| + |b|..] == c + e;
  }

  /** A suggestion text names exactly one direction and one measurement. */
  lemma MessageInjective(d1: Direction, f1: Feature, d2: Direction, f2: Feature)
    requires Message(d1, f1) == Message(d2, f2)
    ensures d1 == d2 && f1 == f2
  {
    if f1 != f2 {
      NameInjective(f1, f2);
    }
  }

  /** Whether v lies outside the inclusive band r. */
  predicate OutOfBand(v: real, r: Range): (b: bool)
    ensures b <==> !(r.lo <= v <= r.hi)
  {
    v < r.lo || v > r.hi
  }

  /** The direction of an out-of-band value: below the band wins, as the `if` is tested before the `elif`. */
  function DirectionOf(v: real, r: Range): (d: Direction)
    ensures d == Increase <==> v < r.lo
    ensures OutOfBand(v, r) && d == Decrease ==> v > r.hi
  {
    if v < r.lo then Increase else Decrease
  }

  /** What one measurement contributes: one suggestion when it is out of band, none otherwise. */
  function Verdict(f: Feature, v: real, r: Range): (s: seq<string>)
    ensures |s| <= 1
    ensures s == [] <==> !OutOfBand(v, r)
    ensures s != [] ==> s[0] == Message(DirectionOf(v, r), f)
  {
    if v < r.lo then [Message(Increase, f)]
    else if v > r.hi then [Message(Decrease, f)]
    else []
  }

  /**
   * The suggestions for the first n measurements of `row` against the bands
   * of `crop`, each measurement paired with the entry of the `features` list
   * at the same position. Fails on the first measurement the bands lack.
   */
  function Advise(crop: string, ranges: CropRanges, row: seq<real>, n: nat): (r: Result<seq<string>, AdvisorError>)
    requires n <= |Features| && n <= |row|
    ensures r.Success? <==> forall i :: 0 <= i < n ==> Features[i] in ranges
    ensures r.Success? ==> |r.value| <= n
    decreases n
  {
    if n == 0 then Success([])
    else
      match Advise(crop, ranges, row, n - 1)
      case Failure(e) => Failure(e)
      case Success(prev) =>
        var f := Features[n - 1];
        if f !in ranges then Failure(MissingFeatureRange(crop, f))
        else Success(prev + Verdict(f, row[n - 1], ranges[f]))
  }

  /** How many measurements the loop visits: `zip` stops at the shorter of its two lists. */
  function Visited(row: seq<real>): (n: nat)
    ensures n <= |Features| && n <= |row|
    ensures n == |Features| || n == |row|
  {
    if |row| < |Features| then |row| else |Features|
  }

  /**
   * `suggest_improvements` as a function: look the crop up, take row 0 of the
   * input, and advise on the measurements that `zip` pairs with a name.
   */
  function Suggest(inputData: seq<seq<real>>, crop: string): (r: Result<seq<string>, AdvisorError>)
    ensures OptimalRanges(crop).None? <==> r == Failure(UnknownCrop(crop))
    ensures OptimalRanges(crop).Some? && inputData == [] ==> r == Failure(NoInputRow)
    ensures r.Success? ==> |r.value| <= |Features| && |r.value| <= |inputData[0]|
  {
    match OptimalRanges(crop)
    case None => Failure(UnknownCrop(crop))
    case Some(cropOptimal) =>
      if |inputData| == 0 then Failure(NoInputRow)
      else Advise(crop, cropOptimal, inputData[0], Visited(inputData[0]))
  }

  /** `suggest_improvements`: look the crop up, take row 0 of the input, and run the loop. */
  method SuggestImprovements(inputData: seq<seq<real>>, cropName: string) returns (r: Result<seq<string>, AdvisorError>)
    ensures r == Suggest(inputData, cropName)
  {
    var lookup := OptimalRanges(cropName);
    if lookup.None? {
      return Failure(UnknownCrop(cropName));
    }
    var cropOptimal := lookup.value;
    if |inputData| == 0 {
      return Failure(NoInputRow);
    }
    r := SuggestionLoop(cropName, cropOptimal, inputData[0]);
  }

  /**
   * The loop of `suggest_improvements` over `zip(features, row)`, appending to
   * a list as it goes; a measurement the bands lack stops it with an error.
   */
  method SuggestionLoop(cropName: string, cropOptimal: CropRanges, row: seq<real>) returns (r: Result<seq<string>, AdvisorError>)
    ensures r == Advise(cropName, cropOptimal, row, Visited(row))
  {
    var suggestions: seq<string> := [];
    var i := 0;
    while i < Visited(row)
      invariant 0 <= i <= Visited(row)
      invariant Advise(cropName, cropOptimal, row, i) == Success(suggestions)
    {
      var feature, value := Features[i], row[i];
      if feature !in cropOptimal {
        AdviseStopsAtFirstGap(cropName, cropOptimal, row, Visited(row), i);
        return Failure(MissingFeatureRange(cropName, feature));
      }
      var optimalRange := cropOptimal[feature];
      ghost var verdict := AdviseAppend(cropName, cropOptimal, row, i + 1);
      if value < optimalRange.lo {
        var action := ImprovementActions(feature).increase;
        var text := "Increase " + Name(feature) + ": " + action;
        assert verdict == [text] by { assert text == Message(Increase, feature); }
        suggestions := suggestions + [text];
      } else if value > optimalRange.hi {
        var action := ImprovementActions(feature).decrease;
        var text := "Decrease " + Name(feature) + ": " + action;
        assert verdict == [text] by { assert text == Message(Decrease, feature); }
        suggestions := suggestions + [text];
      } else {
        assert suggestions + verdict == suggestions;
      }
      i := i + 1;
    }
    return Success(suggestions);
  }

  /**
   * When the bands lack a measurement, the whole call fails, naming the first
   * such measurement in the order of the `features` list.
   */
  lemma {:induction false} AdviseStopsAtFirstGap(crop: string, ranges: CropRanges, row: seq<real>, n: nat, i: nat)
    requires n <= |Features| && n <= |row|
    requires i < n && Features[i] !in ranges
    requires forall j :: 0 <= j < i ==> Features[j] in ranges
    ensures Advise(crop, ranges, row, n) == Failure(MissingFeatureRange(crop, Features[i]))
    decreases n
  {
    if n - 1 > i {
      AdviseStopsAtFirstGap(crop, ranges, row, n - 1, i);
    }
  }

  /** A visited measurement that has a band appends its own contribution to the list so far. */
  lemma AdviseAppend(crop: string, ranges: CropRanges, row: seq<real>, n: nat) returns (v: seq<string>)
    requires 0 < n <= |Features| && n <= |row|
    requires Features[n - 1] in ranges && Advise(crop, ranges, row, n - 1).Success?
    ensures v == Verdict(Features[n - 1], row[n - 1], ranges[Features[n - 1]])
    ensures Advise(crop, ranges, row, n) == Success(Advise(crop, ranges, row, n - 1).value + v)
  {
    v := Verdict(Features[n - 1], row[n - 1], ranges[Features[n - 1]]);
  }

  /**
   * The list only grows: what the loop holds after m measurements is a prefix
   * of what it holds after any later n, and a call that gets through n
   * measurements got through every earlier m.
   */
  lemma {:induction false} AdvisePrefix(crop: string, ranges: CropRanges, row: seq<real>, m: nat, n: nat)
    requires m <= n <= |Features| && n <= |row|
    requires Advise(crop, ranges, row, n).Success?
    ensures Advise(crop, ranges, row, m).Success?
    ensures Advise(crop, ranges, row, m).value <= Advise(crop, ranges, row, n).value
    decreases n - m
  {
    if m < n {
      AdvisePrefix(crop, ranges, row, m, n - 1);
      var _ := AdviseAppend(crop, ranges, row, n);
    }
  }

  /** Suggestion m is what the measurement at position i of the row contributes. */
  predicate Produces(ranges: CropRanges, row: seq<real>, i: nat, m: string)
    requires i < |Features| && i < |row| && Features[i] in ranges
  {
    OutOfBand(row[i], ranges[Features[i]]) &&
    m == Message(DirectionOf(row[i], ranges[Features[i]]), Features[i])
  }

  /** A suggestion names the measurement that produced it. */
  lemma ProducerIsNamed(ranges: CropRanges, row: seq<real>, i: nat, m: string, d: Direction, f: Feature)
    requires i < |Features| && i < |row| && Features[i] in ranges
    requires Produces(ranges, row, i, m) && m == Message(d, f)
    ensures Rank(f) == i && d == DirectionOf(row[i], ranges[f])
  {
    MessageInjective(d, f, DirectionOf(row[i], ranges[Features[i]]), Features[i]);
    FeaturesListEachOnce(i, i);
  }

  /**
   * The positions among the first n of the row whose measurement lies outside
   * its band, in increasing order, each once.
   */
  function OutOfBandPositions(ranges: CropRanges, row: seq<real>, n: nat): (p: seq<nat>)
    requires n <= |Features| && n <= |row|
    requires forall i :: 0 <= i < n ==> Features[i] in ranges
    ensures forall j :: 0 <= j < |p| ==> p[j] < n && OutOfBand(row[p[j]], ranges[Features[p[j]]])
    ensures forall j, k :: 0 <= j < k < |p| ==> p[j] < p[k]
    ensures forall i :: 0 <= i < n && OutOfBand(row[i], ranges[Features[i]]) ==> i in p
    decreases n
  {
    if n == 0 then []
    else
      var prev := OutOfBandPositions(ranges, row, n - 1);
      if OutOfBand(row[n - 1], ranges[Features[n - 1]]) then prev + [n - 1] else prev
  }

  /**
   * The suggestions are exactly the out-of-band measurements, in the order of
   * the `features` list: suggestion j is the text, for its direction, of the
   * j-th out-of-band position. In particular a measurement produces at most
   * one suggestion.
   */
  lemma {:induction false} AdviseSelectsOutOfBand(crop: string, ranges: CropRanges, row: seq<real>, n: nat, s: seq<string>)
    requires n <= |Features| && n <= |row|
    requires Advise(crop, ranges, row, n) == Success(s)
    ensures var p := OutOfBandPositions(ranges, row, n);
      |s| == |p| && forall j :: 0 <= j < |s| ==> Produces(ranges, row, p[j], s[j])
    decreases n
  {
    if n > 0 {
      var before := Advise(crop, ranges, row, n - 1).value;
      AdviseSelectsOutOfBand(crop, ranges, row, n - 1, before);
      var last := AdviseAppend(crop, ranges, row, n);
      assert s == before + last;
    }
  }

  /**
   * For a measurement the loop visits: an Increase suggestion for it appears
   * exactly when its value is below the band, a Decrease suggestion exactly
   * when it is not below the band and above it, and neither when the value
   * lies in the band, both ends included.
   */
  lemma AdviseClassifies(crop: string, ranges: CropRanges, row: seq<real>, n: nat, i: nat)
    requires n <= |Features| && n <= |row|
    requires Advise(crop, ranges, row, n).Success?
    requires i < n
    ensures Features[i] in ranges
    ensures var s, v, r := Advise(crop, ranges, row, n).value, row[i], ranges[Features[i]];
      (Message(Increase, Features[i]) in s <==> v < r.lo) &&
      (Message(Decrease, Features[i]) in s <==> r.lo <= v && v > r.hi) &&
      (r.lo <= v <= r.hi ==> forall d :: Message(d, Features[i]) !in s)
  {
    var s := Advise(crop, ranges, row, n).value;
    AdviseSelectsOutOfBand(crop, ranges, row, n, s);
    var idx := OutOfBandPositions(ranges, row, n);
    forall d | Message(d, Features[i]) in s
      ensures OutOfBand(row[i], ranges[Features[i]]) && d == DirectionOf(row[i], ranges[Features[i]])
    {
      var j :| 0 <= j < |s| && s[j] == Message(d, Features[i]);
      ProducerIsNamed(ranges, row, idx[j], s[j], d, Features[i]);
      FeaturesListEachOnce(i, idx[j]);
    }
    if OutOfBand(row[i], ranges[Features[i]]) {
      var j :| 0 <= j < |idx| && idx[j] == i;
      assert s[j] == Message(DirectionOf(row[i], ranges[Features[i]]), Features[i]);
    }
  }

  /**
   * For a full row, the list is the concatenation of what each measurement
   * contributes, in the order of the `features` list.
   */
  lemma {:induction false} AdviseFullRow(crop: string, ranges: CropRanges, row: seq<real>)
    requires |row| >= |Features|
    requires forall f :: f in ranges
    ensures Advise(crop, ranges, row, |Features|) == Success(
      Verdict(Nitrogen, row[0], ranges[Nitrogen]) + Verdict(Phosphorus, row[1], ranges[Phosphorus]) +
      Verdict(Potassium, row[2], ranges[Potassium]) + Verdict(Temperature, row[3], ranges[Temperature]) +
      Verdict(Humidity, row[4], ranges[Humidity]) + Verdict(PhValue, row[5], ranges[PhValue]) +
      Verdict(Rainfall, row[6], ranges[Rainfall]))
  {
    assert Advise(crop, ranges, row, |Features|).Success?;
    var v0 := AdviseAppend(crop, ranges, row, 1);
    var v1 := AdviseAppend(crop, ranges, row, 2);
    var v2 := AdviseAppend(crop, ranges, row, 3);
    var v3 := AdviseAppend(crop, ranges, row, 4);
    var v4 := AdviseAppend(crop, ranges, row, 5);
    var v5 := AdviseAppend(crop, ranges, row, 6);
    var v6 := AdviseAppend(crop, ranges, row, 7);
    assert [] + v0 == v0;
  }

  /**
   * For a crop the table lists and an input with a row 0, the advisor
   * produces a list: every lookup of a measurement succeeds.
   */
  lemma SuggestSucceedsForListedCrop(inputData: seq<seq<real>>, crop: string)
    requires OptimalRanges(crop).Some? && inputData != []
    ensures Suggest(inputData, crop).Success?
  {
    OptimalRangesComplete(crop);
  }

  /**
   * Per measurement, against the table: below the band gives the Increase
   * text, above it the Decrease text, never both, and a value in the band
   * (both ends included) gives no text for that measurement.
   */
  lemma SuggestClassifies(inputData: seq<seq<real>>, crop: string, i: nat)
    requires OptimalRanges(crop).Some? && inputData != []
    requires i < |Features| && i < |inputData[0]|
    ensures Suggest(inputData, crop).Success?
    ensures var s, v, r := Suggest(inputData, crop).value, inputData[0][i], OptimalRanges(crop).value[Features[i]];
      (Message(Increase, Features[i]) in s <==> v < r.lo) &&
      (Message(Decrease, Features[i]) in s <==> v > r.hi) &&
      !(Message(Increase, Features[i]) in s && Message(Decrease, Features[i]) in s) &&
      ((forall d :: Message(d, Features[i]) !in s) <==> r.lo <= v <= r.hi)
  {
    SuggestSucceedsForListedCrop(inputData, crop);
    OptimalRangesComplete(crop);
    var row := inputData[0];
    AdviseClassifies(crop, OptimalRanges(crop).value, row, Visited(row), i);
  }

  /**
   * Every suggestion is the text of one measurement, and the suggestions
   * follow the order of the `features` list.
   */
  lemma AdviseInFeatureOrder(crop: string, ranges: CropRanges, row: seq<real>, n: nat, s: seq<string>)
    requires n <= |Features| && n <= |row|
    requires Advise(crop, ranges, row, n) == Success(s)
    ensures forall j :: 0 <= j < |s| ==> exists d, f :: s[j] == Message(d, f)
    ensures forall j, k, d1, f1, d2, f2 ::
      0 <= j < k < |s| && s[j] == Message(d1, f1) && s[k] == Message(d2, f2) ==> Rank(f1) < Rank(f2)
  {
    AdviseSelectsOutOfBand(crop, ranges, row, n, s);
    var idx := OutOfBandPositions(ranges, row, n);
    forall j | 0 <= j < |s|
      ensures exists d, f :: s[j] == Message(d, f)
    {
      assert s[j] == Message(DirectionOf(row[idx[j]], ranges[Features[idx[j]]]), Features[idx[j]]);
    }
    forall j, k, d1, f1, d2, f2 |
      0 <= j < k < |s| && s[j] == Message(d1, f1) && s[k] == Message(d2, f2)
      ensures Rank(f1) < Rank(f2)
    {
      ProducerIsNamed(ranges, row, idx[j], s[j], d1, f1);
      ProducerIsNamed(ranges, row, idx[k], s[k], d2, f2);
    }
  }

  /**
   * Every entry of the list is the text of one measurement, and the entries
   * follow the order Nitrogen, Phosphorus, Potassium, Temperature, Humidity,
   * pH_Value, Rainfall.
   */
  lemma SuggestInFeatureOrder(inputData: seq<seq<real>>, crop: string)
    requires Suggest(inputData, crop).Success?
    ensures var s := Suggest(inputData, crop).value;
      (forall j :: 0 <= j < |s| ==> exists d, f :: s[j] == Message(d, f)) &&
      (forall j, k, d1, f1, d2, f2 ::
         0 <= j < k < |s| && s[j] == Message(d1, f1) && s[k] == Message(d2, f2) ==> Rank(f1) < Rank(f2))
  {
    var row := inputData[0];
    AdviseInFeatureOrder(crop, OptimalRanges(crop).value, row, Visited(row), Suggest(inputData, crop).value);
  }

  /** Advising on n measurements yields nothing exactly when each of them lies in its band. */
  lemma AdviseEmptyIffAllInBand(crop: string, ranges: CropRanges, row: seq<real>, n: nat)
    requires n <= |Features| && n <= |row|
    requires Advise(crop, ranges, row, n).Success?
    ensures forall i :: 0 <= i < n ==> Features[i] in ranges
    ensures Advise(crop, ranges, row, n).value == [] <==>
      forall i :: 0 <= i < n ==> ranges[Features[i]].lo <= row[i] <= ranges[Features[i]].hi
  {
    AdviseSelectsOutOfBand(crop, ranges, row, n, Advise(crop, ranges, row, n).value);
    var idx := OutOfBandPositions(ranges, row, n);
    if idx != [] {
      assert OutOfBand(row[idx[0]], ranges[Features[idx[0]]]);
    }
  }

  /** The list is empty exactly when every visited measurement lies in its band. */
  lemma SuggestEmptyIffAllInBand(inputData: seq<seq<real>>, crop: string)
    requires OptimalRanges(crop).Some? && inputData != []
    ensures Suggest(inputData, crop).Success?
    ensures Suggest(inputData, crop).value == [] <==>
      forall i :: 0 <= i < Visited(inputData[0]) ==>
        OptimalRanges(crop).value[Features[i]].lo <= inputData[0][i] <= OptimalRanges(crop).value[Features[i]].hi
  {
    SuggestSucceedsForListedCrop(inputData, crop);
    AdviseEmptyIffAllInBand(crop, OptimalRanges(crop).value, inputData[0], Visited(inputData[0]));
  }

  /**
   * Every entry of the list comes from a measurement the loop visits: entry j
   * is the text, for the direction its value calls for, of some measurement
   * among the first min(7, length of row 0), and that value lies outside its band.
   */
  lemma SuggestOnlyVisited(inputData: seq<seq<real>>, crop: string, j: nat)
    requires Suggest(inputData, crop).Success?
    requires j < |Suggest(inputData, crop).value|
    ensures var row, bands := inputData[0], OptimalRanges(crop).value;
      exists i :: 0 <= i < Visited(row) && Features[i] in bands && OutOfBand(row[i], bands[Features[i]]) &&
        Suggest(inputData, crop).value[j] == Message(DirectionOf(row[i], bands[Features[i]]), Features[i])
  {
    var row, bands := inputData[0], OptimalRanges(crop).value;
    AdviseSelectsOutOfBand(crop, bands, row, Visited(row), Suggest(inputData, crop).value);
    var i := OutOfBandPositions(bands, row, Visited(row))[j];
    assert Produces(bands, row, i, Suggest(inputData, crop).value[j]);
  }
}
