/**
 * Worked cases of the advisor on the table's own data: a canonical Rice
 * plot, the Nitrogen band of Rice probed below, inside and above, a plot
 * that misses every band, a row shorter than the `features` list, and a crop the table does not list.
 */
module Scenarios {

  import opened Wrappers
  import opened CropTables
  import opened Advisor

  /** The list for a full row against the Rice bands. */
  lemma RiceFullRow(row: seq<real>)
    requires |row| == |Features|
    ensures Suggest([row], "Rice") == Advise("Rice", OptimalRanges("Rice").value, row, |Features|)
    ensures Advise("Rice", OptimalRanges("Rice").value, row, |Features|) == Success(
      Verdict(Nitrogen, row[0], Range(70.0, 90.0)) + Verdict(Phosphorus, row[1], Range(40.0, 60.0)) +
      Verdict(Potassium, row[2], Range(40.0, 60.0)) + Verdict(Temperature, row[3], Range(20.0, 27.0)) +
      Verdict(Humidity, row[4], Range(80.0, 85.0)) + Verdict(PhValue, row[5], Range(6.0, 7.0)) +
      Verdict(Rainfall, row[6], Range(150.0, 300.0)))
  {
    OptimalRangesComplete("Rice");
    AdviseFullRow("Rice", OptimalRanges("Rice").value, row);
  }

  /** A plot resembling canonical Rice conditions needs no change. */
  lemma RiceCanonicalPlot()
    ensures Suggest([[80.0, 50.0, 50.0, 24.0, 82.0, 6.5, 200.0]], "Rice") == Success([])
  {
    RiceFullRow([80.0, 50.0, 50.0, 24.0, 82.0, 6.5, 200.0]);
  }

  /** Rice's Nitrogen band is 70..90: 50 asks for more, 80 for nothing, 100 for less. */
  lemma RiceNitrogenProbe()
    ensures Suggest([[50.0, 50.0, 50.0, 24.0, 82.0, 6.5, 200.0]], "Rice")
         == Success([Message(Increase, Nitrogen)])
    ensures Suggest([[80.0, 50.0, 50.0, 24.0, 82.0, 6.5, 200.0]], "Rice") == Success([])
    ensures Suggest([[100.0, 50.0, 50.0, 24.0, 82.0, 6.5, 200.0]], "Rice")
         == Success([Message(Decrease, Nitrogen)])
  {
    RiceFullRow([50.0, 50.0, 50.0, 24.0, 82.0, 6.5, 200.0]);
    assert [Message(Increase, Nitrogen)] + [] + [] + [] + [] + [] + [] == [Message(Increase, Nitrogen)];
    RiceFullRow([80.0, 50.0, 50.0, 24.0, 82.0, 6.5, 200.0]);
    RiceFullRow([100.0, 50.0, 50.0, 24.0, 82.0, 6.5, 200.0]);
    assert [Message(Decrease, Nitrogen)] + [] + [] + [] + [] + [] + [] == [Message(Decrease, Nitrogen)];
  }

  /** The ends of a band count as inside it. */
  lemma RiceBandEnds()
    ensures Suggest([[70.0, 40.0, 60.0, 20.0, 85.0, 6.0, 300.0]], "Rice") == Success([])
  {
    RiceFullRow([70.0, 40.0, 60.0, 20.0, 85.0, 6.0, 300.0]);
  }

  /** The list for a full row against the Maize bands. */
  lemma MaizeFullRow(row: seq<real>)
    requires |row| == |Features|
    ensures Suggest([row], "Maize") == Advise("Maize", OptimalRanges("Maize").value, row, |Features|)
    ensures Advise("Maize", OptimalRanges("Maize").value, row, |Features|) == Success(
      Verdict(Nitrogen, row[0], Range(60.0, 80.0)) + Verdict(Phosphorus, row[1], Range(35.0, 60.0)) +
      Verdict(Potassium, row[2], Range(30.0, 40.0)) + Verdict(Temperature, row[3], Range(18.0, 27.0)) +
      Verdict(Humidity, row[4], Range(60.0, 80.0)) + Verdict(PhValue, row[5], Range(5.5, 7.5)) +
      Verdict(Rainfall, row[6], Range(50.0, 100.0)))
  {
    OptimalRangesComplete("Maize");
    AdviseFullRow("Maize", OptimalRanges("Maize").value, row);
  }

  /** A plot outside every band gets one suggestion per measurement, in the order of the `features` list. */
  lemma MaizeEveryBandMissed()
    ensures Suggest([[0.0, 100.0, 0.0, 30.0, 0.0, 9.0, 0.0]], "Maize") == Success([
      Message(Increase, Nitrogen), Message(Decrease, Phosphorus), Message(Increase, Potassium),
      Message(Decrease, Temperature), Message(Increase, Humidity), Message(Decrease, PhValue),
      Message(Increase, Rainfall)])
  {
    var row := [0.0, 100.0, 0.0, 30.0, 0.0, 9.0, 0.0];
    MaizeFullRow(row);
    var n0, p1, k2 := Message(Increase, Nitrogen), Message(Decrease, Phosphorus), Message(Increase, Potassium);
    var t3, h4 := Message(Decrease, Temperature), Message(Increase, Humidity);
    var ph5, r6 := Message(Decrease, PhValue), Message(Increase, Rainfall);
    assert Verdict(Nitrogen, row[0], Range(60.0, 80.0)) == [n0];
    assert Verdict(Phosphorus, row[1], Range(35.0, 60.0)) == [p1];
    assert Verdict(Potassium, row[2], Range(30.0, 40.0)) == [k2];
    assert Verdict(Temperature, row[3], Range(18.0, 27.0)) == [t3];
    assert Verdict(Humidity, row[4], Range(60.0, 80.0)) == [h4];
    assert Verdict(PhValue, row[5], Range(5.5, 7.5)) == [ph5];
    assert Verdict(Rainfall, row[6], Range(50.0, 100.0)) == [r6];
    SevenEntries(n0, p1, k2, t3, h4, ph5, r6);
  }

  /** Seven one-entry lists, joined in order. */
  lemma SevenEntries(a: string, b: string, c: string, d: string, e: string, f: string, g: string)
    ensures [a] + [b] + [c] + [d] + [e] + [f] + [g] == [a, b, c, d, e, f, g]
  {
  }

  /** A crop name the table does not list is an error, not an empty list, whatever the input. */
  lemma UnlistedCropFails(inputData: seq<seq<real>>)
    ensures Suggest(inputData, "Wheat") == Failure(UnknownCrop("Wheat"))
    ensures Suggest(inputData, "rice") == Failure(UnknownCrop("rice"))
  {
    forall j | 0 <= j < TableSize
      ensures CropName(j) != "Wheat" && CropName(j) != "rice"
    {
    }
    UnlistedFails(inputData, "Wheat");
    UnlistedFails(inputData, "rice");
  }

  /** A name no entry of the table carries fails the lookup. */
  lemma UnlistedFails(inputData: seq<seq<real>>, crop: string)
    requires forall j :: 0 <= j < TableSize ==> CropName(j) != crop
    ensures Suggest(inputData, crop) == Failure(UnknownCrop(crop))
  {
  }

  /** `zip` stops at the shorter list: a row of two values is judged on Nitrogen and Phosphorus only. */
  lemma ShortRowVisitsAPrefix()
    ensures Suggest([[10.0, 50.0]], "Rice")
         == Success([Message(Increase, Nitrogen)])
  {
    var bands := OptimalRanges("Rice").value;
    OptimalRangesComplete("Rice");
    var v0 := AdviseAppend("Rice", bands, [10.0, 50.0], 1);
    var v1 := AdviseAppend("Rice", bands, [10.0, 50.0], 2);
    assert v0 == [Message(Increase, Nitrogen)] && v1 == [];
    assert [] + v0 + v1 == [Message(Increase, Nitrogen)];
  }
}
