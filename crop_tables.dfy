/**
 * The constant data the improvement advisor works from: the seven
 * measurements in their fixed order, the optimal band of every measurement
 * for every crop, and the two action texts of every measurement.
 */
module CropTables {

  import opened Wrappers

  /** One constructor per measurement, in the order of the `features` list. */
  datatype Feature = Nitrogen | Phosphorus | Potassium | Temperature | Humidity | PhValue | Rainfall

  /** The `features` list: the order in which measurements are read and visited. */
  const Features: seq<Feature> := [Nitrogen, Phosphorus, Potassium, Temperature, Humidity, PhValue, Rainfall]

  /** The column name of a measurement, as it appears in every suggestion. */
  function Name(f: Feature): (s: string)
    ensures |s| >= 8
  {
    match f
    case Nitrogen => "Nitrogen"
    case Phosphorus => "Phosphorus"
    case Potassium => "Potassium"
    case Temperature => "Temperature"
    case Humidity => "Humidity"
    case PhValue => "pH_Value"
    case Rainfall => "Rainfall"
  }

  /** Where a measurement stands in the `features` list. */
  function Rank(f: Feature): (i: nat)
    ensures i < |Features| && Features[i] == f
  {
    match f
    case Nitrogen => 0
    case Phosphorus => 1
    case Potassium => 2
    case Temperature => 3
    case Humidity => 4
    case PhValue => 5
    case Rainfall => 6
  }

  /** The `features` list names each measurement exactly once. */
  lemma FeaturesListEachOnce(i: nat, j: nat)
    requires i < |Features| && j < |Features|
    ensures Features[i] == Features[j] <==> i == j
    ensures Rank(Features[i]) == i
  {
  }

  /** Different measurements have different column names; their first two characters already differ. */
  lemma NameInjective(f: Feature, g: Feature)
    requires f != g
    ensures Name(f)[0] != Name(g)[0] || Name(f)[1] != Name(g)[1]
  {
    match f
    case Nitrogen =>
    case Phosphorus =>
    case Potassium =>
    case Temperature =>
    case Humidity =>
    case PhValue =>
    case Rainfall =>
  }

  /** An inclusive band: a value v is optimal when lo <= v <= hi. */
  datatype Range = Range(lo: real, hi: real)

  /** The bands of one crop, keyed by measurement (one entry of `optimal_ranges`). */
  type CropRanges = map<Feature, Range>

  /** A crop entry that lists all seven measurements, in the order of the `features` list. */
  function Bands(n: Range, p: Range, k: Range, t: Range, h: Range, ph: Range, rain: Range): (m: CropRanges)
    ensures forall f :: f in m
    ensures m[Nitrogen] == n && m[Phosphorus] == p && m[Potassium] == k && m[Temperature] == t
    ensures m[Humidity] == h && m[PhValue] == ph && m[Rainfall] == rain
    ensures CompleteBands(m) <==>
      n.lo <= n.hi && p.lo <= p.hi && k.lo <= k.hi && t.lo <= t.hi &&
      h.lo <= h.hi && ph.lo <= ph.hi && rain.lo <= rain.hi
  {
    var m := map[Nitrogen := n, Phosphorus := p, Potassium := k, Temperature := t,
                 Humidity := h, PhValue := ph, Rainfall := rain];
    assert forall f :: f in m && (m[f] == n || m[f] == p || m[f] == k || m[f] == t ||
                                  m[f] == h || m[f] == ph || m[f] == rain) by {
      forall f
        ensures f in m
        ensures m[f] == n || m[f] == p || m[f] == k || m[f] == t || m[f] == h || m[f] == ph || m[f] == rain
      {
        if f == Nitrogen {
        } else if f == Phosphorus {
        } else if f == Potassium {
        } else if f == Temperature {
        } else if f == Humidity {
        } else if f == PhValue {
        } else {
        }
      }
    }
    m
  }

  /** How many crops the `optimal_ranges` table lists. */
  const TableSize: nat := 22

  /** The crop named by entry i of the `optimal_ranges` table, in the order the entries are written. */
  function CropName(i: nat): string
    requires i < TableSize
  {
    match i
    case 0 => "Rice"
    case 1 => "Maize"
    case 2 => "Chickpea"
    case 3 => "Kidney Beans"
    case 4 => "PigeonPeas"
    case 5 => "MothBeans"
    case 6 => "Mung Bean"
    case 7 => "Blackgram"
    case 8 => "Lentil"
    case 9 => "Pomegranate"
    case 10 => "Banana"
    case 11 => "Mango"
    case 12 => "Grapes"
    case 13 => "Watermelon"
    case 14 => "Muskmelon"
    case 15 => "Apple"
    case 16 => "Orange"
    case 17 => "Papaya"
    case 18 => "Coconut"
    case 19 => "Cotton"
    case 20 => "Jute"
    case _ => "Coffee"
  }

  /** The bands of entry i of the `optimal_ranges` table; every entry is complete. */
  function CropBands(i: nat): (m: CropRanges)
    requires i < TableSize
    ensures CompleteBands(m)
  {
    match i
    case 0 => Bands(Range(70.0, 90.0), Range(40.0, 60.0), Range(40.0, 60.0), Range(20.0, 27.0),
                    Range(80.0, 85.0), Range(6.0, 7.0), Range(150.0, 300.0))
    case 1 => Bands(Range(60.0, 80.0), Range(35.0, 60.0), Range(30.0, 40.0), Range(18.0, 27.0),
                    Range(60.0, 80.0), Range(5.5, 7.5), Range(50.0, 100.0))
    case 2 => Bands(Range(20.0, 40.0), Range(15.0, 25.0), Range(20.0, 25.0), Range(21.0, 26.0),
                    Range(50.0, 60.0), Range(6.0, 7.0), Range(50.0, 90.0))
    case 3 => Bands(Range(30.0, 50.0), Range(30.0, 45.0), Range(35.0, 45.0), Range(18.0, 24.0),
                    Range(60.0, 70.0), Range(6.0, 7.0), Range(50.0, 100.0))
    case 4 => Bands(Range(20.0, 40.0), Range(15.0, 30.0), Range(20.0, 30.0), Range(18.0, 26.0),
                    Range(50.0, 60.0), Range(5.5, 7.5), Range(60.0, 100.0))
    case 5 => Bands(Range(10.0, 30.0), Range(15.0, 20.0), Range(15.0, 25.0), Range(25.0, 35.0),
                    Range(50.0, 60.0), Range(7.0, 8.0), Range(25.0, 60.0))
    case 6 => Bands(Range(20.0, 40.0), Range(20.0, 30.0), Range(20.0, 30.0), Range(24.0, 27.0),
                    Range(50.0, 60.0), Range(6.0, 7.5), Range(60.0, 100.0))
    case 7 => Bands(Range(20.0, 40.0), Range(20.0, 30.0), Range(20.0, 30.0), Range(25.0, 30.0),
                    Range(50.0, 60.0), Range(6.0, 7.0), Range(60.0, 100.0))
    case 8 => Bands(Range(20.0, 40.0), Range(15.0, 25.0), Range(15.0, 25.0), Range(18.0, 25.0),
                    Range(50.0, 60.0), Range(6.0, 7.0), Range(50.0, 100.0))
    case 9 => Bands(Range(40.0, 60.0), Range(30.0, 40.0), Range(40.0, 50.0), Range(25.0, 35.0),
                    Range(40.0, 60.0), Range(5.5, 7.2), Range(500.0, 750.0))
    case 10 => Bands(Range(100.0, 200.0), Range(30.0, 40.0), Range(250.0, 400.0), Range(26.0, 30.0),
                     Range(75.0, 85.0), Range(6.0, 7.0), Range(1500.0, 2000.0))
    case 11 => Bands(Range(30.0, 60.0), Range(25.0, 50.0), Range(30.0, 50.0), Range(24.0, 27.0),
                     Range(60.0, 70.0), Range(5.5, 7.5), Range(750.0, 2500.0))
    case 12 => Bands(Range(40.0, 60.0), Range(30.0, 50.0), Range(50.0, 100.0), Range(20.0, 30.0),
                     Range(60.0, 70.0), Range(6.0, 7.5), Range(500.0, 700.0))
    case 13 => Bands(Range(20.0, 40.0), Range(20.0, 30.0), Range(30.0, 50.0), Range(22.0, 30.0),
                     Range(60.0, 70.0), Range(6.0, 7.0), Range(400.0, 600.0))
    case 14 => Bands(Range(20.0, 40.0), Range(20.0, 30.0), Range(30.0, 50.0), Range(25.0, 30.0),
                     Range(60.0, 70.0), Range(6.0, 7.0), Range(400.0, 600.0))
    case 15 => Bands(Range(50.0, 80.0), Range(30.0, 40.0), Range(30.0, 50.0), Range(18.0, 24.0),
                     Range(50.0, 60.0), Range(6.0, 7.0), Range(1000.0, 1250.0))
    case 16 => Bands(Range(50.0, 70.0), Range(30.0, 50.0), Range(60.0, 80.0), Range(15.0, 30.0),
                     Range(50.0, 70.0), Range(5.5, 7.5), Range(1000.0, 1500.0))
    case 17 => Bands(Range(100.0, 200.0), Range(30.0, 40.0), Range(250.0, 400.0), Range(22.0, 26.0),
                     Range(70.0, 85.0), Range(6.0, 7.0), Range(1200.0, 1500.0))
    case 18 => Bands(Range(50.0, 100.0), Range(40.0, 60.0), Range(120.0, 250.0), Range(27.0, 32.0),
                     Range(70.0, 80.0), Range(5.2, 8.0), Range(1500.0, 2500.0))
    case 19 => Bands(Range(30.0, 70.0), Range(20.0, 30.0), Range(40.0, 50.0), Range(21.0, 27.0),
                     Range(60.0, 70.0), Range(5.0, 6.5), Range(700.0, 1000.0))
    case 20 => Bands(Range(40.0, 80.0), Range(20.0, 50.0), Range(20.0, 40.0), Range(24.0, 37.0),
                     Range(70.0, 90.0), Range(6.5, 7.5), Range(1500.0, 2500.0))
    case _ => Bands(Range(80.0, 120.0), Range(20.0, 30.0), Range(40.0, 80.0), Range(15.0, 24.0),
                    Range(70.0, 80.0), Range(4.5, 6.5), Range(1200.0, 2500.0))
  }

  /** The bands of the first entry from position i on that is named `crop`, or None. */
  function LookupFrom(crop: string, i: nat): (r: Option<CropRanges>)
    requires i <= TableSize
    ensures r.None? <==> forall j :: i <= j < TableSize ==> CropName(j) != crop
    ensures r.Some? ==> exists j :: i <= j < TableSize && CropName(j) == crop && CropBands(j) == r.value
    decreases TableSize - i
  {
    if i == TableSize then None
    else if CropName(i) == crop then Some(CropBands(i))
    else LookupFrom(crop, i + 1)
  }

  /**
   * `optimal_ranges[crop]`: the bands the table lists for `crop`, or None
   * for a name it does not list.
   */
  function OptimalRanges(crop: string): (r: Option<CropRanges>)
    ensures r.None? <==> forall j :: 0 <= j < TableSize ==> CropName(j) != crop
    ensures r.Some? ==> exists j :: 0 <= j < TableSize && CropName(j) == crop && CropBands(j) == r.value
  {
    LookupFrom(crop, 0)
  }

  /**
   * No two entries of the table share a name, so looking a listed crop up
   * yields the bands written for it.
   */
  lemma CropNamesDistinct(i: nat, j: nat)
    requires i < TableSize && j < TableSize && i != j
    ensures CropName(i) != CropName(j)
  {
  }

  /** Looking up the name of entry i yields exactly the bands of entry i. */
  lemma OptimalRangesOfEntry(i: nat)
    requires i < TableSize
    ensures OptimalRanges(CropName(i)) == Some(CropBands(i))
  {
    var j :| 0 <= j < TableSize && CropName(j) == CropName(i) && CropBands(j) == OptimalRanges(CropName(i)).value;
    if j != i {
      CropNamesDistinct(i, j);
    }
  }

  /** A crop entry fit for the advisor: every measurement has a band, and no band is empty. */
  predicate CompleteBands(m: CropRanges)
  {
    forall f :: f in m && m[f].lo <= m[f].hi
  }

  /**
   * Every crop of the table lists all seven measurements with lo <= hi, so
   * looking up a measurement of a listed crop never fails.
   */
  lemma OptimalRangesComplete(crop: string)
    ensures OptimalRanges(crop).Some? ==> CompleteBands(OptimalRanges(crop).value)
  {
  }

  /** The two texts of one entry of `improvement_actions`. */
  datatype Actions = Actions(increase: string, decrease: string)

  /** The `improvement_actions` table; every measurement has both texts. */
  function ImprovementActions(f: Feature): (a: Actions)
    ensures a.increase != [] && a.decrease != []
  {
    match f
    case Nitrogen =>
      Actions("Apply Urea, Ammonium Nitrate, or Manure",
              "Avoid excess nitrogen fertilizers")
    case Phosphorus =>
      Actions("Add Rock Phosphate, Bone Meal, or Superphosphate",
              "Reduce phosphorus fertilizer application")
    case Potassium =>
      Actions("Use Potash, Potassium Sulfate, or Compost",
              "Reduce potassium-based fertilizers")
    case Temperature =>
      Actions("Consider greenhouses or mulching for warmth",
              "Use shade nets or increase irrigation to cool the soil")
    case Humidity =>
      Actions("Increase irrigation or use misting systems",
              "Improve drainage or reduce irrigation")
    case PhValue =>
      Actions("Add Lime or Dolomite to raise pH",
              "Use Sulfur, Aluminum Sulfate, or organic materials like compost to lower pH")
    case Rainfall =>
      Actions("Introduce irrigation systems",
              "Improve drainage or use rainwater harvesting methods")
  }
}
