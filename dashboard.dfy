/**
 * Dashboard.py: the two callbacks of the Dash application with the charts,
 * the map and the page layout taken away.
 *
 * `update_dashboard` keeps the rows of the selected province (they feed the
 * three charts) and builds one map marker per province of the whole dataset,
 * red when that province's mean number of infected trees is above 50.
 * `aggiorna_predizione` turns the prediction form into one of three messages:
 * a request to fill the form in, the estimate, or the error.
 */
module Dashboard {
  import opened Wrappers
  import opened Dataset
  import StringOrder
  import OliveModel

  /** The two colours `crea_marker` paints a province with. */
  datatype Color = Red | Green

  datatype Coord = Coord(lat: real, lon: real)

  /** A `dl.CircleMarker` reduced to what the callback decides: where, which
      colour, and for which province and mean (the tooltip's contents). */
  datatype Marker = Marker(provincia: string, center: Coord, color: Color, infettiMedi: real)

  /** Mean number of infected trees above which a province is drawn red. */
  const Soglia: real := 50.0

  /** `provincia_coords`: the six provinces of Apulia the map knows. */
  const ProvinciaCoords: map<string, Coord> := map[
    "Lecce" := Coord(40.3515, 18.1750),
    "Brindisi" := Coord(40.6327, 17.9418),
    "Taranto" := Coord(40.4644, 17.2470),
    "Bari" := Coord(41.1171, 16.8719),
    "BAT" := Coord(41.2279, 16.2956),
    "Foggia" := Coord(41.4622, 15.5446)]

  // ---------------------------------------------------------------------------
  // crea_marker

  /** `crea_marker`: red exactly when the mean is strictly above the threshold. */
  function CreaMarker(provincia: string, coord: Coord, infettiMedi: real): (m: Marker)
    ensures m.provincia == provincia && m.center == coord && m.infettiMedi == infettiMedi
    ensures m.color == Red <==> infettiMedi > Soglia
    ensures m.color == Green <==> infettiMedi <= Soglia
  {
    var color := if infettiMedi > Soglia then Red else Green;
    Marker(provincia, coord, color, infettiMedi)
  }

  /** The colour only moves towards red as the mean grows. */
  lemma ColorMonotone(provincia: string, coord: Coord, lo: real, hi: real)
    requires lo <= hi
    requires CreaMarker(provincia, coord, lo).color == Red
    ensures CreaMarker(provincia, coord, hi).color == Red
  {
  }

  /** The threshold itself is still green; anything above it is red. */
  lemma ThresholdBoundary(provincia: string, coord: Coord)
    ensures CreaMarker(provincia, coord, 50.0).color == Green
    ensures CreaMarker(provincia, coord, 50.01).color == Red
  {
  }

  // ---------------------------------------------------------------------------
  // update_dashboard: the rows of the selected province

  /** `simulated_data[simulated_data['Provincia'] == selected_provincia]`. */
  function FilterByProvince(data: seq<Record>, selected: string): (r: seq<Record>)
    ensures |r| <= |data|
    ensures forall x :: x in r <==> x in data && x.provincia == selected
  {
    if |data| == 0 then []
    else
      var rest := FilterByProvince(data[1..], selected);
      if data[0].provincia == selected then [data[0]] + rest else rest
  }

  /** The filter keeps every row of the selected province, as often as the
      data holds it, and no other row. */
  lemma {:induction false} FilterByProvinceCounts(data: seq<Record>, selected: string)
    ensures forall x :: multiset(FilterByProvince(data, selected))[x] ==
                        if x.provincia == selected then multiset(data)[x] else 0
  {
    if |data| > 0 {
      FilterByProvinceCounts(data[1..], selected);
      assert data == [data[0]] + data[1..];
      assert multiset(data) == multiset{data[0]} + multiset(data[1..]);
    }
  }

  /** The filter keeps the original order: filtering a concatenation is
      concatenating the filtered parts. */
  lemma {:induction false} FilterByProvinceConcat(a: seq<Record>, b: seq<Record>, selected: string)
    ensures FilterByProvince(a + b, selected) == FilterByProvince(a, selected) + FilterByProvince(b, selected)
  {
    if |a| > 0 {
      assert (a + b)[1..] == a[1..] + b;
      FilterByProvinceConcat(a[1..], b, selected);
    } else {
      assert a + b == b;
    }
  }

  // ---------------------------------------------------------------------------
  // update_dashboard: the mean number of infected trees per province

  /** The values of the `Provincia` column. */
  function Provinces(data: seq<Record>): set<string>
  {
    set x | x in data :: x.provincia
  }

  function SumInfected(rows: seq<Record>): int
  {
    if |rows| == 0 then 0 else rows[0].alberiInfetti + SumInfected(rows[1..])
  }

  /** Arithmetic mean of `Alberi_Infetti` over a non-empty group. */
  function MeanInfected(rows: seq<Record>): real
    requires |rows| > 0
  {
    SumInfected(rows) as real / |rows| as real
  }

  /** Every province of the data has at least one row. */
  lemma GroupNonEmpty(data: seq<Record>, p: string)
    requires p in Provinces(data)
    ensures |FilterByProvince(data, p)| > 0
  {
  }

  /** `simulated_data.groupby('Provincia')['Alberi_Infetti'].mean().to_dict()`:
      one entry per province, the mean over every row of that province. */
  function MeanInfectedByProvince(data: seq<Record>): (m: map<string, real>)
    ensures m.Keys == Provinces(data)
  {
    assert forall p :: p in Provinces(data) ==> |FilterByProvince(data, p)| > 0 by {
      forall p | p in Provinces(data) ensures |FilterByProvince(data, p)| > 0 {
        GroupNonEmpty(data, p);
      }
    }
    map p | p in Provinces(data) :: MeanInfected(FilterByProvince(data, p))
  }

  /** The entry of a province is the mean of its rows. */
  lemma MeanOfGroup(data: seq<Record>, p: string)
    requires p in Provinces(data)
    ensures |FilterByProvince(data, p)| > 0
    ensures MeanInfectedByProvince(data)[p] == MeanInfected(FilterByProvince(data, p))
  {
  }

  /** Dividing a total bounded by `lo * n` and `hi * n` by `n` stays within `lo` and `hi`. */
  lemma DivisionBounds(total: real, n: real, lo: real, hi: real)
    requires n > 0.0 && lo * n <= total <= hi * n
    ensures lo <= total / n <= hi
  {
  }

  /** Bounds on every row bound the sum. */
  lemma {:induction false} SumInfectedBounds(rows: seq<Record>, lo: int, hi: int)
    requires forall i :: 0 <= i < |rows| ==> lo <= rows[i].alberiInfetti <= hi
    ensures lo as real * |rows| as real <= SumInfected(rows) as real <= hi as real * |rows| as real
  {
    if |rows| > 0 {
      var n := (|rows| - 1) as real;
      SumInfectedBounds(rows[1..], lo, hi);
      assert lo as real * (n + 1.0) == lo as real * n + lo as real;
      assert hi as real * (n + 1.0) == hi as real * n + hi as real;
    }
  }

  /** A province's mean lies between the smallest and the largest number of
      infected trees recorded for it. */
  lemma MeanWithinGroupBounds(data: seq<Record>, p: string, lo: int, hi: int)
    requires p in Provinces(data)
    requires forall x :: x in data && x.provincia == p ==> lo <= x.alberiInfetti <= hi
    ensures lo as real <= MeanInfectedByProvince(data)[p] <= hi as real
  {
    var g := FilterByProvince(data, p);
    MeanOfGroup(data, p);
    assert forall i :: 0 <= i < |g| ==> g[i] in g;
    MeanInfectedBounds(g, lo, hi);
  }

  lemma MeanInfectedBounds(g: seq<Record>, lo: int, hi: int)
    requires |g| > 0
    requires forall i :: 0 <= i < |g| ==> lo <= g[i].alberiInfetti <= hi
    ensures lo as real <= MeanInfected(g) <= hi as real
  {
    SumInfectedBounds(g, lo, hi);
    DivisionBounds(SumInfected(g) as real, |g| as real, lo as real, hi as real);
  }

  /** A province whose rows all stay at or below `c` has a mean no larger than
      one whose rows all reach at least `c`. */
  lemma MeanMonotone(data: seq<Record>, p: string, q: string, c: int)
    requires p in Provinces(data) && q in Provinces(data)
    requires forall x :: x in data && x.provincia == p ==> x.alberiInfetti <= c
    requires forall x :: x in data && x.provincia == q ==> c <= x.alberiInfetti
    ensures MeanInfectedByProvince(data)[p] <= MeanInfectedByProvince(data)[q]
  {
    GroupNonEmpty(data, p);
    GroupNonEmpty(data, q);
    var pl := MinInfected(FilterByProvince(data, p));
    var qh := MaxInfected(FilterByProvince(data, q));
    MeanWithinGroupBounds(data, p, pl, c);
    MeanWithinGroupBounds(data, q, c, qh);
  }

  function MinInfected(rows: seq<Record>): (m: int)
    requires |rows| > 0
    ensures forall x :: x in rows ==> m <= x.alberiInfetti
  {
    if |rows| == 1 then rows[0].alberiInfetti
    else
      var rest := MinInfected(rows[1..]);
      assert forall x :: x in rows ==> x == rows[0] || x in rows[1..];
      if rows[0].alberiInfetti < rest then rows[0].alberiInfetti else rest
  }

  function MaxInfected(rows: seq<Record>): (m: int)
    requires |rows| > 0
    ensures forall x :: x in rows ==> x.alberiInfetti <= m
  {
    if |rows| == 1 then rows[0].alberiInfetti
    else
      var rest := MaxInfected(rows[1..]);
      assert forall x :: x in rows ==> x == rows[0] || x in rows[1..];
      if rows[0].alberiInfetti > rest then rows[0].alberiInfetti else rest
  }

  /** Splitting the rows splits the total. */
  lemma {:induction false} SumInfectedConcat(a: seq<Record>, b: seq<Record>)
    ensures SumInfected(a + b) == SumInfected(a) + SumInfected(b)
  {
    if |a| > 0 {
      assert (a + b)[1..] == a[1..] + b;
      SumInfectedConcat(a[1..], b);
    } else {
      assert a + b == b;
    }
  }

  /** Taking row `i` out of `t` takes its count out of the total. */
  lemma SumInfectedRemove(t: seq<Record>, i: nat)
    requires i < |t|
    ensures SumInfected(t) == t[i].alberiInfetti + SumInfected(t[..i] + t[i + 1..])
  {
    var before, rest := t[..i], t[i..];
    assert t == before + rest;
    assert rest[1..] == t[i + 1..];
    assert SumInfected(rest) == t[i].alberiInfetti + SumInfected(t[i + 1..]);
    SumInfectedConcat(before, rest);
    SumInfectedConcat(before, t[i + 1..]);
  }

  /** Taking row `i` out of `t` takes one copy of it out of the rows. */
  lemma MultisetRemove(t: seq<Record>, i: nat)
    requires i < |t|
    ensures multiset(t[..i] + t[i + 1..]) == multiset(t) - multiset{t[i]}
  {
    assert t == t[..i] + [t[i]] + t[i + 1..];
  }

  /** The total does not depend on the order of the rows. */
  lemma {:induction false} SumInfectedPermutation(s: seq<Record>, t: seq<Record>)
    requires multiset(s) == multiset(t)
    ensures SumInfected(s) == SumInfected(t)
  {
    if |s| == 0 {
      assert |t| == |multiset(t)| == 0;
    } else {
      assert s[0] in multiset(s);
      var i :| 0 <= i < |t| && t[i] == s[0];
      SumInfectedRemove(t, i);
      MultisetRemove(t, i);
      assert s == [s[0]] + s[1..];
      assert multiset(s[1..]) == multiset(s) - multiset{s[0]};
      SumInfectedPermutation(s[1..], t[..i] + t[i + 1..]);
    }
  }

  /** The per-province means depend on which rows the dataset holds, not on
      the order they come in. */
  lemma MeansIndependentOfRowOrder(a: seq<Record>, b: seq<Record>)
    requires multiset(a) == multiset(b)
    ensures MeanInfectedByProvince(a) == MeanInfectedByProvince(b)
  {
    assert forall x :: x in a <==> x in b by {
      forall x ensures x in a <==> x in b {
        assert x in a <==> x in multiset(a);
        assert x in b <==> x in multiset(b);
      }
    }
    assert Provinces(a) == Provinces(b);
    forall p | p in Provinces(a)
      ensures MeanInfectedByProvince(a)[p] == MeanInfectedByProvince(b)[p]
    {
      GroupMeansAgree(a, b, p);
    }
  }

  lemma GroupMeansAgree(a: seq<Record>, b: seq<Record>, p: string)
    requires multiset(a) == multiset(b)
    requires p in Provinces(a) && p in Provinces(b)
    ensures MeanInfectedByProvince(a)[p] == MeanInfectedByProvince(b)[p]
  {
    MeanOfGroup(a, p);
    MeanOfGroup(b, p);
    var ga, gb := FilterByProvince(a, p), FilterByProvince(b, p);
    SameGroup(a, b, p);
    assert |ga| == |multiset(ga)| == |multiset(gb)| == |gb|;
    SumInfectedPermutation(ga, gb);
  }

  lemma SameGroup(a: seq<Record>, b: seq<Record>, p: string)
    requires multiset(a) == multiset(b)
    ensures multiset(FilterByProvince(a, p)) == multiset(FilterByProvince(b, p))
  {
    var ga, gb := FilterByProvince(a, p), FilterByProvince(b, p);
    FilterByProvinceCounts(a, p);
    FilterByProvinceCounts(b, p);
    forall x ensures multiset(ga)[x] == multiset(gb)[x] {
      assert multiset(a)[x] == multiset(b)[x];
    }
  }

  // ---------------------------------------------------------------------------
  // update_dashboard: the markers

  /** The keys of the per-province dictionary in the order its items come out:
      pandas groups in ascending key order. */
  function SortedProvinces(data: seq<Record>): (keys: seq<string>)
    ensures StringOrder.StrictlySorted(keys)
    ensures forall p :: p in keys <==> p in Provinces(data)
  {
    var column := seq(|data|, i requires 0 <= i < |data| => data[i].provincia);
    assert forall p :: p in column <==> p in Provinces(data) by {
      forall p ensures p in column <==> p in Provinces(data) {
        if p in Provinces(data) {
          var x :| x in data && x.provincia == p;
          var i :| 0 <= i < |data| && data[i] == x;
          assert column[i] == p;
        }
      }
    }
    StringOrder.SortedDistinct(column)
  }

  /** The exception `provincia_coords[prov]` raises for a province the map has
      no coordinates for. */
  datatype DashboardError = KeyError(key: string)

  /** The list comprehension over the dictionary's items: one `crea_marker`
      per key, in key order; the first key without coordinates raises. */
  function BuildMarkers(keys: seq<string>, means: map<string, real>): (r: Result<seq<Marker>, DashboardError>)
    requires forall k :: k in keys ==> k in means
    ensures r.Ok? <==> forall k :: k in keys ==> k in ProvinciaCoords
    ensures r.Ok? ==> (|r.value| == |keys| &&
      forall i :: 0 <= i < |keys| ==>
        r.value[i] == CreaMarker(keys[i], ProvinciaCoords[keys[i]], means[keys[i]]))
    ensures r.Err? ==> exists i :: (0 <= i < |keys| && r.error == KeyError(keys[i]) &&
      keys[i] !in ProvinciaCoords && forall j :: 0 <= j < i ==> keys[j] in ProvinciaCoords)
  {
    if |keys| == 0 then Ok([])
    else if keys[0] !in ProvinciaCoords then Err(KeyError(keys[0]))
    else
      var head := CreaMarker(keys[0], ProvinciaCoords[keys[0]], means[keys[0]]);
      match BuildMarkers(keys[1..], means)
      case Err(e) =>
        var i :| 0 <= i < |keys[1..]| && e == KeyError(keys[1..][i]) &&
          keys[1..][i] !in ProvinciaCoords && forall j :: 0 <= j < i ==> keys[1..][j] in ProvinciaCoords;
        assert keys[i + 1] == keys[1..][i];
        assert forall j :: 1 <= j < i + 1 ==> keys[j] == keys[1..][j - 1];
        Err(e)
      case Ok(rest) =>
        assert forall k :: k in keys ==> k == keys[0] || k in keys[1..];
        assert forall i :: 1 <= i < |keys| ==> keys[i] == keys[1..][i - 1];
        Ok([head] + rest)
  }

  /** The province each marker stands for, in list order. */
  function MarkerProvinces(markers: seq<Marker>): seq<string>
  {
    seq(|markers|, i requires 0 <= i < |markers| => markers[i].provincia)
  }

  /** In a sorted key list, the key `BuildMarkers` fails on is the smallest
      key without coordinates. */
  lemma FirstMissingKey(keys: seq<string>, means: map<string, real>)
    requires StringOrder.StrictlySorted(keys)
    requires forall k :: k in keys ==> k in means
    ensures var r := BuildMarkers(keys, means);
      r.Err? ==> (r.error.key in keys && r.error.key !in ProvinciaCoords &&
        forall q :: q in keys && StringOrder.Less(q, r.error.key) ==> q in ProvinciaCoords)
  {
    var r := BuildMarkers(keys, means);
    if r.Err? {
      var key := r.error.key;
      var i :| 0 <= i < |keys| && r.error == KeyError(keys[i]) &&
        keys[i] !in ProvinciaCoords && forall j :: 0 <= j < i ==> keys[j] in ProvinciaCoords;
      forall q | q in keys && StringOrder.Less(q, key)
        ensures q in ProvinciaCoords
      {
        var j :| 0 <= j < |keys| && keys[j] == q;
        if j >= i {
          if j == i {
            StringOrder.LessIrreflexive(q);
          } else {
            StringOrder.LessAsymmetric(key, q);
          }
        }
      }
    }
  }

  /** A successful `BuildMarkers` has one marker per key, in key order. */
  lemma BuildMarkersProvinces(keys: seq<string>, means: map<string, real>)
    requires forall k :: k in keys ==> k in means
    ensures var r := BuildMarkers(keys, means);
      r.Ok? ==> MarkerProvinces(r.value) == keys
  {
    var r := BuildMarkers(keys, means);
    if r.Ok? {
      assert forall i :: 0 <= i < |r.value| ==> r.value[i].provincia == keys[i];
    }
  }

  /** The map layer: one marker per key of the per-province means, in key
      order, or the `KeyError` of the first province without coordinates. */
  function Markers(data: seq<Record>): (r: Result<seq<Marker>, DashboardError>)
    ensures r.Ok? <==> Provinces(data) <= ProvinciaCoords.Keys
    ensures r.Err? ==> r.error.key in Provinces(data) && r.error.key !in ProvinciaCoords
    ensures r.Err? ==> forall q :: q in Provinces(data) && StringOrder.Less(q, r.error.key) ==> q in ProvinciaCoords
    ensures r.Ok? ==> MarkerProvinces(r.value) == SortedProvinces(data)
    ensures r.Ok? ==> forall i :: 0 <= i < |r.value| ==>
      var m := r.value[i];
      && m.provincia in MeanInfectedByProvince(data)
      && m.infettiMedi == MeanInfectedByProvince(data)[m.provincia]
      && m.center == ProvinciaCoords[m.provincia]
      && (m.color == Red <==> m.infettiMedi > Soglia)
  {
    var means := MeanInfectedByProvince(data);
    var keys := SortedProvinces(data);
    assert forall k :: k in keys <==> k in Provinces(data);
    var r := BuildMarkers(keys, means);
    FirstMissingKey(keys, means);
    BuildMarkersProvinces(keys, means);
    r
  }

  /** What the callback hands back: the selected province's rows (the data of
      the three charts) and the markers of the map layer. */
  datatype DashboardView = DashboardView(rows: seq<Record>, markers: seq<Marker>)

  /** `update_dashboard`. The dropdown can be cleared, and comparing the
      column with `None` selects no row. An exception while building the
      markers leaves the callback without a result. */
  function UpdateDashboard(data: seq<Record>, selected: Option<string>): (r: Result<DashboardView, DashboardError>)
    ensures r.Ok? <==> Markers(data).Ok?
    ensures r.Err? ==> r.error == Markers(data).error
    ensures r.Ok? ==> r.value.markers == Markers(data).value
    ensures r.Ok? ==> r.value.rows == if selected.Some? then FilterByProvince(data, selected.value) else []
  {
    var rows := if selected.Some? then FilterByProvince(data, selected.value) else [];
    match Markers(data)
    case Err(e) => Err(e)
    case Ok(markers) => Ok(DashboardView(rows, markers))
  }

  /** Every province of the dataset gets exactly one marker. */
  lemma OneMarkerPerProvince(data: seq<Record>, selected: Option<string>, p: string)
    requires UpdateDashboard(data, selected).Ok?
    requires p in Provinces(data)
    ensures var ms := UpdateDashboard(data, selected).value.markers;
      exists i :: 0 <= i < |ms| && ms[i].provincia == p &&
        forall j :: 0 <= j < |ms| && j != i ==> ms[j].provincia != p
  {
    var ms := UpdateDashboard(data, selected).value.markers;
    var keys := SortedProvinces(data);
    assert MarkerProvinces(ms) == keys;
    var i :| 0 <= i < |keys| && keys[i] == p;
    assert ms[i].provincia == MarkerProvinces(ms)[i];
    forall j | 0 <= j < |ms| && j != i
      ensures ms[j].provincia != p
    {
      assert ms[j].provincia == keys[j];
      StringOrder.StrictlySortedDistinct(keys, i, j);
    }
  }

  /** The selection only changes the rows; the markers are the same for every
      selected province. */
  lemma MarkersIgnoreSelection(data: seq<Record>, s1: Option<string>, s2: Option<string>)
    ensures UpdateDashboard(data, s1).Ok? == UpdateDashboard(data, s2).Ok?
    ensures UpdateDashboard(data, s1).Ok? ==>
      UpdateDashboard(data, s1).value.markers == UpdateDashboard(data, s2).value.markers
  {
  }

  /** Three days of one province, with 10, 20 and 90 infected trees. */
  const LecceRows: seq<Record> := [
    Record("2024-01-01", "Lecce", 20.0, 60.0, 10.0, 1000, 10, 50, 1900.0),
    Record("2024-01-02", "Lecce", 21.0, 65.0, 0.0, 1200, 20, 60, 1880.0),
    Record("2024-01-03", "Lecce", 19.0, 70.0, 5.0, 1500, 90, 70, 1850.0)]

  lemma LecceGroup()
    ensures FilterByProvince(LecceRows, "Lecce") == LecceRows
    ensures MeanInfected(LecceRows) == 40.0
  {
    assert SumInfected(LecceRows) == 120;
    assert FilterByProvince(LecceRows[2..], "Lecce") == LecceRows[2..];
    assert FilterByProvince(LecceRows[1..], "Lecce") == LecceRows[1..];
  }

  /** Those readings average 40, so the province is drawn green. */
  lemma LecceExample()
    ensures "Lecce" in MeanInfectedByProvince(LecceRows)
    ensures MeanInfectedByProvince(LecceRows)["Lecce"] == 40.0
    ensures CreaMarker("Lecce", ProvinciaCoords["Lecce"], 40.0).color == Green
  {
    assert LecceRows[0] in LecceRows && LecceRows[0].provincia == "Lecce";
    MeanOfGroup(LecceRows, "Lecce");
    LecceGroup();
  }

  // ---------------------------------------------------------------------------
  // aggiorna_predizione

  /** The three messages the prediction callback can show. */
  datatype PredictionMessage =
    | FillInWarning             // "Inserisci tutti i valori e premi il pulsante ..."
    | Estimate(litres: real)    // "Produzione di olio prevista: ... litri per ettaro!"
    | PredictionError(detail: string)  // "Errore durante la predizione: " + str(e)

  /** `aggiorna_predizione`: no estimate before the first click or with any
      field empty; otherwise the five fields go to `calcola_predizione` in
      form order, and whatever it raises becomes a message. */
  function AggiornaPredizione(model: OliveModel.RandomForestRegressor, nClicks: nat,
                              temp: Option<real>, umid: Option<real>, precipitazioni: Option<real>,
                              ripiantati: Option<real>, infetti: Option<real>): (r: PredictionMessage)
    reads model
    ensures r.FillInWarning? <==>
      nClicks == 0 || temp.None? || umid.None? || precipitazioni.None? || ripiantati.None? || infetti.None?
    ensures r.PredictionError? ==>
      |OliveModel.ErrorPrefix| <= |r.detail| && r.detail[..|OliveModel.ErrorPrefix|] == OliveModel.ErrorPrefix
    ensures !r.FillInWarning? && model.featureNames != Some(OliveModel.Features) ==> r.PredictionError?
    ensures !r.FillInWarning? && model.featureNames == Some(OliveModel.Features) ==>
      match model.forest([temp.value, umid.value, precipitazioni.value, ripiantati.value, infetti.value])
      case Ok(v) => r == Estimate(v)
      case Err(e) => r == PredictionError(OliveModel.ErrorPrefix + e)
  {
    if nClicks == 0 || None in [temp, umid, precipitazioni, ripiantati, infetti] then FillInWarning
    else
      match OliveModel.CalcolaPredizione(model, temp.value, umid.value, precipitazioni.value,
                                         ripiantati.value, infetti.value)
      case Ok(prediction) => Estimate(prediction)
      case Err(e) => PredictionError(e)
  }
}
