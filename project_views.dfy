/**
 * The multi-species dashboard of `project.py`: the species choices of the
 * sidebar and the four views (map, line plot, bar graph, table) that each
 * receive the list of selected common names. The records the views fetch are
 * a parameter here.
 */
module ProjectViews {
  import opened Observations
  import opened ChartRows
  import opened KeyOrder
  import opened GroupBy

  datatype ViewError =
    | NoDataForSpecies(species: seq<string>)  // "No data available for species: ..."
    | NoLocationData                           // "No location data available for selected species."
    | MissingColumns(names: seq<string>)       // pandas KeyError: selected columns not in the frame

  /**
   * The selection step every view starts with: the records of the selected
   * species, or an error when there are none.
   */
  function SelectForView(data: seq<Observation>, selected: seq<string>): (r: Result<seq<Observation>, ViewError>)
    ensures r.Failure? <==> forall o :: o in data ==> o.comName !in selected
    ensures r.Failure? ==> r.error == NoDataForSpecies(selected)
    ensures r.Success? ==> r.value == Select(data, selected)
    ensures r.Success? ==> r.value != [] && Subseq(r.value, data)
    ensures r.Success? ==> forall o :: o in r.value <==> o in data && o.comName in selected
  {
    var speciesData := Select(data, selected);
    KeepIsSubseq(data, NameIn(selected));
    if speciesData == [] then Failure(NoDataForSpecies(selected))
    else
      assert speciesData[0] in speciesData;
      Success(speciesData)
  }

  // ----- Map -----

  datatype Location = Location(latitude: real, longitude: real, city: string, species: string)

  function LocationOf(o: Observation): Location
    requires HasCoords(o)
  {
    Location(o.lat.value, o.lng.value, o.locName, o.comName)
  }

  /** The map points: one per record that carries both `lat` and `lng`, in record order. */
  function Locations(records: seq<Observation>): (r: seq<Location>)
    ensures |r| == |Keep(records, HasCoords)|
    ensures forall i :: 0 <= i < |r| ==>
              HasCoords(Keep(records, HasCoords)[i]) && r[i] == LocationOf(Keep(records, HasCoords)[i])
    ensures forall l :: l in r <==> exists o :: o in records && HasCoords(o) && l == LocationOf(o)
  {
    var located := Keep(records, HasCoords);
    assert forall i :: 0 <= i < |located| ==> located[i] in located;
    seq(|located|, i requires 0 <= i < |located| => LocationOf(located[i]))
  }

  /** Zoom 6 for a single species, 5 otherwise. */
  function Zoom(selected: seq<string>): (z: int)
    ensures z == 6 <==> |selected| == 1
    ensures z == 5 <==> |selected| != 1
  {
    if |selected| == 1 then 6 else 5
  }

  datatype MapView = MapView(locations: seq<Location>, zoom: int)

  /** The map view: the located records of the selected species and the zoom. */
  function DisplayMap(data: seq<Observation>, selected: seq<string>): (r: Result<MapView, ViewError>)
    ensures Select(data, selected) == [] ==> r == Failure(NoDataForSpecies(selected))
    ensures Select(data, selected) != [] ==>
              (r == Failure(NoLocationData) <==> forall o :: o in data && o.comName in selected ==> !HasCoords(o))
    ensures r.Success? ==> r.value.zoom == (if |selected| == 1 then 6 else 5)
    ensures r.Success? ==> r.value.locations == Locations(Select(data, selected))
    ensures r.Success? ==> forall l :: l in r.value.locations <==>
              exists o :: o in data && o.comName in selected && HasCoords(o) && l == LocationOf(o)
  {
    match SelectForView(data, selected)
    case Failure(e) => Failure(e)
    case Success(speciesData) =>
      var locations := Locations(speciesData);
      if locations == [] then Failure(NoLocationData)
      else
        assert locations[0] in locations;
        Success(MapView(locations, Zoom(selected)))
  }

  // ----- Line plot -----

  /**
   * The nested loop that builds `combined_data`: for each selected species,
   * one row per record of that species.
   */
  method BuildCombinedRows(speciesData: seq<Observation>, selected: seq<string>) returns (rows: seq<PlotRow>)
    ensures rows == PlotRows(speciesData, selected)
  {
    rows := [];
    var i := 0;
    while i < |selected|
      invariant 0 <= i <= |selected|
      invariant rows == PlotRows(speciesData, selected[..i])
    {
      rows := AppendRows(rows, SelectOne(speciesData, selected[i]), selected[i]);
      assert selected[..i + 1][..i] == selected[..i];
      i := i + 1;
    }
    assert selected[..i] == selected;
  }

  /** The inner loop: one `{species, date, population}` row appended per record of one species. */
  method AppendRows(rows: seq<PlotRow>, filtered: seq<Observation>, species: string) returns (out: seq<PlotRow>)
    requires forall o :: o in filtered ==> o.comName == species
    ensures out == rows + Rows(filtered)
  {
    out := rows;
    var j := 0;
    while j < |filtered|
      invariant 0 <= j <= |filtered|
      invariant out == rows + Rows(filtered[..j])
    {
      var obs := filtered[j];
      assert obs in filtered;
      out := out + [PlotRow(species, obs.obsDt, obs.howMany.GetOr(0))];
      assert filtered[..j + 1] == filtered[..j] + [obs];
      RowsConcat(filtered[..j], [obs]);
      j := j + 1;
    }
    assert filtered[..j] == filtered;
  }

  /** `df.sort_values(by="date", inplace=True)`: sorts the frame's rows by date, in place. */
  method SortByDate(a: array<PlotRow>)
    modifies a
    ensures DateSorted(a[..])
    ensures multiset(a[..]) == multiset(old(a[..]))
  {
    var i := 0;
    while i < a.Length
      invariant 0 <= i <= a.Length
      invariant forall k, l :: 0 <= k < l < i ==> a[k].date <= a[l].date
      invariant multiset(a[..]) == multiset(old(a[..]))
    {
      var j := i;
      while 0 < j && a[j].date < a[j - 1].date
        invariant 0 <= j <= i
        invariant forall k, l :: 0 <= k < l <= i && k != j && l != j ==> a[k].date <= a[l].date
        invariant forall l :: j < l <= i ==> a[j].date <= a[l].date
        invariant multiset(a[..]) == multiset(old(a[..]))
      {
        SwapWithPrevious(a, j);
        j := j - 1;
      }
      i := i + 1;
    }
  }

  method SwapWithPrevious(a: array<PlotRow>, j: int)
    requires 0 < j < a.Length
    modifies a
    ensures a[..] == old(a[..])[j - 1 := old(a[j])][j := old(a[j - 1])]
    ensures multiset(a[..]) == multiset(old(a[..]))
  {
    a[j - 1], a[j] := a[j], a[j - 1];
  }

  /**
   * The line plot's data frame: the combined rows of the selected species,
   * sorted by date. pandas sorts with an unstable algorithm by default, so
   * only the order by date and the multiset of rows are promised.
   */
  method LinePlot(data: seq<Observation>, selected: seq<string>) returns (r: Result<seq<PlotRow>, ViewError>)
    ensures r.Failure? <==> Select(data, selected) == []
    ensures r.Failure? ==> r.error == NoDataForSpecies(selected)
    ensures r.Success? ==> DateSorted(r.value)
    ensures r.Success? ==> multiset(r.value) == multiset(PlotRows(data, selected))
    ensures r.Success? && NoDuplicates(selected) ==>
              multiset(r.value) == multiset(Rows(Select(data, selected)))
  {
    var selection := SelectForView(data, selected);
    if selection.Failure? {
      return Failure(selection.error);
    }
    var combined := BuildCombinedRows(selection.value, selected);
    SelectedPlotRows(data, selected, selected);
    var df := new PlotRow[|combined|](k requires 0 <= k < |combined| => combined[k]);
    assert df[..] == combined;
    SortByDate(df);
    r := Success(df[..]);
    if NoDuplicates(selected) {
      PlotRowsOnePerRecord(data, selected);
    }
  }

  /** Restricting the records to the selection first does not change the rows of selected species. */
  lemma {:induction false} SelectedPlotRows(data: seq<Observation>, all: seq<string>, sub: seq<string>)
    requires forall s :: s in sub ==> s in all
    ensures PlotRows(Select(data, all), sub) == PlotRows(data, sub)
    decreases |sub|
  {
    if sub != [] {
      var s := sub[|sub| - 1];
      SelectedPlotRows(data, all, sub[..|sub| - 1]);
      SelectThenOne(data, all, s);
    }
  }

  lemma {:induction false} SelectThenOne(data: seq<Observation>, all: seq<string>, s: string)
    requires s in all
    ensures SelectOne(Select(data, all), s) == SelectOne(data, s)
  {
    if data != [] {
      SelectThenOne(data[1..], all, s);
    }
  }

  // ----- Bar graph -----

  /** The data frame built from three parallel columns (`pd.DataFrame({...})`). */
  function Frame(dates: seq<Date>, populations: seq<nat>, species: seq<string>): (rows: seq<PlotRow>)
    requires |dates| == |populations| == |species|
    ensures |rows| == |dates|
    ensures forall i :: 0 <= i < |rows| ==> rows[i] == PlotRow(species[i], dates[i], populations[i])
  {
    seq(|dates|, i requires 0 <= i < |dates| => PlotRow(species[i], dates[i], populations[i]))
  }

  /** Appending one entry to each column appends one row to the frame. */
  lemma FrameAppend(dates: seq<Date>, populations: seq<nat>, species: seq<string>, d: Date, p: nat, name: string)
    requires |dates| == |populations| == |species|
    ensures Frame(dates + [d], populations + [p], species + [name]) ==
            Frame(dates, populations, species) + [PlotRow(name, d, p)]
  {
  }

  /**
   * The nested loop that fills `all_dates`, `all_populations` and
   * `all_species`: parallel columns holding the line plot's rows.
   */
  method FlattenColumns(speciesData: seq<Observation>, selected: seq<string>)
    returns (dates: seq<Date>, populations: seq<nat>, species: seq<string>)
    ensures |dates| == |populations| == |species|
    ensures Frame(dates, populations, species) == PlotRows(speciesData, selected)
  {
    dates, populations, species := [], [], [];
    var i := 0;
    while i < |selected|
      invariant 0 <= i <= |selected|
      invariant |dates| == |populations| == |species|
      invariant Frame(dates, populations, species) == PlotRows(speciesData, selected[..i])
    {
      dates, populations, species := AppendColumns(dates, populations, species,
                                                   SelectOne(speciesData, selected[i]), selected[i]);
      assert selected[..i + 1][..i] == selected[..i];
      i := i + 1;
    }
    assert selected[..i] == selected;
  }

  /** The inner loop: one entry appended to each column per record of one species. */
  method AppendColumns(dates: seq<Date>, populations: seq<nat>, species: seq<string>,
                       filtered: seq<Observation>, name: string)
    returns (dates': seq<Date>, populations': seq<nat>, species': seq<string>)
    requires |dates| == |populations| == |species|
    requires forall o :: o in filtered ==> o.comName == name
    ensures |dates'| == |populations'| == |species'|
    ensures Frame(dates', populations', species') == Frame(dates, populations, species) + Rows(filtered)
  {
    dates', populations', species' := dates, populations, species;
    var j := 0;
    while j < |filtered|
      invariant 0 <= j <= |filtered|
      invariant |dates'| == |populations'| == |species'|
      invariant Frame(dates', populations', species') == Frame(dates, populations, species) + Rows(filtered[..j])
    {
      var obs := filtered[j];
      assert obs in filtered;
      FrameAppend(dates', populations', species', obs.obsDt, obs.howMany.GetOr(0), name);
      dates' := dates' + [obs.obsDt];
      populations' := populations' + [obs.howMany.GetOr(0)];
      species' := species' + [name];
      assert filtered[..j + 1] == filtered[..j] + [obs];
      RowsConcat(filtered[..j], [obs]);
      j := j + 1;
    }
    assert filtered[..j] == filtered;
  }

  /**
   * The bar graph's grouped frame: one group per (date, species) among the
   * selected records' rows, keys ascending, each the sum of its rows'
   * populations, with nothing lost from the grand total.
   */
  method BarGraph(data: seq<Observation>, selected: seq<string>) returns (r: Result<seq<Group>, ViewError>)
    ensures r.Failure? <==> Select(data, selected) == []
    ensures r.Failure? ==> r.error == NoDataForSpecies(selected)
    ensures r.Success? ==> Ascending(r.value)
    ensures r.Success? ==> forall i, j :: 0 <= i < j < |r.value| ==> r.value[i].key != r.value[j].key
    ensures r.Success? ==> KeysOf(r.value) == RowKeys(PlotRows(data, selected))
    ensures r.Success? ==> forall i :: 0 <= i < |r.value| ==>
              r.value[i].population == SumFor(PlotRows(data, selected), r.value[i].key)
    ensures r.Success? ==> GroupTotal(r.value) == TotalPopulation(PlotRows(data, selected))
    ensures r.Success? && NoDuplicates(selected) ==>
              GroupTotal(r.value) == TotalPopulation(Rows(Select(data, selected)))
  {
    var selection := SelectForView(data, selected);
    if selection.Failure? {
      return Failure(selection.error);
    }
    var dates, populations, species := FlattenColumns(selection.value, selected);
    SelectedPlotRows(data, selected, selected);
    var df := Frame(dates, populations, species);
    GroupSumCorrect(df);
    r := Success(GroupSum(df));
    if NoDuplicates(selected) {
      PlotRowsOnePerRecord(data, selected);
      TotalPermutation(PlotRows(data, selected), Rows(Select(data, selected)));
    }
  }

  // ----- Table -----

  /** A table cell; `NaN` is what pandas shows where a record lacks the column. */
  datatype Cell = Text(text: string) | Count(count: nat) | Coordinate(degrees: real)
                | Flag(flag: bool) | Time(time: Date) | NaN

  /** The keys of an observation record, as the JSON names them. */
  datatype RecordKey =
    | SpeciesCode | ComName | SciName | LocId | LocName | ObsDt | HowMany
    | Lat | Lng | ObsValid | ObsReviewed | LocationPrivate | SubId

  /** A column: the record key it is read from and the name it is renamed to. */
  datatype Column = Column(key: RecordKey, name: string)

  /** The 13 display names of the table (`col`). */
  const DisplayNames: seq<string> := [
    "Species Code", "Common Name", "Scientific Name", "Location ID",
    "Location Observed", "Date Observed", "Population", "Latitude",
    "Longitude", "Valid Observation", "Reviewed Observation",
    "Location Private", "Sub ID"]

  /** The full view: all 13 record keys, renamed to `col` in order. */
  const FullColumns: seq<Column> := [
    Column(SpeciesCode, DisplayNames[0]), Column(ComName, DisplayNames[1]),
    Column(SciName, DisplayNames[2]), Column(LocId, DisplayNames[3]),
    Column(LocName, DisplayNames[4]), Column(ObsDt, DisplayNames[5]),
    Column(HowMany, DisplayNames[6]), Column(Lat, DisplayNames[7]),
    Column(Lng, DisplayNames[8]), Column(ObsValid, DisplayNames[9]),
    Column(ObsReviewed, DisplayNames[10]), Column(LocationPrivate, DisplayNames[11]),
    Column(SubId, DisplayNames[12])]

  /** The simplified view: six of them. */
  const SimplifiedColumns: seq<Column> := [
    Column(ComName, DisplayNames[1]), Column(SciName, DisplayNames[2]),
    Column(LocName, DisplayNames[4]), Column(HowMany, DisplayNames[6]),
    Column(Lat, DisplayNames[7]), Column(Lng, DisplayNames[8])]

  /** Where each simplified column sits in the full view. */
  const SimplifiedIndex: seq<nat> := [1, 2, 4, 6, 7, 8]

  /** The value a record holds under a key, if it has one. */
  function Field(o: Observation, key: RecordKey): (v: Option<Cell>)
    ensures v.None? <==> (key == HowMany && o.howMany.None?) || (key == Lat && o.lat.None?) ||
                         (key == Lng && o.lng.None?)
  {
    match key
    case SpeciesCode => Some(Text(o.speciesCode))
    case ComName => Some(Text(o.comName))
    case SciName => Some(Text(o.sciName))
    case LocId => Some(Text(o.locId))
    case LocName => Some(Text(o.locName))
    case ObsDt => Some(Time(o.obsDt))
    case HowMany => if o.howMany.Some? then Some(Count(o.howMany.value)) else None
    case Lat => if o.lat.Some? then Some(Coordinate(o.lat.value)) else None
    case Lng => if o.lng.Some? then Some(Coordinate(o.lng.value)) else None
    case ObsValid => Some(Flag(o.obsValid))
    case ObsReviewed => Some(Flag(o.obsReviewed))
    case LocationPrivate => Some(Flag(o.locationPrivate))
    case SubId => Some(Text(o.subId))
  }

  /** A data frame built from `records` has a column `key` when some record has that key. */
  predicate HasColumn(records: seq<Observation>, key: RecordKey) {
    exists o :: o in records && Field(o, key).Some?
  }

  /** The display names of the requested columns the frame lacks, in order. */
  function MissingNames(records: seq<Observation>, columns: seq<Column>): (r: seq<string>)
    ensures r == [] <==> forall j :: 0 <= j < |columns| ==> HasColumn(records, columns[j].key)
  {
    if columns == [] then []
    else (if HasColumn(records, columns[0].key) then [] else [columns[0].name])
         + MissingNames(records, columns[1..])
  }

  datatype Table = Table(header: seq<string>, cells: seq<seq<Cell>>)

  function Header(columns: seq<Column>): (r: seq<string>)
    ensures |r| == |columns| && forall j :: 0 <= j < |columns| ==> r[j] == columns[j].name
  {
    seq(|columns|, j requires 0 <= j < |columns| => columns[j].name)
  }

  function RowCells(o: Observation, columns: seq<Column>): (r: seq<Cell>)
    ensures |r| == |columns|
    ensures forall j :: 0 <= j < |columns| ==> r[j] == Field(o, columns[j].key).GetOr(NaN)
  {
    seq(|columns|, j requires 0 <= j < |columns| => Field(o, columns[j].key).GetOr(NaN))
  }

  /**
   * Rename the frame's columns and select `columns` from the rows of the
   * filtered species; selecting a column the frame lacks is a KeyError.
   */
  function Project(frame: seq<Observation>, speciesFilter: seq<string>, columns: seq<Column>): (r: Result<Table, ViewError>)
    ensures r.Failure? <==> exists j :: 0 <= j < |columns| && !HasColumn(frame, columns[j].key)
    ensures r.Failure? ==> r.error == MissingColumns(MissingNames(frame, columns))
    ensures r.Success? ==> r.value.header == Header(columns)
    ensures r.Success? ==> |r.value.cells| == |Select(frame, speciesFilter)|
    ensures r.Success? ==> forall i :: 0 <= i < |r.value.cells| ==>
              r.value.cells[i] == RowCells(Select(frame, speciesFilter)[i], columns)
  {
    var missing := MissingNames(frame, columns);
    if missing != [] then Failure(MissingColumns(missing))
    else
      var rows := Select(frame, speciesFilter);
      Success(Table(Header(columns), seq(|rows|, i requires 0 <= i < |rows| => RowCells(rows[i], columns))))
  }

  /** The simplified header: Common Name, Scientific Name, Location Observed, Population, Latitude, Longitude. */
  lemma SimplifiedHeader()
    ensures Header(SimplifiedColumns) ==
            ["Common Name", "Scientific Name", "Location Observed", "Population", "Latitude", "Longitude"]
  {
  }

  /** The full header is `col`, all 13 names in order. */
  lemma FullHeader()
    ensures Header(FullColumns) == DisplayNames
  {
  }

  function Keys(columns: seq<Column>): (r: seq<RecordKey>)
    ensures |r| == |columns| && forall j :: 0 <= j < |columns| ==> r[j] == columns[j].key
  {
    seq(|columns|, j requires 0 <= j < |columns| => columns[j].key)
  }

  /** Whether some column of the list is missing from the frame. */
  predicate AnyMissing(frame: seq<Observation>, keys: seq<RecordKey>) {
    exists j :: 0 <= j < |keys| && !HasColumn(frame, keys[j])
  }

  /** A non-empty frame can lack only the optional columns: Population, Latitude, Longitude. */
  lemma {:induction false} OnlyOptionalMissing(frame: seq<Observation>, keys: seq<RecordKey>)
    requires frame != []
    ensures AnyMissing(frame, keys) <==>
            exists j :: 0 <= j < |keys| && keys[j] in {HowMany, Lat, Lng} && !HasColumn(frame, keys[j])
  {
    forall j | 0 <= j < |keys| && !HasColumn(frame, keys[j]) ensures keys[j] in {HowMany, Lat, Lng} {
      assert Field(frame[0], keys[j]).None?;
    }
  }

  lemma SimplifiedKeys()
    ensures Keys(SimplifiedColumns) == [ComName, SciName, LocName, HowMany, Lat, Lng]
  {
  }

  lemma FullKeys()
    ensures Keys(FullColumns) == [SpeciesCode, ComName, SciName, LocId, LocName, ObsDt, HowMany,
                                  Lat, Lng, ObsValid, ObsReviewed, LocationPrivate, SubId]
  {
  }

  /** The simplified and the full projection fail on the same frames. */
  lemma MissingTogether(frame: seq<Observation>)
    ensures AnyMissing(frame, Keys(SimplifiedColumns)) <==> AnyMissing(frame, Keys(FullColumns))
  {
    SimplifiedKeys();
    FullKeys();
    MissingTogetherKeys(frame, Keys(SimplifiedColumns), Keys(FullColumns));
  }

  lemma {:induction false} MissingTogetherKeys(frame: seq<Observation>, sk: seq<RecordKey>, fk: seq<RecordKey>)
    requires sk == [ComName, SciName, LocName, HowMany, Lat, Lng]
    requires fk == [SpeciesCode, ComName, SciName, LocId, LocName, ObsDt, HowMany,
                    Lat, Lng, ObsValid, ObsReviewed, LocationPrivate, SubId]
    ensures AnyMissing(frame, sk) <==> AnyMissing(frame, fk)
  {
    if frame == [] {
      assert !HasColumn(frame, sk[0]);
      assert !HasColumn(frame, fk[0]);
    } else {
      OnlyOptionalMissing(frame, sk);
      OnlyOptionalMissing(frame, fk);
      if AnyMissing(frame, fk) {
        var j :| 0 <= j < |fk| && fk[j] in {HowMany, Lat, Lng} && !HasColumn(frame, fk[j]);
        assert fk[j] == sk[j - 3];
      }
      if AnyMissing(frame, sk) {
        var j :| 0 <= j < |sk| && sk[j] in {HowMany, Lat, Lng} && !HasColumn(frame, sk[j]);
        assert sk[j] == fk[j + 3];
      }
    }
  }

  /**
   * The simplified table is a sub-table of the full one: both fail together,
   * and each simplified column is a full column with the same name and cells.
   */
  lemma SimplifiedWithinFull(frame: seq<Observation>, speciesFilter: seq<string>)
    ensures Project(frame, speciesFilter, SimplifiedColumns).Failure? <==>
            Project(frame, speciesFilter, FullColumns).Failure?
    ensures Project(frame, speciesFilter, SimplifiedColumns).Success? ==>
              var s, f := Project(frame, speciesFilter, SimplifiedColumns).value,
                          Project(frame, speciesFilter, FullColumns).value;
              |s.cells| == |f.cells| &&
              forall j :: 0 <= j < 6 ==>
                s.header[j] == f.header[SimplifiedIndex[j]] &&
                forall i :: 0 <= i < |s.cells| ==> s.cells[i][j] == f.cells[i][SimplifiedIndex[j]]
  {
    MissingTogether(frame);
    assert Project(frame, speciesFilter, SimplifiedColumns).Failure? <==> AnyMissing(frame, Keys(SimplifiedColumns));
    assert Project(frame, speciesFilter, FullColumns).Failure? <==> AnyMissing(frame, Keys(FullColumns));
    var sr, fr := Project(frame, speciesFilter, SimplifiedColumns), Project(frame, speciesFilter, FullColumns);
    if sr.Success? {
      var s, f := sr.value, fr.value;
      var rows := Select(frame, speciesFilter);
      SimplifiedColumnsInFull();
      forall i | 0 <= i < |s.cells|
        ensures forall j :: 0 <= j < 6 ==> s.cells[i][j] == f.cells[i][SimplifiedIndex[j]]
      {
        SimplifiedRowWithinFull(rows[i]);
      }
    }
  }

  /** Each simplified column is the full column at the matching index. */
  lemma SimplifiedColumnsInFull()
    ensures |SimplifiedColumns| == |SimplifiedIndex| == 6
    ensures forall j :: 0 <= j < 6 ==>
              SimplifiedIndex[j] < |FullColumns| && SimplifiedColumns[j] == FullColumns[SimplifiedIndex[j]]
  {
  }

  /** A simplified row holds the cells of the matching full-row columns. */
  lemma SimplifiedRowWithinFull(o: Observation)
    ensures forall j :: 0 <= j < 6 ==>
              RowCells(o, SimplifiedColumns)[j] == RowCells(o, FullColumns)[SimplifiedIndex[j]]
  {
    SimplifiedColumnsInFull();
  }

  datatype TableChoice = SpecificData | RawData

  datatype TableOutput =
    | RawTable(records: seq<Observation>)   // "Raw Data": the frame as fetched
    | NoTable                                // species filter left empty: nothing shown
    | Grid(table: Table)                     // the simplified or the full projection

  /** The interactive table view. */
  function DisplayTable(data: seq<Observation>, selected: seq<string>, choice: TableChoice,
                        speciesFilter: seq<string>, simplify: bool): (r: Result<TableOutput, ViewError>)
    ensures Select(data, selected) == [] ==> r == Failure(NoDataForSpecies(selected))
    ensures Select(data, selected) != [] && choice == RawData ==>
              r == Success(RawTable(Select(data, selected)))
    ensures Select(data, selected) != [] && choice == SpecificData && speciesFilter == [] ==>
              r == Success(NoTable)
    ensures Select(data, selected) != [] && choice == SpecificData && speciesFilter != [] ==>
              r == (match Project(Select(data, selected), speciesFilter,
                                  if simplify then SimplifiedColumns else FullColumns)
                    case Success(t) => Success(Grid(t))
                    case Failure(e) => Failure(e))
  {
    match SelectForView(data, selected)
    case Failure(e) => Failure(e)
    case Success(speciesData) =>
      if choice == RawData then Success(RawTable(speciesData))
      else if speciesFilter == [] then Success(NoTable)
      else
        var columns := if simplify then SimplifiedColumns else FullColumns;
        match Project(speciesData, speciesFilter, columns)
        case Failure(e) => Failure(e)
        case Success(t) => Success(Grid(t))
  }

  // ----- Sidebar -----

  /**
   * The sidebar's species options: the empty option, then each common name
   * once. `list(set(...))` fixes no order, so none is promised.
   */
  method SpeciesChoices(data: seq<Observation>) returns (options: seq<string>)
    ensures |options| >= 1 && options[0] == ""
    ensures NoDuplicates(options[1..])
    ensures forall n :: n in options[1..] <==> exists o :: o in data && o.comName == n
  {
    var speciesList := Observations.Names(data);
    speciesList := Distinct(speciesList);
    speciesList := [""] + speciesList;
    options := speciesList;
    assert options[1..] == Distinct(Observations.Names(data));
    forall n | n in options[1..] ensures exists o :: o in data && o.comName == n {
      var i :| 0 <= i < |data| && Observations.Names(data)[i] == n;
      assert data[i] in data;
    }
  }
}
