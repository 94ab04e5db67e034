/**
 * The single-species dashboard of `main.py`: the sidebar's species list and
 * date check, the map, line-plot and bar-graph tabs for one chosen species,
 * and the table with its species and date-range filters. The records it
 * fetches are a parameter here.
 */
module MainViews {
  import opened Observations

  // ----- Sidebar -----

  /** `species_list`: the empty option, then every record's name in record order, duplicates kept. */
  function SpeciesList(data: seq<Observation>): (r: seq<string>)
    ensures |r| == |data| + 1 && r[0] == ""
    ensures forall i :: 0 <= i < |data| ==> r[i + 1] == data[i].comName
  {
    [""] + Names(data)
  }

  /** The options of the "Choose species to focus on" multiselect: `species_list[1:]`. */
  function FocusOptions(data: seq<Observation>): (r: seq<string>)
    ensures |r| == |data|
    ensures forall i :: 0 <= i < |data| ==> r[i] == data[i].comName
  {
    SpeciesList(data)[1..]
  }

  /** A calendar day, as `st.date_input` returns it, counted in days. */
  type Day = int

  const MinutesPerDay: int := 1440

  /** The calendar day of an observation time (its date part). */
  function DayOf(t: Date): Day {
    t / MinutesPerDay
  }

  /** The first minute of a day: the time a bare date stands for when compared with a time. */
  function Midnight(d: Day): Date {
    d * MinutesPerDay
  }

  /** A time lies in its own day: from that day's midnight up to, not including, the next one. */
  lemma DayOfBounds(t: Date)
    ensures Midnight(DayOf(t)) <= t < Midnight(DayOf(t) + 1)
  {
  }

  /** Later times never fall on earlier days. */
  lemma DayOfMonotonic(s: Date, t: Date)
    requires s <= t
    ensures DayOf(s) <= DayOf(t)
  {
    DayOfBounds(s);
    DayOfBounds(t);
  }

  /** The sidebar's date check: an error message exactly when the start is after the end. */
  function DateCheck(start: Day, end: Day): (message: Option<string>)
    ensures message.Some? <==> start > end
  {
    if start > end then Some("Start date must be before end date.") else None
  }

  // ----- Map tab -----

  datatype Point = Point(lat: real, lon: real)

  function PointOf(o: Observation): Point
    requires HasCoords(o)
  {
    Point(o.lat.value, o.lng.value)
  }

  /** `[{"lat", "lon"} for obs in species_data if "lat" in obs and "lng" in obs]`. */
  function Points(speciesData: seq<Observation>): (r: seq<Point>)
    ensures |r| == |Keep(speciesData, HasCoords)|
    ensures forall i :: 0 <= i < |r| ==>
              HasCoords(Keep(speciesData, HasCoords)[i]) && r[i] == PointOf(Keep(speciesData, HasCoords)[i])
    ensures forall p :: p in r <==> exists o :: o in speciesData && HasCoords(o) && p == PointOf(o)
  {
    var located := Keep(speciesData, HasCoords);
    assert forall i :: 0 <= i < |located| ==> located[i] in located;
    seq(|located|, i requires 0 <= i < |located| => PointOf(located[i]))
  }

  datatype MapOutcome =
    | NoSpeciesChosen       // "Please select a species."
    | NoLocations           // "No location data available for this species."
    | Located(points: seq<Point>)

  /** "Show Locations": the located records of the chosen species. */
  function ShowLocations(data: seq<Observation>, species: string): (r: MapOutcome)
    ensures r == NoSpeciesChosen <==> species == ""
    ensures r == NoLocations <==>
              species != "" && forall o :: o in data && o.comName == species ==> !HasCoords(o)
    ensures r.Located? ==> r.points == Points(SelectOne(data, species))
    ensures r.Located? ==> r.points != [] && forall p :: p in r.points <==>
              exists o :: o in data && o.comName == species && HasCoords(o) && p == PointOf(o)
  {
    if species == "" then NoSpeciesChosen
    else
      var points := Points(SelectOne(data, species));
      if points == [] then NoLocations
      else
        assert points[0] in points;
        Located(points)
  }

  // ----- Line plot and bar graph tabs -----

  /** `[obs["obsDt"] for obs in ...]`. */
  function Dates(records: seq<Observation>): (r: seq<Date>)
    ensures |r| == |records|
    ensures forall i :: 0 <= i < |records| ==> r[i] == records[i].obsDt
  {
    if records == [] then [] else [records[0].obsDt] + Dates(records[1..])
  }

  /** `[obs["howMany"] for obs in ...]`, defined only when every record has `howMany`. */
  function Populations(records: seq<Observation>): (r: seq<nat>)
    requires forall o :: o in records ==> o.howMany.Some?
    ensures |r| == |records|
    ensures forall i :: 0 <= i < |records| ==> r[i] == records[i].howMany.value
  {
    if records == [] then [] else [records[0].howMany.value] + Populations(records[1..])
  }

  datatype PlotOutcome =
    | NotRequested                          // the empty option is chosen
    | SpeciesNotFound                       // "Species not found."
    | MissingPopulation                     // `obs["howMany"]` raises KeyError
    | NoPlotData                            // "No data available for plotting."
    | Extracted(dates: seq<Date>, populations: seq<nat>)

  /**
   * What both single-species chart tabs extract before drawing: the times and
   * the populations of the chosen species' records, as two parallel lists in
   * record order. `howMany` is read without a default, so a record that lacks
   * it is an error.
   */
  function SpeciesSeries(data: seq<Observation>, species: string): (r: PlotOutcome)
    ensures r == NotRequested <==> species == ""
    ensures r == SpeciesNotFound <==> species != "" && forall o :: o in data ==> o.comName != species
    ensures r == MissingPopulation <==>
              species != "" && exists o :: o in data && o.comName == species && o.howMany.None?
    ensures r != NoPlotData
    ensures r.Extracted? ==>
              var matching := SelectOne(data, species);
              |r.dates| == |r.populations| == |matching| > 0 &&
              forall i :: 0 <= i < |matching| ==>
                r.dates[i] == matching[i].obsDt && Some(r.populations[i]) == matching[i].howMany
  {
    if species == "" then NotRequested
    else
      var matching := SelectOne(data, species);
      if matching == [] then SpeciesNotFound
      else
        assert matching[0] in matching;
        var dates := Dates(matching);
        if exists o :: o in matching && o.howMany.None? then MissingPopulation
        else
          var populations := Populations(matching);
          if dates != [] && populations != [] then Extracted(dates, populations) else NoPlotData
  }

  // ----- Table tab -----

  /**
   * The date-range condition as main.py:219-221 writes it: each day of the
   * range is compared with the observation time, so it stands for its midnight.
   */
  function ObservedWithinAsWritten(start: Day, end: Day): Observation -> bool {
    (o: Observation) => Midnight(start) <= o.obsDt <= Midnight(end)
  }

  function FilterDatesAsWritten(rows: seq<Observation>, start: Day, end: Day): seq<Observation>
  {
    Keep(rows, ObservedWithinAsWritten(start, end))
  }

  /**
   * With the default range (the days of the earliest and the latest time), a
   * record observed after midnight on the last day is filtered out: a frame
   * holding only such a record shows nothing.
   */
  lemma LateLastDayDroppedAsWritten(o: Observation)
    requires o.obsDt != Midnight(DayOf(o.obsDt))
    ensures FilterDatesAsWritten([o], DayOf(MinDate([o])), DayOf(MaxDate([o]))) == []
  {
    DayOfBounds(o.obsDt);
    assert !ObservedWithinAsWritten(DayOf(o.obsDt), DayOf(o.obsDt))(o);
  }

  /** The intended date-range condition: the observation's day lies in the range. */
  function ObservedWithin(start: Day, end: Day): Observation -> bool {
    (o: Observation) => start <= DayOf(o.obsDt) <= end
  }

  /** The date-range filter, inclusive of both days. */
  function FilterDates(rows: seq<Observation>, start: Day, end: Day): seq<Observation>
  {
    Keep(rows, ObservedWithin(start, end))
  }

  /**
   * The date-range filter only removes rows: it keeps, unchanged and in order,
   * exactly the rows observed on a day from start to end, both included.
   */
  lemma FilterDatesExactly(rows: seq<Observation>, start: Day, end: Day)
    ensures Subseq(FilterDates(rows, start, end), rows)
    ensures forall o :: multiset(FilterDates(rows, start, end))[o] ==
                        if start <= DayOf(o.obsDt) <= end then multiset(rows)[o] else 0
  {
    KeepIsSubseq(rows, ObservedWithin(start, end));
    forall o ensures multiset(FilterDates(rows, start, end))[o] ==
                     if start <= DayOf(o.obsDt) <= end then multiset(rows)[o] else 0
    {
      KeepCount(rows, ObservedWithin(start, end), o);
    }
  }

  datatype TableOutcome =
    | EmptyFrame                            // "No data available to display in the table."
    | Shown(rows: seq<Observation>)

  /**
   * The table: the records of the filtered species, further restricted to the
   * date range when the date input holds two days.
   */
  function FilteredTable(data: seq<Observation>, speciesFilter: seq<string>, dateRange: seq<Day>): (r: TableOutcome)
    ensures r == EmptyFrame <==> data == []
    ensures r.Shown? ==> r.rows == if |dateRange| == 2
                                   then FilterDates(Select(data, speciesFilter), dateRange[0], dateRange[1])
                                   else Select(data, speciesFilter)
    ensures r.Shown? ==> Subseq(r.rows, data)
    ensures r.Shown? ==> forall o :: o in r.rows <==>
              o in data && o.comName in speciesFilter &&
              (|dateRange| == 2 ==> dateRange[0] <= DayOf(o.obsDt) <= dateRange[1])
  {
    if data == [] then EmptyFrame
    else
      var filtered := Select(data, speciesFilter);
      KeepIsSubseq(data, NameIn(speciesFilter));
      if |dateRange| == 2 then
        var inRange := FilterDates(filtered, dateRange[0], dateRange[1]);
        KeepIsSubseq(filtered, ObservedWithin(dateRange[0], dateRange[1]));
        SubseqTransitive(inRange, filtered, data);
        Shown(inRange)
      else Shown(filtered)
  }

  lemma {:induction false} SubseqTransitive<T>(a: seq<T>, b: seq<T>, c: seq<T>)
    requires Subseq(a, b) && Subseq(b, c)
    ensures Subseq(a, c)
    decreases |c|
  {
    if a != [] && c != [] {
      if b[0] == c[0] {
        if a[0] == b[0] {
          SubseqTransitive(a[1..], b[1..], c[1..]);
        } else {
          SubseqTransitive(a, b[1..], c[1..]);
        }
      } else {
        SubseqTransitive(a, b, c[1..]);
        if a[0] == c[0] {
          SubseqDropHead(a, c[1..]);
        }
      }
    }
  }

  /** The earliest observation date (`df["obsDt"].min()`). */
  function MinDate(data: seq<Observation>): (d: Date)
    requires data != []
    ensures forall o :: o in data ==> d <= o.obsDt
    ensures exists o :: o in data && o.obsDt == d
  {
    if |data| == 1 then data[0].obsDt
    else
      var rest := MinDate(data[1..]);
      if data[0].obsDt <= rest then data[0].obsDt else rest
  }

  /** The latest observation date (`df["obsDt"].max()`). */
  function MaxDate(data: seq<Observation>): (d: Date)
    requires data != []
    ensures forall o :: o in data ==> o.obsDt <= d
    ensures exists o :: o in data && o.obsDt == d
  {
    if |data| == 1 then data[0].obsDt
    else
      var rest := MaxDate(data[1..]);
      if data[0].obsDt >= rest then data[0].obsDt else rest
  }

  /**
   * Left at their defaults (every species, the days from the earliest to the
   * latest observation) the filters show every record.
   */
  lemma DefaultTableShowsAll(data: seq<Observation>)
    requires data != []
    ensures FilteredTable(data, Distinct(Names(data)), [DayOf(MinDate(data)), DayOf(MaxDate(data))]) == Shown(data)
  {
    var lo, hi := DayOf(MinDate(data)), DayOf(MaxDate(data));
    SelectAllNames(data);
    DefaultRangeHoldsAll(data);
    KeepAll(data, ObservedWithin(lo, hi));
    assert FilterDates(data, lo, hi) == data;
  }

  /** Every record is observed on a day of the default range. */
  lemma DefaultRangeHoldsAll(data: seq<Observation>)
    requires data != []
    ensures forall i :: 0 <= i < |data| ==>
              ObservedWithin(DayOf(MinDate(data)), DayOf(MaxDate(data)))(data[i])
  {
    forall i | 0 <= i < |data|
      ensures DayOf(MinDate(data)) <= DayOf(data[i].obsDt) <= DayOf(MaxDate(data))
    {
      assert data[i] in data;
      DayOfMonotonic(MinDate(data), data[i].obsDt);
      DayOfMonotonic(data[i].obsDt, MaxDate(data));
    }
  }
}
