/**
 * The flat rows that the line plot and the bar graph of the multi-species
 * dashboard build from the selected records: one `{species, date, population}`
 * row per record, grouped by species in the order the species were selected.
 */
module ChartRows {
  import opened Observations

  datatype PlotRow = PlotRow(species: string, date: Date, population: nat)

  /** The row one record contributes; a missing `howMany` counts as 0 (`obs.get("howMany", 0)`). */
  function RowOf(o: Observation): (row: PlotRow)
    ensures row.species == o.comName && row.date == o.obsDt
    ensures o.howMany.Some? ==> row.population == o.howMany.value
    ensures o.howMany.None? ==> row.population == 0
  {
    PlotRow(o.comName, o.obsDt, o.howMany.GetOr(0))
  }

  /** The rows of a list of records, one per record, in record order. */
  function Rows(os: seq<Observation>): (r: seq<PlotRow>)
    ensures |r| == |os|
    ensures forall i :: 0 <= i < |os| ==> r[i] == RowOf(os[i])
  {
    if os == [] then [] else [RowOf(os[0])] + Rows(os[1..])
  }

  lemma {:induction false} RowsConcat(a: seq<Observation>, b: seq<Observation>)
    ensures Rows(a + b) == Rows(a) + Rows(b)
  {
    if a == [] {
      assert a + b == b;
    } else {
      assert (a + b)[1..] == a[1..] + b;
      RowsConcat(a[1..], b);
    }
  }

  /**
   * The rows the nested loop appends: for each selected species in turn, the
   * rows of the records with that common name, in record order.
   */
  function PlotRows(data: seq<Observation>, selected: seq<string>): seq<PlotRow>
    decreases |selected|
  {
    if selected == [] then []
    else PlotRows(data, selected[..|selected| - 1]) + Rows(SelectOne(data, selected[|selected| - 1]))
  }

  /**
   * Every row comes from a record of `data` whose name is selected, and carries
   * that record's date and population.
   */
  lemma {:induction false} PlotRowsFromRecords(data: seq<Observation>, selected: seq<string>)
    ensures forall row :: row in PlotRows(data, selected) ==>
              exists o :: o in data && o.comName in selected && row == RowOf(o)
    decreases |selected|
  {
    if selected != [] {
      var init, s := selected[..|selected| - 1], selected[|selected| - 1];
      PlotRowsFromRecords(data, init);
      forall row | row in PlotRows(data, selected)
        ensures exists o :: o in data && o.comName in selected && row == RowOf(o)
      {
        if row in PlotRows(data, init) {
          var o :| o in data && o.comName in init && row == RowOf(o);
          assert o.comName in selected;
        } else {
          var rs := SelectOne(data, s);
          var i :| 0 <= i < |Rows(rs)| && Rows(rs)[i] == row;
          assert rs[i] in rs;
          assert rs[i].comName == s;
        }
      }
    }
  }

  /**
   * When no species is selected twice, the rows are exactly one row per
   * selected record: the same rows, regrouped by species.
   */
  lemma {:induction false} PlotRowsOnePerRecord(data: seq<Observation>, selected: seq<string>)
    requires NoDuplicates(selected)
    ensures multiset(PlotRows(data, selected)) == multiset(Rows(Select(data, selected)))
    decreases |selected|
  {
    if selected == [] {
      EmptySelection(data);
    } else {
      var init, s := selected[..|selected| - 1], selected[|selected| - 1];
      assert selected == init + [s];
      PlotRowsOnePerRecord(data, init);
      SelectionSplit(data, init, s);
    }
  }

  lemma {:induction false} EmptySelection(data: seq<Observation>)
    ensures Select(data, []) == []
  {
    if data != [] {
      EmptySelection(data[1..]);
    }
  }

  /** Selecting one more, new, species adds exactly that species' rows. */
  lemma {:induction false} SelectionSplit(data: seq<Observation>, init: seq<string>, s: string)
    requires s !in init
    ensures multiset(Rows(Select(data, init + [s]))) ==
            multiset(Rows(Select(data, init))) + multiset(Rows(SelectOne(data, s)))
  {
    if data != [] {
      SelectionSplit(data[1..], init, s);
      var o := data[0];
      var a, b, c := Select(data[1..], init + [s]), Select(data[1..], init), SelectOne(data[1..], s);
      if o.comName in init {
        assert Select(data, init + [s]) == [o] + a;
        assert Select(data, init) == [o] + b;
        assert SelectOne(data, s) == c;
      } else if o.comName == s {
        assert Select(data, init + [s]) == [o] + a;
        assert Select(data, init) == b;
        assert SelectOne(data, s) == [o] + c;
      } else {
        assert Select(data, init + [s]) == a;
        assert Select(data, init) == b;
        assert SelectOne(data, s) == c;
      }
    }
  }

  /** Rows in non-decreasing date order. */
  predicate DateSorted(rows: seq<PlotRow>) {
    forall i, j :: 0 <= i < j < |rows| ==> rows[i].date <= rows[j].date
  }

  /** The rows of one species (`df[df["species"] == species]`). */
  function SeriesOf(rows: seq<PlotRow>, species: string): seq<PlotRow>
  {
    Keep(rows, SpeciesIs(species))
  }

  function SpeciesIs(species: string): PlotRow -> bool {
    (row: PlotRow) => row.species == species
  }

  /** Each species' line, taken from date-sorted rows, is itself date-sorted. */
  lemma {:induction false} SeriesOfSorted(rows: seq<PlotRow>, species: string)
    requires DateSorted(rows)
    ensures DateSorted(SeriesOf(rows, species))
  {
    if rows != [] {
      SeriesOfSorted(rows[1..], species);
      var rest := SeriesOf(rows[1..], species);
      forall j | 0 <= j < |rest| ensures rows[0].date <= rest[j].date {
        assert rest[j] in rows[1..];
      }
    }
  }
}
