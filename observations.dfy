/**
 * The observation records the dashboard receives from the recent-observations
 * endpoint, and the list filters every view applies to them.
 *
 * A record is one key/value map of the JSON array. `howMany`, `lat` and `lng`
 * may be absent from a record and are `Option`s; the other keys are taken to be
 * present in every record. Observation times are already parsed, counted in minutes.
 */
module Observations {

  datatype Option<+T> = None | Some(value: T) {
    /** The value, or `default` when absent (Python's `dict.get(key, default)`). */
    function GetOr(default: T): T {
      match this
      case Some(v) => v
      case None => default
    }
  }

  datatype Result<+T, +E> = Success(value: T) | Failure(error: E)

  /**
   * An observation time (`obsDt`, "YYYY-MM-DD HH:MM"), counted in minutes;
   * comparing two of them compares the times they stand for.
   */
  type Date = int

  datatype Observation = Observation(
    speciesCode: string,
    comName: string,
    sciName: string,
    locId: string,
    locName: string,
    obsDt: Date,
    howMany: Option<nat>,
    lat: Option<real>,
    lng: Option<real>,
    obsValid: bool,
    obsReviewed: bool,
    locationPrivate: bool,
    subId: string)

  /** True when the record carries both `lat` and `lng`. */
  predicate HasCoords(o: Observation) {
    o.lat.Some? && o.lng.Some?
  }

  /** `a` is `b` with some elements removed, the rest kept in their order. */
  ghost predicate Subseq<T>(a: seq<T>, b: seq<T>)
    decreases |b|
  {
    if a == [] then true
    else if b == [] then false
    else if a[0] == b[0] then Subseq(a[1..], b[1..])
    else Subseq(a, b[1..])
  }

  /** A list comprehension with a condition: `[x for x in xs if p(x)]`. */
  function Keep<T(!new)>(xs: seq<T>, p: T -> bool): (r: seq<T>)
    ensures |r| <= |xs|
    ensures forall x :: x in r <==> x in xs && p(x)
  {
    if xs == [] then []
    else if p(xs[0]) then [xs[0]] + Keep(xs[1..], p)
    else Keep(xs[1..], p)
  }

  /** Keep keeps every element that satisfies p, as often as it occurs, and nothing else. */
  lemma {:induction false} KeepCount<T(!new)>(xs: seq<T>, p: T -> bool, x: T)
    ensures multiset(Keep(xs, p))[x] == if p(x) then multiset(xs)[x] else 0
  {
    if xs != [] {
      KeepCount(xs[1..], p, x);
      assert xs == [xs[0]] + xs[1..];
    }
  }

  /** Keep preserves the original order. */
  lemma {:induction false} KeepIsSubseq<T(!new)>(xs: seq<T>, p: T -> bool)
    ensures Subseq(Keep(xs, p), xs)
  {
    if xs != [] {
      KeepIsSubseq(xs[1..], p);
      if !p(xs[0]) {
        SubseqSkipFirst(Keep(xs, p), xs);
      }
    }
  }

  /** Dropping the head of the longer sequence keeps a subsequence a subsequence. */
  lemma {:induction false} SubseqSkipFirst<T>(a: seq<T>, b: seq<T>)
    requires b != [] && Subseq(a, b[1..])
    ensures Subseq(a, b)
    decreases |b|, 1
  {
    if a != [] && a[0] == b[0] {
      // Subseq(a, b[1..]) with a[0] taken from further along b[1..]
      SubseqDropHead(a, b[1..]);
    }
  }

  /** A subsequence with its head removed is still a subsequence. */
  lemma {:induction false} SubseqDropHead<T>(a: seq<T>, b: seq<T>)
    requires a != [] && Subseq(a, b)
    ensures Subseq(a[1..], b)
    decreases |b|, 2
  {
    if b != [] {
      if a[0] == b[0] {
        SubseqSkipFirst(a[1..], b);
      } else {
        SubseqDropHead(a, b[1..]);
        SubseqSkipFirst(a[1..], b);
      }
    }
  }

  /** A filter that every element passes changes nothing. */
  lemma {:induction false} KeepAll<T(!new)>(xs: seq<T>, p: T -> bool)
    requires forall i :: 0 <= i < |xs| ==> p(xs[i])
    ensures Keep(xs, p) == xs
  {
    if xs != [] {
      KeepAll(xs[1..], p);
    }
  }

  /** The common names of the records, in record order (`[o["comName"] for o in records]`). */
  function Names(records: seq<Observation>): (r: seq<string>)
    ensures |r| == |records|
    ensures forall i :: 0 <= i < |records| ==> r[i] == records[i].comName
  {
    if records == [] then [] else [records[0].comName] + Names(records[1..])
  }

  /**
   * The selection filter shared by every view:
   * `[obs for obs in records if obs["comName"] in selected]`.
   */
  function Select(records: seq<Observation>, selected: seq<string>): seq<Observation>
  {
    Keep(records, NameIn(selected))
  }

  /** The condition of the selection filter. */
  function NameIn(selected: seq<string>): Observation -> bool {
    (o: Observation) => o.comName in selected
  }

  /**
   * Select returns exactly the records whose common name is selected, each as
   * often as it occurs, in their original order.
   */
  lemma SelectExactly(records: seq<Observation>, selected: seq<string>)
    ensures Subseq(Select(records, selected), records)
    ensures forall o :: multiset(Select(records, selected))[o] ==
                        if o.comName in selected then multiset(records)[o] else 0
  {
    KeepIsSubseq(records, NameIn(selected));
    forall o ensures multiset(Select(records, selected))[o] ==
                     if o.comName in selected then multiset(records)[o] else 0
    {
      KeepCount(records, NameIn(selected), o);
    }
  }

  /** `[obs for obs in records if obs["comName"] == species]`. */
  function SelectOne(records: seq<Observation>, species: string): seq<Observation>
  {
    Keep(records, NameIs(species))
  }

  /** The condition of a one-species filter. */
  function NameIs(species: string): Observation -> bool {
    (o: Observation) => o.comName == species
  }

  /** Selecting one name is selecting the list that holds only that name. */
  lemma {:induction false} SelectOneIsSelect(records: seq<Observation>, species: string)
    ensures SelectOne(records, species) == Select(records, [species])
  {
    if records != [] {
      SelectOneIsSelect(records[1..], species);
    }
  }

  /**
   * Order-preserving duplicate removal (`pandas.Series.unique`): every name
   * once, in the order of first appearance.
   */
  function Distinct(names: seq<string>): (r: seq<string>)
    ensures NoDuplicates(r)
    ensures forall n :: n in r <==> n in names
    ensures forall i, j :: 0 <= i < j < |r| ==> FirstIndex(names, r[i]) < FirstIndex(names, r[j])
  {
    var r := DistinctFrom(names, []);
    assert [] + r == r;
    DistinctFromOrder(names, []);
    r
  }

  /** The position of the first occurrence of `x`. */
  function FirstIndex<T(==)>(s: seq<T>, x: T): (k: nat)
    requires x in s
    ensures k < |s| && s[k] == x && x !in s[..k]
  {
    if s[0] == x then 0
    else
      assert s == [s[0]] + s[1..];
      var k := 1 + FirstIndex(s[1..], x);
      assert s[..k] == [s[0]] + s[1..][..k - 1];
      k
  }

  function DistinctFrom(names: seq<string>, seen: seq<string>): (r: seq<string>)
    requires NoDuplicates(seen)
    ensures NoDuplicates(seen + r)
    ensures forall n :: n in seen + r <==> n in seen || n in names
    ensures forall n :: n in r ==> n !in seen && n in names
    decreases |names|
  {
    if names == [] then
      assert seen + [] == seen;
      []
    else if names[0] in seen then DistinctFrom(names[1..], seen)
    else
      var rest := DistinctFrom(names[1..], seen + [names[0]]);
      assert seen + ([names[0]] + rest) == (seen + [names[0]]) + rest;
      assert names[0] in seen + [names[0]];
      [names[0]] + rest
  }

  /** A name after the head first occurs one place later than in the tail. */
  lemma FirstIndexTail(names: seq<string>, x: string)
    requires x in names && x != names[0]
    ensures x in names[1..] && FirstIndex(names, x) == 1 + FirstIndex(names[1..], x)
  {
    assert names == [names[0]] + names[1..];
  }

  /** `DistinctFrom` keeps names in the order of their first appearance. */
  lemma {:induction false} DistinctFromOrder(names: seq<string>, seen: seq<string>)
    requires NoDuplicates(seen)
    ensures forall i, j :: 0 <= i < j < |DistinctFrom(names, seen)| ==>
              var r := DistinctFrom(names, seen);
              r[i] in names && r[j] in names && FirstIndex(names, r[i]) < FirstIndex(names, r[j])
    decreases |names|
  {
    if names != [] {
      var r := DistinctFrom(names, seen);
      var seen' := if names[0] in seen then seen else seen + [names[0]];
      var rest := DistinctFrom(names[1..], seen');
      DistinctFromOrder(names[1..], seen');
      assert names[0] in seen';
      forall i | 0 <= i < |rest|
        ensures rest[i] in names && FirstIndex(names, rest[i]) == 1 + FirstIndex(names[1..], rest[i])
      {
        assert rest[i] in rest;
        FirstIndexTail(names, rest[i]);
      }
      if names[0] !in seen {
        assert r == [names[0]] + rest;
      }
    }
  }

  predicate NoDuplicates<T(==)>(s: seq<T>) {
    forall i, j :: 0 <= i < j < |s| ==> s[i] != s[j]
  }

  /** Filtering by the list of all names that occur keeps every record. */
  lemma SelectAllNames(records: seq<Observation>)
    ensures Select(records, Distinct(Names(records))) == records
  {
    var all := Distinct(Names(records));
    forall i | 0 <= i < |records| ensures records[i].comName in all {
      assert Names(records)[i] == records[i].comName;
    }
    KeepAll(records, NameIn(all));
  }
}
