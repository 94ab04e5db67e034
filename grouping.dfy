/**
 * The order pandas gives string keys: Python compares strings
 * lexicographically, character by character.
 */
module KeyOrder {
  import opened Observations

  /** Python's `a < b` on strings. */
  predicate StrLt(a: string, b: string)
    decreases |a|
  {
    if a == [] then b != []
    else if b == [] then false
    else if a[0] != b[0] then a[0] < b[0]
    else StrLt(a[1..], b[1..])
  }

  lemma {:induction false} StrLtIrreflexive(a: string)
    ensures !StrLt(a, a)
  {
    if a != [] {
      StrLtIrreflexive(a[1..]);
    }
  }

  lemma {:induction false} StrLtTransitive(a: string, b: string, c: string)
    requires StrLt(a, b) && StrLt(b, c)
    ensures StrLt(a, c)
    decreases |a|
  {
    if a != [] && a[0] == b[0] && b[0] == c[0] {
      StrLtTransitive(a[1..], b[1..], c[1..]);
    }
  }

  /** Any two different strings are ordered one way or the other. */
  lemma {:induction false} StrLtTotal(a: string, b: string)
    ensures a == b || StrLt(a, b) || StrLt(b, a)
    decreases |a|
  {
    if a != [] && b != [] && a[0] == b[0] {
      StrLtTotal(a[1..], b[1..]);
      if a[1..] == b[1..] {
        assert a == [a[0]] + a[1..] && b == [b[0]] + b[1..];
      }
    }
  }

  /** A group-by key: the pair (date, species). */
  datatype Key = Key(date: Date, species: string)

  /** The order of `groupby(["date", "species"])`: by date, then by species. */
  predicate KeyLt(k: Key, l: Key) {
    k.date < l.date || (k.date == l.date && StrLt(k.species, l.species))
  }

  lemma KeyLtIrreflexive(k: Key)
    ensures !KeyLt(k, k)
  {
    StrLtIrreflexive(k.species);
  }

  lemma KeyLtTransitive(k: Key, l: Key, m: Key)
    requires KeyLt(k, l) && KeyLt(l, m)
    ensures KeyLt(k, m)
  {
    if k.date == l.date == m.date {
      StrLtTransitive(k.species, l.species, m.species);
    }
  }

  lemma KeyLtTotal(k: Key, l: Key)
    ensures k == l || KeyLt(k, l) || KeyLt(l, k)
  {
    StrLtTotal(k.species, l.species);
  }
}

/**
 * `df.groupby(["date", "species"]).sum().reset_index()` on the bar graph's
 * rows: one group per distinct (date, species), keys in ascending order, each
 * carrying the sum of the populations of its rows.
 */
module GroupBy {
  import opened Observations
  import opened ChartRows
  import opened KeyOrder

  datatype Group = Group(key: Key, population: nat)

  function KeyOf(row: PlotRow): Key {
    Key(row.date, row.species)
  }

  /** Keys strictly ascending from each group to the next. */
  predicate Ascending(g: seq<Group>) {
    forall i :: 0 <= i < |g| - 1 ==> KeyLt(g[i].key, g[i + 1].key)
  }

  /** Adds population p under key k, keeping the keys ascending. */
  function Insert(g: seq<Group>, k: Key, p: nat): (r: seq<Group>)
    ensures r != []
    ensures r[0].key == k || (g != [] && r[0].key == g[0].key)
  {
    if g == [] then [Group(k, p)]
    else if g[0].key == k then [Group(k, g[0].population + p)] + g[1..]
    else if KeyLt(k, g[0].key) then [Group(k, p)] + g
    else [g[0]] + Insert(g[1..], k, p)
  }

  /** The grouped sums of the rows. */
  function GroupSum(rows: seq<PlotRow>): seq<Group>
  {
    if rows == [] then []
    else Insert(GroupSum(rows[1..]), KeyOf(rows[0]), rows[0].population)
  }

  /** The population of the rows with key k. */
  function SumFor(rows: seq<PlotRow>, k: Key): nat
  {
    if rows == [] then 0
    else (if KeyOf(rows[0]) == k then rows[0].population else 0) + SumFor(rows[1..], k)
  }

  /** The population of all rows. */
  function TotalPopulation(rows: seq<PlotRow>): nat
  {
    if rows == [] then 0 else rows[0].population + TotalPopulation(rows[1..])
  }

  /** The population of all groups. */
  function GroupTotal(g: seq<Group>): nat
  {
    if g == [] then 0 else g[0].population + GroupTotal(g[1..])
  }

  /** The keys of the groups. */
  function KeysOf(g: seq<Group>): set<Key>
  {
    if g == [] then {} else {g[0].key} + KeysOf(g[1..])
  }

  /** The keys of the rows. */
  function RowKeys(rows: seq<PlotRow>): set<Key>
  {
    if rows == [] then {} else {KeyOf(rows[0])} + RowKeys(rows[1..])
  }

  /** The population under key k, 0 when k is not a group. */
  function Lookup(g: seq<Group>, k: Key): nat
  {
    if g == [] then 0
    else if g[0].key == k then g[0].population
    else Lookup(g[1..], k)
  }

  lemma {:induction false} InsertAscending(g: seq<Group>, k: Key, p: nat)
    requires Ascending(g)
    ensures Ascending(Insert(g, k, p))
  {
    if g != [] && g[0].key != k && !KeyLt(k, g[0].key) {
      InsertAscending(g[1..], k, p);
      KeyLtTotal(k, g[0].key);
    }
  }

  lemma {:induction false} InsertKeys(g: seq<Group>, k: Key, p: nat)
    ensures KeysOf(Insert(g, k, p)) == KeysOf(g) + {k}
  {
    if g != [] {
      if g[0].key == k {
        assert KeysOf(Insert(g, k, p)) == {k} + KeysOf(g[1..]);
      } else if KeyLt(k, g[0].key) {
        assert Insert(g, k, p)[1..] == g;
      } else {
        InsertKeys(g[1..], k, p);
        assert Insert(g, k, p)[1..] == Insert(g[1..], k, p);
      }
    }
  }

  lemma {:induction false} InsertTotal(g: seq<Group>, k: Key, p: nat)
    ensures GroupTotal(Insert(g, k, p)) == GroupTotal(g) + p
  {
    if g != [] {
      if g[0].key == k {
        assert Insert(g, k, p)[1..] == g[1..];
      } else if KeyLt(k, g[0].key) {
        assert Insert(g, k, p)[1..] == g;
      } else {
        InsertTotal(g[1..], k, p);
        assert Insert(g, k, p)[1..] == Insert(g[1..], k, p);
      }
    }
  }

  /** In ascending groups, a key below the first key is not a group. */
  lemma {:induction false} BelowFirstAbsent(g: seq<Group>, k: Key)
    requires Ascending(g) && g != [] && KeyLt(k, g[0].key)
    ensures k !in KeysOf(g)
  {
    KeyLtIrreflexive(k);
    if |g| > 1 {
      KeyLtTransitive(k, g[0].key, g[1].key);
      BelowFirstAbsent(g[1..], k);
    }
  }

  lemma {:induction false} LookupAbsent(g: seq<Group>, k: Key)
    requires k !in KeysOf(g)
    ensures Lookup(g, k) == 0
  {
    if g != [] {
      LookupAbsent(g[1..], k);
    }
  }

  lemma {:induction false} InsertLookup(g: seq<Group>, k: Key, p: nat, l: Key)
    requires Ascending(g)
    ensures Lookup(Insert(g, k, p), l) == Lookup(g, l) + (if l == k then p else 0)
  {
    if g != [] {
      if g[0].key == k {
        assert Insert(g, k, p)[1..] == g[1..];
      } else if KeyLt(k, g[0].key) {
        assert Insert(g, k, p)[1..] == g;
        if l == k {
          BelowFirstAbsent(g, k);
          LookupAbsent(g, k);
        }
      } else {
        InsertLookup(g[1..], k, p, l);
        assert Insert(g, k, p)[1..] == Insert(g[1..], k, p);
      }
    }
  }

  /** The groups come out in strictly ascending key order. */
  lemma {:induction false} GroupSumAscending(rows: seq<PlotRow>)
    ensures Ascending(GroupSum(rows))
  {
    if rows != [] {
      GroupSumAscending(rows[1..]);
      InsertAscending(GroupSum(rows[1..]), KeyOf(rows[0]), rows[0].population);
    }
  }

  /** The groups are exactly the keys that occur among the rows. */
  lemma {:induction false} GroupSumKeys(rows: seq<PlotRow>)
    ensures KeysOf(GroupSum(rows)) == RowKeys(rows)
  {
    if rows != [] {
      GroupSumKeys(rows[1..]);
      InsertKeys(GroupSum(rows[1..]), KeyOf(rows[0]), rows[0].population);
    }
  }

  /** Under every key, the grouped population is the sum over the rows with that key. */
  lemma {:induction false} GroupSumLookup(rows: seq<PlotRow>, k: Key)
    ensures Lookup(GroupSum(rows), k) == SumFor(rows, k)
  {
    if rows != [] {
      GroupSumLookup(rows[1..], k);
      GroupSumAscending(rows[1..]);
      InsertLookup(GroupSum(rows[1..]), KeyOf(rows[0]), rows[0].population, k);
    }
  }

  /** Grouping loses no population: the grand total equals the total of the rows. */
  lemma {:induction false} GroupSumTotal(rows: seq<PlotRow>)
    ensures GroupTotal(GroupSum(rows)) == TotalPopulation(rows)
  {
    if rows != [] {
      GroupSumTotal(rows[1..]);
      InsertTotal(GroupSum(rows[1..]), KeyOf(rows[0]), rows[0].population);
    }
  }

  /** Ascending keys never repeat. */
  lemma {:induction false} AscendingOrdered(g: seq<Group>, i: nat, j: nat)
    requires Ascending(g) && i < j < |g|
    ensures KeyLt(g[i].key, g[j].key)
    decreases j - i
  {
    if i + 1 < j {
      AscendingOrdered(g, i + 1, j);
      KeyLtTransitive(g[i].key, g[i + 1].key, g[j].key);
    }
  }

  lemma AscendingDistinct(g: seq<Group>)
    requires Ascending(g)
    ensures forall i, j :: 0 <= i < j < |g| ==> g[i].key != g[j].key
  {
    forall i, j | 0 <= i < j < |g| ensures g[i].key != g[j].key {
      AscendingOrdered(g, i, j);
      KeyLtIrreflexive(g[i].key);
    }
  }

  /** With distinct keys, the lookup of a group's key finds that group. */
  lemma {:induction false} LookupAt(g: seq<Group>, i: nat)
    requires i < |g|
    requires forall a, b :: 0 <= a < b < |g| ==> g[a].key != g[b].key
    ensures Lookup(g, g[i].key) == g[i].population
  {
    if i > 0 {
      assert g[0].key != g[i].key;
      LookupAt(g[1..], i - 1);
    }
  }

  /**
   * The result of the group-by: keys strictly ascending (so each occurs once),
   * exactly the keys of the rows, each group's population the sum over its
   * rows, and the same grand total.
   */
  lemma GroupSumCorrect(rows: seq<PlotRow>)
    ensures Ascending(GroupSum(rows))
    ensures forall i, j :: 0 <= i < j < |GroupSum(rows)| ==> GroupSum(rows)[i].key != GroupSum(rows)[j].key
    ensures KeysOf(GroupSum(rows)) == RowKeys(rows)
    ensures forall i :: 0 <= i < |GroupSum(rows)| ==>
              GroupSum(rows)[i].population == SumFor(rows, GroupSum(rows)[i].key)
    ensures GroupTotal(GroupSum(rows)) == TotalPopulation(rows)
  {
    var g := GroupSum(rows);
    GroupSumAscending(rows);
    AscendingDistinct(g);
    GroupSumKeys(rows);
    forall i | 0 <= i < |g| ensures g[i].population == SumFor(rows, g[i].key) {
      LookupAt(g, i);
      GroupSumLookup(rows, g[i].key);
    }
    GroupSumTotal(rows);
  }

  lemma {:induction false} TotalConcat(a: seq<PlotRow>, b: seq<PlotRow>)
    ensures TotalPopulation(a + b) == TotalPopulation(a) + TotalPopulation(b)
  {
    if a == [] {
      assert a + b == b;
    } else {
      assert (a + b)[1..] == a[1..] + b;
      TotalConcat(a[1..], b);
    }
  }

  /** Taking one row out of a list takes its population out of the total. */
  lemma RemoveAt(b: seq<PlotRow>, k: nat)
    requires k < |b|
    ensures multiset(b[..k] + b[k + 1..]) == multiset(b) - multiset{b[k]}
    ensures TotalPopulation(b) == b[k].population + TotalPopulation(b[..k] + b[k + 1..])
  {
    var front, back := b[..k], b[k + 1..];
    var tail := b[k..];
    assert tail == [b[k]] + back;
    assert b == front + tail;
    assert multiset(b) == multiset(front) + multiset(tail);
    assert multiset(tail) == multiset{b[k]} + multiset(back);
    assert multiset(front + back) == multiset(front) + multiset(back);
    assert tail[1..] == back;
    TotalConcat(front, tail);
    TotalConcat(front, back);
  }

  /** The total population does not depend on the order of the rows. */
  lemma {:induction false} TotalPermutation(a: seq<PlotRow>, b: seq<PlotRow>)
    requires multiset(a) == multiset(b)
    ensures TotalPopulation(a) == TotalPopulation(b)
    decreases |a|
  {
    if a == [] {
      assert |b| == |multiset(b)| == 0;
    } else {
      var k := MatchHead(a, b);
      RemoveAt(b, k);
      TotalPermutation(a[1..], b[..k] + b[k + 1..]);
    }
  }

  /**
   * Where the first row of a lies in a reordering b of it, and what is left
   * of both once that row is taken out.
   */
  lemma MatchHead(a: seq<PlotRow>, b: seq<PlotRow>) returns (k: nat)
    requires a != [] && multiset(a) == multiset(b)
    ensures k < |b| && b[k] == a[0]
    ensures multiset(a[1..]) == multiset(b[..k] + b[k + 1..])
  {
    assert a[0] in multiset(a);
    assert a[0] in b;
    k :| 0 <= k < |b| && b[k] == a[0];
    RemoveAt(b, k);
    assert a == [a[0]] + a[1..];
    assert multiset(a[1..]) == multiset(a) - multiset{a[0]};
  }

  /** The groups turned back into rows (one row per group). */
  function AsRows(g: seq<Group>): (r: seq<PlotRow>)
    ensures |r| == |g|
  {
    if g == [] then [] else [PlotRow(g[0].key.species, g[0].key.date, g[0].population)] + AsRows(g[1..])
  }

  /** Grouping already-grouped rows again changes nothing. */
  lemma {:induction false} GroupSumIdempotent(g: seq<Group>)
    requires Ascending(g)
    ensures GroupSum(AsRows(g)) == g
  {
    if g != [] {
      var rows := AsRows(g);
      assert rows[1..] == AsRows(g[1..]);
      GroupSumIdempotent(g[1..]);
      assert KeyOf(rows[0]) == g[0].key;
      if |g| > 1 {
        KeyLtIrreflexive(g[0].key);
        assert g[1..][0] == g[1];
      }
      assert g == [g[0]] + g[1..];
    }
  }

  lemma RegroupIsIdentity(rows: seq<PlotRow>)
    ensures GroupSum(AsRows(GroupSum(rows))) == GroupSum(rows)
  {
    GroupSumAscending(rows);
    GroupSumIdempotent(GroupSum(rows));
  }
}
