/**
 * The table-export demo page: its 100 generated sample rows (integer columns
 * only), the age histogram counted over them, and the numerically sorted
 * labels and counts handed to the chart.
 */
module AgeHistogram {

  /** The integer columns of one sample row. */
  datatype SampleRow = SampleRow(id: int, age: int, square: int, cube: int)

  const RowCount := 100

  /** Row `rowIdx` of the sample data. */
  function SampleRowAt(rowIdx: nat): (row: SampleRow)
    ensures row.id == rowIdx + 1
    ensures 20 <= row.age <= 59 && row.age == 20 + rowIdx % 40
    ensures row.square == row.age * row.age && row.cube == row.age * row.age * row.age
  {
    var age := 20 + rowIdx % 40;
    SampleRow(rowIdx + 1, age, age * age, age * age * age)
  }

  /** The first `n` sample rows. */
  function SamplePrefix(n: nat): seq<SampleRow>
  {
    seq(n, i requires 0 <= i => SampleRowAt(i))
  }

  /** `Array.from({ length: 100 }, ...)`. */
  function SampleData(): seq<SampleRow>
  {
    SamplePrefix(RowCount)
  }

  /** How many rows have the given age. */
  function Occurrences(rows: seq<SampleRow>, age: int): nat
  {
    if rows == [] then 0
    else Occurrences(rows[..|rows| - 1], age) + (if rows[|rows| - 1].age == age then 1 else 0)
  }

  /** An age occurs in the rows exactly when some row has it. */
  lemma {:induction false} OccursIffPresent(rows: seq<SampleRow>, age: int)
    ensures Occurrences(rows, age) > 0 <==> exists i :: 0 <= i < |rows| && rows[i].age == age
  {
    if rows != [] {
      var init := rows[..|rows| - 1];
      OccursIffPresent(init, age);
      assert forall i :: 0 <= i < |init| ==> init[i] == rows[i];
    }
  }

  /** The `forEach` loop that fills `ageCounts`: every age that occurs is a
      key, mapped to the number of rows that have it, and nothing else is. */
  method CountAges(rows: seq<SampleRow>) returns (counts: map<int, nat>)
    ensures forall a :: a in counts <==> Occurrences(rows, a) > 0
    ensures forall a :: a in counts ==> counts[a] == Occurrences(rows, a)
  {
    counts := map[];
    var i := 0;
    while i < |rows|
      invariant 0 <= i <= |rows|
      invariant forall a :: a in counts <==> Occurrences(rows[..i], a) > 0
      invariant forall a :: a in counts ==> counts[a] == Occurrences(rows[..i], a)
    {
      var age := rows[i].age;
      var previous := if age in counts then counts[age] else 0;
      counts := counts[age := previous + 1];
      assert rows[..i + 1][..i] == rows[..i];
      i := i + 1;
    }
    assert rows[..|rows|] == rows;
  }

  predicate StrictlyAscending(s: seq<int>)
  {
    forall i, j :: 0 <= i < j < |s| ==> s[i] < s[j]
  }

  /** Puts a new key into a strictly ascending list at its place. */
  function InsertSorted(s: seq<int>, k: int): (r: seq<int>)
    requires StrictlyAscending(s) && k !in s
    ensures StrictlyAscending(r)
    ensures |r| == |s| + 1
    ensures forall x :: x in r <==> x in s || x == k
  {
    if s == [] then [k]
    else if k < s[0] then [k] + s
    else
      var r := InsertSorted(s[1..], k);
      assert forall i :: 0 <= i < |r| ==> s[0] < r[i] by {
        forall i | 0 <= i < |r| ensures s[0] < r[i] {
          assert r[i] in r;
          if r[i] != k {
            var j :| 0 <= j < |s[1..]| && s[1..][j] == r[i];
            assert s[j + 1] == r[i];
          }
        }
      }
      [s[0]] + r
  }

  /** Some element of a non-empty set. */
  method Pick<T>(s: set<T>) returns (x: T)
    requires s != {}
    ensures x in s
  {
    x :| x in s;
  }

  /** `Object.keys(ageCounts).map(Number).sort((a, b) => a - b)`: the keys
      arrive in some order and come out strictly ascending. */
  method SortedLabels(counts: map<int, nat>) returns (labels: seq<int>)
    ensures StrictlyAscending(labels)
    ensures forall x :: x in labels <==> x in counts
    ensures |labels| == |counts|
  {
    labels := [];
    var remaining := counts.Keys;
    while remaining != {}
      invariant StrictlyAscending(labels)
      invariant forall x :: x in labels ==> x !in remaining
      invariant forall x :: x in counts <==> x in labels || x in remaining
      invariant |labels| + |remaining| == |counts|
      decreases |remaining|
    {
      var k := Pick(remaining);
      labels := InsertSorted(labels, k);
      remaining := remaining - {k};
    }
  }

  /** `ageLabels.map(age => ageCounts[age])`. */
  function HistogramData(labels: seq<int>, counts: map<int, nat>): (data: seq<nat>)
    requires forall k :: 0 <= k < |labels| ==> labels[k] in counts
    ensures |data| == |labels|
    ensures forall k :: 0 <= k < |labels| ==> data[k] == counts[labels[k]]
  {
    if labels == [] then [] else [counts[labels[0]]] + HistogramData(labels[1..], counts)
  }

  function Sum(s: seq<nat>): nat
  {
    if s == [] then 0 else s[0] + Sum(s[1..])
  }

  /** Total of the counts of the listed ages. */
  function SumOccurrences(rows: seq<SampleRow>, labels: seq<int>): nat
  {
    if labels == [] then 0 else Occurrences(rows, labels[0]) + SumOccurrences(rows, labels[1..])
  }

  /** How many times `a` is listed. */
  function Hits(labels: seq<int>, a: int): nat
  {
    if labels == [] then 0 else (if labels[0] == a then 1 else 0) + Hits(labels[1..], a)
  }

  lemma {:induction false} HitsOfAscending(labels: seq<int>, a: int)
    requires StrictlyAscending(labels)
    ensures Hits(labels, a) == if a in labels then 1 else 0
  {
    if labels != [] {
      HitsOfAscending(labels[1..], a);
      if labels[0] == a {
        assert a !in labels[1..];
      }
    }
  }

  lemma {:induction false} SumOccurrencesStep(rows: seq<SampleRow>, labels: seq<int>)
    requires rows != []
    ensures SumOccurrences(rows, labels)
         == SumOccurrences(rows[..|rows| - 1], labels) + Hits(labels, rows[|rows| - 1].age)
  {
    if labels != [] {
      SumOccurrencesStep(rows, labels[1..]);
    }
  }

  /** When the labels list every age once, their counts add up to the number
      of rows: the histogram accounts for every row exactly once. */
  lemma {:induction false} CountsAccountForEveryRow(rows: seq<SampleRow>, labels: seq<int>)
    requires StrictlyAscending(labels)
    requires forall i :: 0 <= i < |rows| ==> rows[i].age in labels
    ensures SumOccurrences(rows, labels) == |rows|
  {
    if rows == [] {
      ZeroCounts(labels);
    } else {
      var init := rows[..|rows| - 1];
      assert forall i :: 0 <= i < |init| ==> init[i] == rows[i];
      CountsAccountForEveryRow(init, labels);
      SumOccurrencesStep(rows, labels);
      HitsOfAscending(labels, rows[|rows| - 1].age);
    }
  }

  lemma {:induction false} ZeroCounts(labels: seq<int>)
    ensures SumOccurrences([], labels) == 0
  {
    if labels != [] {
      ZeroCounts(labels[1..]);
    }
  }

  lemma {:induction false} SumOfHistogram(rows: seq<SampleRow>, labels: seq<int>, counts: map<int, nat>)
    requires forall k :: 0 <= k < |labels| ==> labels[k] in counts && counts[labels[k]] == Occurrences(rows, labels[k])
    ensures Sum(HistogramData(labels, counts)) == SumOccurrences(rows, labels)
  {
    if labels != [] {
      SumOfHistogram(rows, labels[1..], counts);
      assert HistogramData(labels, counts)[1..] == HistogramData(labels[1..], counts);
    }
  }

  /** Among the first `n` rows, age `20 + k` occurs once per full or partial
      cycle of 40 rows that reaches it. */
  lemma {:induction false} PrefixOccurrences(n: nat, k: int)
    requires 0 <= k < 40
    ensures Occurrences(SamplePrefix(n), 20 + k) == (n + 39 - k) / 40
  {
    if n > 0 {
      PrefixOccurrences(n - 1, k);
      PrefixStep(n, 20 + k);
      CycleCount(n, k);
    }
  }

  /** Row `n - 1` adds one to the count of its own age and nothing else. */
  lemma PrefixStep(n: nat, age: int)
    requires n > 0
    ensures Occurrences(SamplePrefix(n), age)
         == Occurrences(SamplePrefix(n - 1), age) + (if 20 + (n - 1) % 40 == age then 1 else 0)
  {
    assert SamplePrefix(n)[..n - 1] == SamplePrefix(n - 1);
  }

  /** The number of indices below `n` that are `k` modulo 40 grows by one
      exactly at an index that is `k` modulo 40. */
  lemma CycleCount(n: nat, k: int)
    requires n > 0 && 0 <= k < 40
    ensures (n + 39 - k) / 40 == (n + 38 - k) / 40 + (if (n - 1) % 40 == k then 1 else 0)
  {
  }

  /** Ages 20 to 39 occur three times each and ages 40 to 59 twice each. */
  lemma SampleAgeCount(age: int)
    requires 20 <= age <= 59
    ensures Occurrences(SampleData(), age) == if age < 40 then 3 else 2
  {
    PrefixOccurrences(RowCount, age - 20);
  }

  /** The module-level histogram computation: counting, sorting the labels
      and reading the counts. The labels are the ages 20 to 59 in order, the
      counts are 3 for the first twenty and 2 for the rest, they match the
      counted map label by label, and they add up to the 100 rows. */
  method BuildHistogram() returns (counts: map<int, nat>, labels: seq<int>, data: seq<nat>)
    ensures labels == seq(40, k => 20 + k)
    ensures forall a :: a in counts <==> a in labels
    ensures |data| == |labels|
    ensures forall k :: 0 <= k < |labels| ==> labels[k] in counts && data[k] == counts[labels[k]]
    ensures forall k :: 0 <= k < |data| ==> data[k] == if k < 20 then 3 else 2
    ensures Sum(data) == RowCount
  {
    var rows := SampleData();
    counts := CountAges(rows);
    forall a | 20 <= a <= 59 ensures a in counts {
      SampleAgeCount(a);
    }
    forall a | a in counts ensures 20 <= a <= 59 {
      OccursIffPresent(rows, a);
    }
    labels := SortedLabels(counts);
    AscendingRange(labels, 20, 40);
    data := HistogramData(labels, counts);
    forall k | 0 <= k < |data| ensures data[k] == if k < 20 then 3 else 2 {
      SampleAgeCount(labels[k]);
    }
    CountsAccountForEveryRow(rows, labels);
    SumOfHistogram(rows, labels, counts);
  }

  /** A strictly ascending list holding exactly the integers `lo .. lo+n-1`
      is that range in order. */
  lemma {:induction false} AscendingRange(s: seq<int>, lo: int, n: nat)
    requires StrictlyAscending(s)
    requires forall x :: x in s <==> lo <= x < lo + n
    ensures s == seq(n, k => lo + k)
  {
    if n == 0 {
      HeadIsMember(s);
    } else {
      RangeHead(s, lo, n);
      AscendingRange(s[1..], lo + 1, n - 1);
      assert s == [s[0]] + s[1..];
    }
  }

  lemma HeadIsMember(s: seq<int>)
    ensures |s| > 0 ==> s[0] in s
  {
  }


  /** The least element of such a list is `lo`, and the rest holds the
      range that starts one higher. */
  lemma RangeHead(s: seq<int>, lo: int, n: nat)
    requires StrictlyAscending(s)
    requires forall x :: x in s <==> lo <= x < lo + n
    requires n > 0
    ensures s != [] && s[0] == lo
    ensures StrictlyAscending(s[1..])
    ensures forall x :: x in s[1..] <==> lo + 1 <= x < lo + n
  {
    assert lo in s;
    var j :| 0 <= j < |s| && s[j] == lo;
    assert s[0] in s;
    assert s[0] <= s[j];
    forall x | x in s[1..] ensures lo + 1 <= x < lo + n {
      var i :| 0 <= i < |s[1..]| && s[1..][i] == x;
      assert s[i + 1] == x && s[0] < s[i + 1];
      assert x in s;
    }
    forall x | lo + 1 <= x < lo + n ensures x in s[1..] {
      assert x in s;
      var i :| 0 <= i < |s| && s[i] == x;
      assert s[1..][i - 1] == x;
    }
  }
}
