/** `getExperiences` of src/server/data.ts: the collection entries are sorted in place by
    year, latest first, with `Array.prototype.sort`'s stability, and then projected to
    their `data`. */
module Experiences {
  import opened Js

  /** The front matter of an experience; only `year` takes part in the ordering. */
  datatype ExperienceData = ExperienceData(year: int, fields: map<string, JsValue>)

  /** A collection entry. */
  datatype Entry = Entry(id: string, data: ExperienceData)

  function Year(e: Entry): int
  {
    e.data.year
  }

  /** No entry has a later year than the one before it. */
  predicate LatestFirst(s: seq<Entry>)
  {
    forall i, j :: 0 <= i < j < |s| ==> Year(s[i]) >= Year(s[j])
  }

  /** The entries of one year, in their order. */
  function OfYear(s: seq<Entry>, y: int): seq<Entry>
  {
    if s == [] then []
    else OfYear(s[..|s| - 1], y) + (if Year(s[|s| - 1]) == y then [s[|s| - 1]] else [])
  }

  /** Insertion of `x` behind every entry whose year is at least its own. */
  function Insert(sorted: seq<Entry>, x: Entry): (r: seq<Entry>)
    ensures |r| == |sorted| + 1
    decreases |sorted|
  {
    if sorted == [] || Year(sorted[|sorted| - 1]) >= Year(x) then sorted + [x]
    else Insert(sorted[..|sorted| - 1], x) + [sorted[|sorted| - 1]]
  }

  /** The stable sort by the comparator `b.data.year - a.data.year`. */
  function SortByYear(s: seq<Entry>): (r: seq<Entry>)
    ensures |r| == |s|
  {
    if s == [] then [] else Insert(SortByYear(s[..|s| - 1]), s[|s| - 1])
  }

  lemma {:induction false} InsertPermutes(sorted: seq<Entry>, x: Entry)
    ensures multiset(Insert(sorted, x)) == multiset(sorted) + multiset{x}
    decreases |sorted|
  {
    if !(sorted == [] || Year(sorted[|sorted| - 1]) >= Year(x)) {
      var init := sorted[..|sorted| - 1];
      InsertPermutes(init, x);
      assert sorted == init + [sorted[|sorted| - 1]];
    }
  }

  lemma {:induction false} InsertKeepsOrder(sorted: seq<Entry>, x: Entry)
    requires LatestFirst(sorted)
    ensures LatestFirst(Insert(sorted, x))
    ensures forall i :: 0 <= i < |Insert(sorted, x)| ==> Insert(sorted, x)[i] == x || Insert(sorted, x)[i] in sorted
    decreases |sorted|
  {
    if !(sorted == [] || Year(sorted[|sorted| - 1]) >= Year(x)) {
      var init := sorted[..|sorted| - 1];
      var last := sorted[|sorted| - 1];
      InsertKeepsOrder(init, x);
      var r := Insert(init, x);
      forall i | 0 <= i < |r| ensures Year(r[i]) >= Year(last) {
        if r[i] != x {
          var k :| 0 <= k < |init| && init[k] == r[i];
          assert sorted[k] == init[k];
        }
      }
    }
  }

  /** The year classes of an insertion: `x` lands behind every entry of its own year. */
  lemma {:induction false} InsertOfYear(sorted: seq<Entry>, x: Entry, y: int)
    ensures OfYear(Insert(sorted, x), y) == OfYear(sorted, y) + (if Year(x) == y then [x] else [])
    decreases |sorted|
  {
    if sorted == [] || Year(sorted[|sorted| - 1]) >= Year(x) {
      assert (sorted + [x])[..|sorted|] == sorted;
    } else {
      var init := sorted[..|sorted| - 1];
      var last := sorted[|sorted| - 1];
      var r := Insert(init, x);
      InsertOfYear(init, x, y);
      assert (r + [last])[..|r|] == r;
      assert Year(last) < Year(x);
      assert OfYear(sorted, y) == OfYear(init, y) + (if Year(last) == y then [last] else []);
    }
  }

  /** The sorted entries are a permutation of the input, latest year first. */
  lemma {:induction false} SortByYearSortsAndPermutes(s: seq<Entry>)
    ensures LatestFirst(SortByYear(s))
    ensures multiset(SortByYear(s)) == multiset(s)
  {
    if s != [] {
      var init := s[..|s| - 1];
      SortByYearSortsAndPermutes(init);
      InsertKeepsOrder(SortByYear(init), s[|s| - 1]);
      InsertPermutes(SortByYear(init), s[|s| - 1]);
      assert s == init + [s[|s| - 1]];
    }
  }

  /** Stability: the entries of every year keep their collection order. */
  lemma {:induction false} SortByYearIsStable(s: seq<Entry>, y: int)
    ensures OfYear(SortByYear(s), y) == OfYear(s, y)
  {
    if s != [] {
      var init := s[..|s| - 1];
      SortByYearIsStable(init, y);
      InsertOfYear(SortByYear(init), s[|s| - 1], y);
    }
  }

  /** Where the inner loop stops: behind the last entry whose year is at least that of
      `x`, and in front of the entries of an earlier year. */
  lemma {:induction false} InsertAt(sorted: seq<Entry>, x: Entry, j: nat)
    requires j <= |sorted| && (j == 0 || Year(sorted[j - 1]) >= Year(x))
    requires forall k :: j <= k < |sorted| ==> Year(sorted[k]) < Year(x)
    ensures Insert(sorted, x) == sorted[..j] + [x] + sorted[j..]
    decreases |sorted|
  {
    if j < |sorted| {
      var init := sorted[..|sorted| - 1];
      InsertAt(init, x, j);
      assert init[..j] == sorted[..j];
      assert sorted[j..] == init[j..] + [sorted[|sorted| - 1]];
    } else {
      assert sorted[..j] == sorted;
    }
  }

  /** `experienceEntries.sort(...)`: an insertion sort that moves each entry in front of
      the entries with an earlier year. */
  method SortEntries(a: array<Entry>)
    modifies a
    ensures a[..] == SortByYear(old(a[..]))
  {
    ghost var input := a[..];
    var i := 0;
    while i < a.Length
      invariant 0 <= i <= a.Length
      invariant a[..i] == SortByYear(input[..i]) && a[i..] == input[i..]
    {
      ghost var sorted := a[..i];
      assert input[..i + 1][..i] == input[..i];
      InsertEntry(a, i);
      assert a[..i + 1] == Insert(sorted, input[i]);
      i := i + 1;
    }
    assert input[..a.Length] == input;
  }

  /** The inner loop: `a[..i]` is sorted; the entry at `i` is inserted into it. */
  method InsertEntry(a: array<Entry>, i: nat)
    requires i < a.Length
    modifies a
    ensures a[..i + 1] == Insert(old(a[..i]), old(a[i]))
    ensures a[i + 1..] == old(a[i + 1..])
  {
    ghost var sorted := a[..i];
    var x := a[i];
    var j := i;
    while j > 0 && Year(a[j - 1]) < Year(x)
      invariant 0 <= j <= i
      invariant forall k :: 0 <= k < j ==> a[k] == sorted[k]
      invariant forall k :: j < k <= i ==> a[k] == sorted[k - 1]
      invariant forall k :: i < k < a.Length ==> a[k] == old(a[k])
      invariant forall k :: j <= k < i ==> Year(sorted[k]) < Year(x)
    {
      a[j] := a[j - 1];
      j := j - 1;
    }
    a[j] := x;
    InsertAt(sorted, x, j);
    InsertedAt(a[..i + 1], sorted, x, j);
  }

  /** The array after the inner loop, read as a sequence. */
  lemma InsertedAt(r: seq<Entry>, sorted: seq<Entry>, x: Entry, j: nat)
    requires j <= |sorted| && |r| == |sorted| + 1 && r[j] == x
    requires forall k :: 0 <= k < j ==> r[k] == sorted[k]
    requires forall k :: j < k < |r| ==> r[k] == sorted[k - 1]
    ensures r == sorted[..j] + [x] + sorted[j..]
  {
  }

  /** `sortedEntries.map((entry) => entry.data)` */
  function DataOf(s: seq<Entry>): (r: seq<ExperienceData>)
    ensures |r| == |s| && forall i :: 0 <= i < |s| ==> r[i] == s[i].data
  {
    seq(|s|, i requires 0 <= i < |s| => s[i].data)
  }

  /** `getExperiences`: the entries fetched from the collection are sorted in place, and
      their `data` returned in that order. */
  method GetExperiences(entries: array<Entry>) returns (r: seq<ExperienceData>)
    modifies entries
    ensures entries[..] == SortByYear(old(entries[..]))
    ensures r == DataOf(entries[..])
  {
    SortEntries(entries);
    r := DataOf(entries[..]);
  }

  /** What the page receives: every year non-increasing, one item per entry, the multiset
      of the entries' data, and each year's items in collection order. */
  lemma ExperiencesOrdered(entries: seq<Entry>, y: int)
    ensures var out := DataOf(SortByYear(entries));
      && |out| == |entries|
      && (forall i, j :: 0 <= i < j < |out| ==> out[i].year >= out[j].year)
      && multiset(SortByYear(entries)) == multiset(entries)
      && OfYear(SortByYear(entries), y) == OfYear(entries, y)
  {
    SortByYearSortsAndPermutes(entries);
    SortByYearIsStable(entries, y);
  }
}
