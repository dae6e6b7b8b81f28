/**
 The list of networks the app shows: scan results in order of signal strength, one entry for each name, with the bands
 on which any access point of that name was seen.
 */
module ScanMerge {

  datatype ScanResult = ScanResult(ssid: string, level: int, frequency: int)

  function Abs(n: int): nat {
    if n < 0 then -n else n
  }

  // ----- bands

  const NO_BAND: int := 0
  const BAND_24G: int := 1
  const BAND_5G: int := 2
  const BOTH_BANDS: int := 3

  predicate Is24G(frequency: int) {
    2000 <= frequency < 4000
  }

  predicate Is5G(frequency: int) {
    5000 <= frequency < 10000
  }

  predicate Has24G(supportFreq: int) {
    supportFreq == BAND_24G || supportFreq == BOTH_BANDS
  }

  predicate Has5G(supportFreq: int) {
    supportFreq == BAND_5G || supportFreq == BOTH_BANDS
  }

  /** frequencySupport, called with 1: shifts a one to the bit of the band, and looks at the bits. */
  method FrequencySupport(frequency: int, tmpfreq: bv32) returns (r: int)
    requires tmpfreq == 1
    ensures NO_BAND <= r <= BAND_5G && (Has24G(r) <==> Is24G(frequency)) && (Has5G(r) <==> Is5G(frequency))
  {
    var bits := tmpfreq;
    if frequency / 2000 == 1 {
      bits := bits << 1;
    }
    if frequency / 5000 == 1 {
      bits := bits << 2;
    }
    if bits & 2 != 0 {
      return 1;
    }
    if bits & 4 != 0 {
      return 2;
    }
    if bits & 8 != 0 {
      return 3;
    }
    return 0;
  }

  // ----- the order of the results

  /** A stable sort: each result goes after those that are no weaker. */
  function Insert(sorted: seq<ScanResult>, r: ScanResult): seq<ScanResult> {
    if sorted == [] then [r]
    else if Abs(sorted[0].level) <= Abs(r.level) then [sorted[0]] + Insert(sorted[1..], r)
    else [r] + sorted
  }

  function Sort(results: seq<ScanResult>): seq<ScanResult> {
    if results == [] then [] else Insert(Sort(results[..|results| - 1]), results[|results| - 1])
  }

  ghost predicate Ordered(results: seq<ScanResult>) {
    |results| >= 2 ==> Abs(results[0].level) <= Abs(results[1].level) && Ordered(results[1..])
  }

  lemma {:induction false} OrderedPairs(results: seq<ScanResult>, i: nat, j: nat)
    requires Ordered(results) && i < j < |results|
    ensures Abs(results[i].level) <= Abs(results[j].level)
  {
    if i > 0 {
      OrderedPairs(results[1..], i - 1, j - 1);
    } else if j > 1 {
      OrderedPairs(results[1..], 0, j - 1);
    }
  }

  /** The results of one strength, in order. */
  function OfLevel(results: seq<ScanResult>, level: nat): seq<ScanResult> {
    if results == [] then []
    else IfLevel(results[0], level) + OfLevel(results[1..], level)
  }

  /** The result itself, if it is of this strength. */
  function IfLevel(r: ScanResult, level: nat): seq<ScanResult> {
    if Abs(r.level) == level then [r] else []
  }

  lemma OfLevelCons(r: ScanResult, rest: seq<ScanResult>, level: nat)
    ensures OfLevel([r] + rest, level) == IfLevel(r, level) + OfLevel(rest, level)
  {
    assert ([r] + rest)[1..] == rest;
  }

  lemma Assoc(a: seq<ScanResult>, b: seq<ScanResult>, c: seq<ScanResult>)
    ensures a + (b + c) == (a + b) + c
  {
  }

  lemma {:induction false} OfLevelSnoc(results: seq<ScanResult>, r: ScanResult, level: nat)
    ensures OfLevel(results + [r], level) == OfLevel(results, level) + IfLevel(r, level)
  {
    if results == [] {
      assert [] + [r] == [r] + [];
      OfLevelCons(r, [], level);
    } else {
      var first, rest := results[0], results[1..];
      hide OfLevel, IfLevel;
      OfLevelSnoc(rest, r, level);
      OfLevelCons(first, rest, level);
      OfLevelCons(first, rest + [r], level);
      assert results == [first] + rest && results + [r] == [first] + (rest + [r]);
      Assoc(IfLevel(first, level), OfLevel(rest, level), IfLevel(r, level));
    }
  }

  lemma {:induction false} NoneAsStrong(sorted: seq<ScanResult>, level: nat)
    requires Ordered(sorted) && (sorted != [] ==> Abs(sorted[0].level) > level)
    ensures OfLevel(sorted, level) == []
  {
    if sorted != [] {
      NoneAsStrong(sorted[1..], level);
    }
  }

  lemma {:induction false} InsertOrdered(sorted: seq<ScanResult>, r: ScanResult)
    requires Ordered(sorted)
    ensures var s := Insert(sorted, r); Ordered(s) && s != [] && (s[0] == r || (sorted != [] && s[0] == sorted[0]))
  {
    if sorted != [] {
      if Abs(sorted[0].level) <= Abs(r.level) {
        InsertOrdered(sorted[1..], r);
        assert Insert(sorted, r)[1..] == Insert(sorted[1..], r);
      } else {
        assert Insert(sorted, r)[1..] == sorted;
      }
    }
  }

  lemma {:induction false} InsertAdds(sorted: seq<ScanResult>, r: ScanResult)
    ensures multiset(Insert(sorted, r)) == multiset(sorted) + multiset{r}
  {
    if sorted != [] {
      InsertAdds(sorted[1..], r);
      assert sorted == [sorted[0]] + sorted[1..];
    }
  }

  lemma {:induction false} InsertLast(sorted: seq<ScanResult>, r: ScanResult, level: nat)
    requires Ordered(sorted)
    ensures OfLevel(Insert(sorted, r), level) == OfLevel(sorted, level) + IfLevel(r, level)
  {
    if sorted == [] {
      assert [r] == [r] + [];
      OfLevelCons(r, [], level);
    } else if Abs(sorted[0].level) <= Abs(r.level) {
      var first, rest := sorted[0], sorted[1..];
      InsertLast(rest, r, level);
      hide OfLevel, IfLevel, Ordered;
      OfLevelCons(first, rest, level);
      OfLevelCons(first, Insert(rest, r), level);
      assert sorted == [first] + rest;
      Assoc(IfLevel(first, level), OfLevel(rest, level), IfLevel(r, level));
    } else {
      OfLevelCons(r, sorted, level);
      if Abs(r.level) == level {
        NoneAsStrong(sorted, level);
      }
    }
  }

  /** Sorting orders the results by strength, loses none, and leaves those of the same strength in their order. */
  lemma {:induction false} SortIsStable(results: seq<ScanResult>, level: nat)
    ensures Ordered(Sort(results)) && multiset(Sort(results)) == multiset(results)
    ensures OfLevel(Sort(results), level) == OfLevel(results, level)
  {
    if results != [] {
      var front, last := results[..|results| - 1], results[|results| - 1];
      assert results == front + [last];
      SortIsStable(front, level);
      InsertOrdered(Sort(front), last);
      InsertAdds(Sort(front), last);
      InsertLast(Sort(front), last, level);
      hide Insert, Ordered, OfLevel, IfLevel;
      OfLevelSnoc(front, last, level);
    }
  }

  // ----- what the list is to hold

  datatype Entry = Entry(result: ScanResult, supportFreq: int)

  function Band(frequency: int): int {
    if Is24G(frequency) then BAND_24G else if Is5G(frequency) then BAND_5G else NO_BAND
  }

  function Union(a: int, b: int): int {
    if a == b || b == NO_BAND then a else if a == NO_BAND then b else BOTH_BANDS
  }

  function Joined(e: Entry, r: ScanResult): Entry {
    if e.result.ssid == r.ssid then e.(supportFreq := Union(e.supportFreq, Band(r.frequency))) else e
  }

  predicate Has(entries: seq<Entry>, ssid: string) {
    exists i :: 0 <= i < |entries| && entries[i].result.ssid == ssid
  }

  function Add(entries: seq<Entry>, r: ScanResult): seq<Entry> {
    if r.ssid == "" then entries
    else if Has(entries, r.ssid) then seq(|entries|, i requires 0 <= i < |entries| => Joined(entries[i], r))
    else entries + [Entry(r, Band(r.frequency))]
  }

  function Merge(results: seq<ScanResult>): seq<Entry> {
    if results == [] then [] else Add(Merge(results[..|results| - 1]), results[|results| - 1])
  }

  /** The first result with this name. */
  ghost predicate IsFirst(results: seq<ScanResult>, r: ScanResult) {
    exists i :: 0 <= i < |results| && results[i] == r && forall j :: 0 <= j < i ==> results[j].ssid != r.ssid
  }

  ghost predicate Seen24G(results: seq<ScanResult>, ssid: string) {
    exists r :: r in results && r.ssid == ssid && Is24G(r.frequency)
  }

  ghost predicate Seen5G(results: seq<ScanResult>, ssid: string) {
    exists r :: r in results && r.ssid == ssid && Is5G(r.frequency)
  }

  /** An entry stands for the first result of its name and the bands of all of them. */
  ghost predicate Represents(e: Entry, results: seq<ScanResult>) {
    && e.result.ssid != "" && IsFirst(results, e.result)
    && NO_BAND <= e.supportFreq <= BOTH_BANDS
    && (Has24G(e.supportFreq) <==> Seen24G(results, e.result.ssid))
    && (Has5G(e.supportFreq) <==> Seen5G(results, e.result.ssid))
  }

  /** Entries have different names, each represents the results so far, and every name that is not empty has one. */
  ghost predicate Lists(entries: seq<Entry>, results: seq<ScanResult>) {
    && (forall i, j :: 0 <= i < j < |entries| ==> entries[i].result.ssid != entries[j].result.ssid)
    && (forall i :: 0 <= i < |entries| ==> Represents(entries[i], results))
    && (forall r <- results :: r.ssid != "" ==> Has(entries, r.ssid))
  }

  lemma StillFirst(results: seq<ScanResult>, r: ScanResult, x: ScanResult)
    requires IsFirst(results, x)
    ensures IsFirst(results + [r], x)
  {
    var i :| 0 <= i < |results| && results[i] == x && forall j :: 0 <= j < i ==> results[j].ssid != x.ssid;
    assert (results + [r])[i] == x && forall j :: 0 <= j < i ==> (results + [r])[j].ssid != x.ssid;
  }

  lemma SeenMore(results: seq<ScanResult>, r: ScanResult, ssid: string)
    ensures Seen24G(results + [r], ssid) <==> Seen24G(results, ssid) || (r.ssid == ssid && Is24G(r.frequency))
    ensures Seen5G(results + [r], ssid) <==> Seen5G(results, ssid) || (r.ssid == ssid && Is5G(r.frequency))
  {
    assert forall x :: x in results + [r] <==> x in results || x == r;
    assert r in results + [r];
  }

  lemma JoinedRepresents(e: Entry, results: seq<ScanResult>, r: ScanResult)
    requires Represents(e, results)
    ensures Represents(Joined(e, r), results + [r])
  {
    StillFirst(results, r, e.result);
    SeenMore(results, r, e.result.ssid);
    hide IsFirst, Seen24G, Seen5G;
  }

  lemma NewRepresents(results: seq<ScanResult>, r: ScanResult)
    requires r.ssid != "" && forall x <- results :: x.ssid != r.ssid
    ensures Represents(Entry(r, Band(r.frequency)), results + [r])
  {
    assert (results + [r])[|results|] == r;
    assert forall j :: 0 <= j < |results| ==> (results + [r])[j] == results[j] && results[j] in results;
    SeenMore(results, r, r.ssid);
  }

  lemma AddLists(entries: seq<Entry>, results: seq<ScanResult>, r: ScanResult)
    requires Lists(entries, results)
    ensures Lists(Add(entries, r), results + [r])
  {
    hide Represents;
    var next := Add(entries, r);
    forall i | 0 <= i < |entries|
      ensures next[i] == Joined(entries[i], r) && Represents(next[i], results + [r])
    {
      assert Represents(entries[i], results);
      NotEmpty(entries[i], results);
      JoinedRepresents(entries[i], results, r);
      if !Has(entries, r.ssid) {
        assert entries[i].result.ssid != r.ssid;
      }
    }
    if r.ssid != "" && !Has(entries, r.ssid) {
      NewRepresents(results, r);
      assert next[|entries|].result.ssid == r.ssid;
    }
    forall x | x in results + [r] && x.ssid != ""
      ensures Has(next, x.ssid)
    {
      if Has(entries, x.ssid) {
        var i :| 0 <= i < |entries| && entries[i].result.ssid == x.ssid;
        assert next[i].result.ssid == x.ssid;
      } else {
        assert x == r;
      }
    }
  }

  lemma NotEmpty(e: Entry, results: seq<ScanResult>)
    requires Represents(e, results)
    ensures e.result.ssid != ""
  {
  }

  /** One entry for each name, and each with the bands of all its results. */
  lemma {:induction false} MergeLists(results: seq<ScanResult>)
    ensures Lists(Merge(results), results)
  {
    if results != [] {
      var front, last := results[..|results| - 1], results[|results| - 1];
      assert results == front + [last];
      MergeLists(front);
      AddLists(Merge(front), front, last);
      hide Lists, Add;
    }
  }

  /** The first of the sorted results of a name is as strong as any of them. */
  lemma FirstIsStrongest(sorted: seq<ScanResult>, e: Entry, r: ScanResult)
    requires Ordered(sorted) && Represents(e, sorted) && r in sorted && r.ssid == e.result.ssid
    ensures Abs(e.result.level) <= Abs(r.level)
  {
    var i :| 0 <= i < |sorted| && sorted[i] == e.result && forall j :: 0 <= j < i ==> sorted[j].ssid != e.result.ssid;
    var k :| 0 <= k < |sorted| && sorted[k] == r;
    if i < k {
      OrderedPairs(sorted, i, k);
    }
  }

  ghost predicate EntriesOrdered(entries: seq<Entry>) {
    forall i, j :: 0 <= i < j < |entries| ==> Abs(entries[i].result.level) <= Abs(entries[j].result.level)
  }

  ghost predicate AtMost(entries: seq<Entry>, level: nat) {
    forall i :: 0 <= i < |entries| ==> Abs(entries[i].result.level) <= level
  }

  lemma AddOrdered(entries: seq<Entry>, r: ScanResult)
    requires EntriesOrdered(entries) && AtMost(entries, Abs(r.level))
    ensures EntriesOrdered(Add(entries, r)) && AtMost(Add(entries, r), Abs(r.level))
  {
  }

  /** The entries come in the order of their results. */
  lemma {:induction false} MergeOrdered(results: seq<ScanResult>)
    requires Ordered(results)
    ensures EntriesOrdered(Merge(results)) && (results != [] ==> AtMost(Merge(results), Abs(results[|results| - 1].level)))
  {
    if results != [] {
      var front, last := results[..|results| - 1], results[|results| - 1];
      OrderedFront(results);
      MergeOrdered(front);
      if front != [] {
        OrderedPairs(results, |front| - 1, |front|);
      }
      AddOrdered(Merge(front), last);
      hide Add, EntriesOrdered;
    }
  }

  lemma {:induction false} OrderedFront(results: seq<ScanResult>)
    requires Ordered(results) && results != []
    ensures Ordered(results[..|results| - 1])
  {
    if |results| > 1 {
      OrderedFront(results[1..]);
      assert results[1..][..|results| - 2] == results[..|results| - 1][1..];
    }
  }

  lemma SameSeen(a: seq<ScanResult>, b: seq<ScanResult>, ssid: string)
    requires multiset(a) == multiset(b)
    ensures forall r :: r in a <==> r in b
    ensures (Seen24G(a, ssid) <==> Seen24G(b, ssid)) && (Seen5G(a, ssid) <==> Seen5G(b, ssid))
  {
    assert forall r :: (r in a <==> r in multiset(a)) && (r in b <==> r in multiset(b));
  }

  /** An entry shows a strongest result of its name, and exactly the bands that results of the name were on. */
  ghost predicate Shows(e: Entry, results: seq<ScanResult>) {
    && e.result in results && e.result.ssid != ""
    && (forall r <- results :: r.ssid == e.result.ssid ==> Abs(e.result.level) <= Abs(r.level))
    && (Has24G(e.supportFreq) <==> Seen24G(results, e.result.ssid))
    && (Has5G(e.supportFreq) <==> Seen5G(results, e.result.ssid))
  }

  /** The list the app shows, for any scan: the strongest first, each name once, and none left out. */
  lemma ListIsRight(results: seq<ScanResult>)
    ensures var list := Merge(Sort(results));
      && EntriesOrdered(list)
      && (forall i, j :: 0 <= i < j < |list| ==> list[i].result.ssid != list[j].result.ssid)
      && (forall i :: 0 <= i < |list| ==> Shows(list[i], results))
      && (forall r <- results :: r.ssid != "" ==> Has(list, r.ssid))
  {
    var sorted := Sort(results);
    var list := Merge(sorted);
    SortIsStable(results, 0);
    MergeLists(sorted);
    MergeOrdered(sorted);
    SameSeen(sorted, results, "");
    hide Ordered, EntriesOrdered;
    forall i | 0 <= i < |list|
      ensures Shows(list[i], results)
    {
      EntryShows(list[i], sorted, results);
    }
  }

  lemma EntryShows(e: Entry, sorted: seq<ScanResult>, results: seq<ScanResult>)
    requires multiset(sorted) == multiset(results) && Ordered(sorted) && Represents(e, sorted)
    ensures Shows(e, results)
  {
    SameSeen(sorted, results, e.result.ssid);
    forall r | r in results && r.ssid == e.result.ssid
      ensures Abs(e.result.level) <= Abs(r.level)
    {
      FirstIsStrongest(sorted, e, r);
    }
    hide Seen24G, Seen5G, Ordered;
  }

  // ----- the merge as it is done, on objects in a list

  class WifiInfo {
    var result: ScanResult
    var supportFreq: int

    constructor (result: ScanResult, supportFreq: int)
      ensures this.result == result && this.supportFreq == supportFreq
    {
      this.result, this.supportFreq := result, supportFreq;
    }

    predicate IsSupport24G()
      reads this
    {
      supportFreq == 1
    }

    predicate IsSupport5G()
      reads this
    {
      supportFreq == 2
    }

    function AsEntry(): Entry
      reads this
    {
      Entry(result, supportFreq)
    }

    /** What happens to an entry of the same name. */
    method Join(frequency: int)
      requires NO_BAND <= supportFreq <= BOTH_BANDS
      modifies this`supportFreq
      ensures supportFreq == Union(old(supportFreq), Band(frequency))
    {
      if supportFreq == 3 {
        return;
      }
      if supportFreq != 1 {
        if frequency / 2000 == 1 {
          if IsSupport5G() {
            supportFreq := 3;
          } else {
            supportFreq := 1;
          }
        }
      }
      if supportFreq != 2 {
        if frequency / 5000 == 1 {
          if IsSupport24G() {
            supportFreq := 3;
          } else {
            supportFreq := 2;
          }
        }
      }
    }
  }

  /** The objects of the list are different, and hold these entries. */
  ghost predicate Holds(temps: seq<WifiInfo>, entries: seq<Entry>)
    reads temps
  {
    && |temps| == |entries|
    && (forall i, j :: 0 <= i < j < |temps| ==> temps[i] != temps[j])
    && (forall i :: 0 <= i < |temps| ==> temps[i].AsEntry() == entries[i])
    && (forall i :: 0 <= i < |temps| ==> NO_BAND <= entries[i].supportFreq <= BOTH_BANDS)
  }

  /** The walk over the list for one result. */
  method JoinAll(temps: seq<WifiInfo>, result: ScanResult, ghost entries: seq<Entry>) returns (hasdup: bool)
    requires Holds(temps, entries)
    modifies temps
    ensures hasdup == Has(entries, result.ssid)
    ensures Holds(temps, seq(|entries|, i requires 0 <= i < |entries| => Joined(entries[i], result)))
  {
    hasdup := false;
    var k := 0;
    while k < |temps|
      invariant k <= |temps| && hasdup == Has(entries[..k], result.ssid)
      invariant Holds(temps, seq(|entries|, i requires 0 <= i < |entries| => if i < k then Joined(entries[i], result) else entries[i]))
    {
      var info := temps[k];
      assert info.AsEntry() == entries[k];
      assert entries[..k + 1] == entries[..k] + [entries[k]];
      if info.result.ssid == result.ssid {
        hasdup := true;
        info.Join(result.frequency);
        assert entries[..k + 1][k].result.ssid == result.ssid;
      }
      k := k + 1;
    }
    assert entries[..k] == entries;
  }

  /** One turn of the outer loop. */
  method MergeOne(temps: seq<WifiInfo>, result: ScanResult, ghost entries: seq<Entry>) returns (next: seq<WifiInfo>)
    requires Holds(temps, entries)
    modifies temps
    ensures Holds(next, Add(entries, result)) && forall i :: 0 <= i < |next| ==> next[i] in temps || fresh(next[i])
  {
    next := temps;
    if result.ssid != "" {
      var hasdup := JoinAll(temps, result, entries);
      if !hasdup {
        assert seq(|entries|, i requires 0 <= i < |entries| => Joined(entries[i], result)) == entries;
        var supportFreq := FrequencySupport(result.frequency, 1);
        var info := new WifiInfo(result, supportFreq);
        next := temps + [info];
      }
    }
  }

  /** The scan results, sorted and merged: the list holds exactly the merged entries. */
  method MergeScan(results: seq<ScanResult>) returns (temps: seq<WifiInfo>)
    ensures Holds(temps, Merge(Sort(results)))
  {
    hide Holds, Add;
    var sorted := Sort(results);
    temps := [];
    var n := 0;
    assert Holds([], []) by { HoldsNothing(); }
    while n < |sorted|
      invariant n <= |sorted| && fresh(temps)
      invariant Holds(temps, Merge(sorted[..n]))
    {
      assert sorted[..n + 1][..n] == sorted[..n];
      temps := MergeOne(temps, sorted[n], Merge(sorted[..n]));
      n := n + 1;
    }
    assert sorted[..n] == sorted;
  }

  lemma HoldsNothing()
    ensures Holds([], [])
  {
  }
}
