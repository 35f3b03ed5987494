/**
 * The pure parts of a step's instrumentation (src/Step.php): how elapsed time and
 * memory figures are rendered, how a query is reduced to its verb, and how the
 * query log of one source is grouped by verb into counts and cumulative times.
 */
module Instrumentation {
  import opened PhpValues

  /** Elapsed wall time as logged: minutes above 60 seconds, seconds otherwise. */
  datatype Elapsed = Minutes(minutes: real) | Seconds(seconds: real)

  function ElapsedOf(time: real): (r: Elapsed)
    ensures r.Minutes? <==> time > 60.0
    ensures r.Minutes? ==> r.minutes * 60.0 == time
    ensures r.Seconds? ==> r.seconds == time
  {
    if time > 60.0 then Minutes(time / 60.0) else Seconds(time)
  }

  datatype MemoryUnit = B | KB | MB

  /** A memory reading as logged: an amount in the chosen unit. */
  datatype MemoryFigure = MemoryFigure(amount: real, unit: MemoryUnit)

  function UnitBytes(u: MemoryUnit): nat {
    match u
    case B => 1
    case KB => 1024
    case MB => 1024 * 1024
  }

  /**
   * The unit chosen for a memory reading of `usage` bytes and the amount in it.
   * The amount times the unit is the reading itself, the unit is bytes below 1024,
   * megabytes from 1024 * 1024 on and kilobytes in between, and outside bytes the
   * amount is at least one unit.
   */
  function MemoryFigureOf(usage: nat): (r: MemoryFigure)
    ensures r.amount * UnitBytes(r.unit) as real == usage as real
    ensures r.unit == B <==> usage < 1024
    ensures r.unit == MB <==> usage >= 1024 * 1024
    ensures r.unit != B ==> r.amount >= 1.0
    ensures r.unit == KB ==> r.amount < 1024.0
  {
    if usage < 1024 then MemoryFigure(usage as real, B)
    else if usage < 1024 * 1024 then MemoryFigure(usage as real / 1024.0, KB)
    else MemoryFigure(usage as real / 1024.0 / 1024.0, MB)
  }

  /** Three sample readings: 500 B, 2 KB and 3 MB. */
  lemma MemoryFigureExamples()
    ensures MemoryFigureOf(500) == MemoryFigure(500.0, B)
    ensures MemoryFigureOf(2048) == MemoryFigure(2.0, KB)
    ensures MemoryFigureOf(3 * 1024 * 1024) == MemoryFigure(3.0, MB)
  {
  }

  /** Characters at which the Bitrix verb is cut. */
  const VerbStops: set<char> := {' ', '\r', '\n'}

  /**
   * The verb key of a Bitrix tracker query: the first space-delimited token of the
   * left-trimmed text, cut at the first carriage return or line feed, lower-cased.
   * Equivalently, the lower-cased longest prefix of the trimmed text free of spaces,
   * carriage returns and line feeds.
   */
  function BitrixVerb(sql: string): (r: string)
    ensures r == ToLower(TakeUntil(LTrim(sql), VerbStops))
    ensures forall j :: 0 <= j < |r| ==> r[j] !in VerbStops && !IsUpper(r[j])
  {
    var first := StrTok(LTrim(sql), {' '});
    var cut := StrTok(if first.Some? then first.value else "", {'\r', '\n'});
    BitrixVerbIsTrimmedPrefix(sql);
    VerbHasNoStopsNorCapitals(LTrim(sql));
    if cut.Some? then ToLower(cut.value) else ""
  }

  lemma VerbHasNoStopsNorCapitals(s: string)
    ensures var r := ToLower(TakeUntil(s, VerbStops));
      forall j :: 0 <= j < |r| ==> r[j] !in VerbStops && !IsUpper(r[j])
  {
    var t := TakeUntil(s, VerbStops);
    forall j | 0 <= j < |t| ensures LowerChar(t[j]) !in VerbStops && !IsUpper(LowerChar(t[j])) {
      if IsUpper(t[j]) {
        assert 'a' as int <= LowerChar(t[j]) as int <= 'z' as int;
      }
    }
  }

  lemma {:induction false} TakeUntilTwice(s: string, a: set<char>, b: set<char>)
    ensures TakeUntil(TakeUntil(s, a), b) == TakeUntil(s, a + b)
    decreases |s|
  {
    if s != [] && s[0] !in a && s[0] !in b {
      TakeUntilTwice(s[1..], a, b);
      assert TakeUntil(s, a) == [s[0]] + TakeUntil(s[1..], a);
    }
  }

  lemma BitrixVerbIsTrimmedPrefix(sql: string)
    ensures (var first := StrTok(LTrim(sql), {' '});
             var cut := StrTok(if first.Some? then first.value else "", {'\r', '\n'});
             (if cut.Some? then ToLower(cut.value) else "") == ToLower(TakeUntil(LTrim(sql), VerbStops)))
  {
    var t := LTrim(sql);
    if t != [] {
      assert t[0] !in LTrimChars;
      assert SkipWhile(t, {' '}) == t;
      var a := TakeUntil(t, {' '});
      assert a[0] == t[0];
      assert SkipWhile(a, {'\r', '\n'}) == a;
      TakeUntilTwice(t, {' '}, {'\r', '\n'});
      assert {' '} + {'\r', '\n'} == VerbStops;
    }
  }

  /**
   * The verb key of an Illuminate query-log entry: the raw first space-delimited
   * token. When the query holds nothing but spaces `strtok` yields false, which PHP
   * stores under the array key 0, written here as the key "0".
   */
  function IlluminateVerb(query: string): (r: string)
    ensures r != [] && forall j :: 0 <= j < |r| ==> r[j] != ' '
    ensures SkipWhile(query, {' '}) != [] ==> r == TakeUntil(SkipWhile(query, {' '}), {' '})
    ensures SkipWhile(query, {' '}) == [] ==> r == "0"
  {
    var tok := StrTok(query, {' '});
    if tok.Some? then tok.value else "0"
  }

  /** One entry of the per-verb details: how many queries and their cumulative time. */
  datatype Group = Group(key: string, count: nat, totalTime: real)

  /** Position of the group for `key`, if there is one (PHP's `isset($details[$type])`). */
  function KeyIndex(groups: seq<Group>, key: string): (r: Option<nat>)
    ensures r.Some? ==> r.value < |groups| && groups[r.value].key == key
    ensures r.None? ==> forall i :: 0 <= i < |groups| ==> groups[i].key != key
  {
    if groups == [] then None
    else if groups[|groups| - 1].key == key then Some(|groups| - 1)
    else KeyIndex(groups[..|groups| - 1], key)
  }

  /** Accounts one query of verb `key` taking `time`: a new group at the end, or one more in its group. */
  function AddEntry(groups: seq<Group>, key: string, time: real): seq<Group> {
    match KeyIndex(groups, key)
    case None => groups + [Group(key, 1, time)]
    case Some(j) => groups[j := Group(key, groups[j].count + 1, groups[j].totalTime + time)]
  }

  /** The per-verb details of a query log given as its verbs and times, in first-occurrence order. */
  function Grouped(keys: seq<string>, times: seq<real>): seq<Group>
    requires |keys| == |times|
  {
    if keys == [] then []
    else AddEntry(Grouped(keys[..|keys| - 1], times[..|times| - 1]), keys[|keys| - 1], times[|times| - 1])
  }

  /** Number of queries of verb `key`. */
  function Occurrences(keys: seq<string>, key: string): nat {
    if keys == [] then 0
    else Occurrences(keys[..|keys| - 1], key) + (if keys[|keys| - 1] == key then 1 else 0)
  }

  /** Cumulative time of the queries of verb `key`. */
  function TimeOf(keys: seq<string>, times: seq<real>, key: string): real
    requires |keys| == |times|
  {
    if keys == [] then 0.0
    else TimeOf(keys[..|keys| - 1], times[..|times| - 1], key) + (if keys[|keys| - 1] == key then times[|times| - 1] else 0.0)
  }

  function SumTimes(times: seq<real>): real {
    if times == [] then 0.0 else SumTimes(times[..|times| - 1]) + times[|times| - 1]
  }

  function SumCounts(groups: seq<Group>): nat {
    if groups == [] then 0 else SumCounts(groups[..|groups| - 1]) + groups[|groups| - 1].count
  }

  predicate DistinctKeys(groups: seq<Group>) {
    forall i, j :: 0 <= i < j < |groups| ==> groups[i].key != groups[j].key
  }

  /**
   * `groups` are the per-verb details of the log: one group per distinct verb and no
   * other, each with the number and cumulative time of the queries of its verb.
   */
  predicate DetailsOf(groups: seq<Group>, keys: seq<string>, times: seq<real>)
    requires |keys| == |times|
  {
    && DistinctKeys(groups)
    && (forall i :: 0 <= i < |groups| ==>
          groups[i].key in keys
          && groups[i].count == Occurrences(keys, groups[i].key)
          && groups[i].totalTime == TimeOf(keys, times, groups[i].key))
    && (forall k :: k in keys ==> HasKey(groups, k))
  }

  predicate HasKey(groups: seq<Group>, key: string) {
    exists i :: 0 <= i < |groups| && groups[i].key == key
  }

  lemma {:induction false} OccurrencesOfAbsent(keys: seq<string>, times: seq<real>, key: string)
    requires |keys| == |times| && key !in keys
    ensures Occurrences(keys, key) == 0 && TimeOf(keys, times, key) == 0.0
  {
    if keys != [] {
      assert key !in keys[..|keys| - 1];
      OccurrencesOfAbsent(keys[..|keys| - 1], times[..|times| - 1], key);
    }
  }

  lemma {:induction false} SumCountsAppend(groups: seq<Group>, g: Group)
    ensures SumCounts(groups + [g]) == SumCounts(groups) + g.count
  {
    assert (groups + [g])[..|groups|] == groups;
  }

  lemma {:induction false} SumCountsUpdate(groups: seq<Group>, j: nat, g: Group)
    requires j < |groups|
    ensures SumCounts(groups[j := g]) == SumCounts(groups) - groups[j].count + g.count
    decreases |groups|
  {
    var n := |groups|;
    if j < n - 1 {
      assert groups[j := g][..n - 1] == groups[..n - 1][j := g];
      SumCountsUpdate(groups[..n - 1], j, g);
    } else {
      assert groups[j := g][..n - 1] == groups[..n - 1];
    }
  }

  lemma OccurrencesSnoc(keys: seq<string>, times: seq<real>, k: string, t: real, key: string)
    requires |keys| == |times|
    ensures Occurrences(keys + [k], key) == Occurrences(keys, key) + (if key == k then 1 else 0)
    ensures TimeOf(keys + [k], times + [t], key) == TimeOf(keys, times, key) + (if key == k then t else 0.0)
  {
    assert (keys + [k])[..|keys|] == keys && (times + [t])[..|times|] == times;
  }

  /** Every group of `r` carries the count and time of its verb in the longer log. */
  lemma GroupsCounted(r: seq<Group>, keys: seq<string>, times: seq<real>, k: string, t: real)
    requires |keys| == |times|
    requires forall i :: 0 <= i < |r| ==>
      r[i].key in keys + [k]
      && r[i].count == Occurrences(keys, r[i].key) + (if r[i].key == k then 1 else 0)
      && r[i].totalTime == TimeOf(keys, times, r[i].key) + (if r[i].key == k then t else 0.0)
    ensures forall i :: 0 <= i < |r| ==>
      r[i].key in keys + [k]
      && r[i].count == Occurrences(keys + [k], r[i].key)
      && r[i].totalTime == TimeOf(keys + [k], times + [t], r[i].key)
  {
    forall i | 0 <= i < |r|
      ensures r[i].count == Occurrences(keys + [k], r[i].key)
      ensures r[i].totalTime == TimeOf(keys + [k], times + [t], r[i].key)
    {
      OccurrencesSnoc(keys, times, k, t, r[i].key);
    }
  }

  lemma AddEntryShape(g: seq<Group>, k: string, t: real)
    ensures KeyIndex(g, k).None? ==> AddEntry(g, k, t) == g + [Group(k, 1, t)]
    ensures KeyIndex(g, k).Some? ==> var j := KeyIndex(g, k).value;
      AddEntry(g, k, t) == g[j := Group(k, g[j].count + 1, g[j].totalTime + t)]
  {
  }

  /** Accounting a query of a verb not seen before appends a group for it. */
  lemma AddEntryNew(g: seq<Group>, keys: seq<string>, times: seq<real>, k: string, t: real,
                    r: seq<Group>, keys': seq<string>, times': seq<real>)
    requires |keys| == |times| && DetailsOf(g, keys, times) && !HasKey(g, k)
    requires r == g + [Group(k, 1, t)] && keys' == keys + [k] && times' == times + [t]
    ensures DetailsOf(r, keys', times')
    ensures SumCounts(r) == SumCounts(g) + 1
  {
    assert k !in keys;
    OccurrencesOfAbsent(keys, times, k);
    SumCountsAppend(g, Group(k, 1, t));
    GroupsCounted(r, keys, times, k, t);
    forall key | key in keys + [k] ensures HasKey(r, key) {
      if key != k {
        assert key in keys && HasKey(g, key);
        var i :| 0 <= i < |g| && g[i].key == key;
        assert r[i].key == key;
      } else {
        assert r[|g|].key == key;
      }
    }
  }

  /** Accounting a query of a verb already seen adds it to that verb's group. */
  lemma AddEntryExisting(g: seq<Group>, keys: seq<string>, times: seq<real>, k: string, t: real, j: nat,
                         r: seq<Group>, keys': seq<string>, times': seq<real>)
    requires |keys| == |times| && DetailsOf(g, keys, times) && j < |g| && g[j].key == k
    requires r == g[j := Group(k, g[j].count + 1, g[j].totalTime + t)] && keys' == keys + [k] && times' == times + [t]
    ensures DetailsOf(r, keys', times')
    ensures SumCounts(r) == SumCounts(g) + 1
  {
    SumCountsUpdate(g, j, Group(k, g[j].count + 1, g[j].totalTime + t));
    forall i | 0 <= i < |r|
      ensures r[i].key == g[i].key
      ensures r[i].count == Occurrences(keys, r[i].key) + (if r[i].key == k then 1 else 0)
      ensures r[i].totalTime == TimeOf(keys, times, r[i].key) + (if r[i].key == k then t else 0.0)
    {
      if i != j {
        assert g[i].key != g[j].key;
      }
    }
    assert DistinctKeys(r);
    GroupsCounted(r, keys, times, k, t);
    forall key | key in keys + [k] ensures HasKey(r, key) {
      if key != k {
        assert key in keys && HasKey(g, key);
        var i :| 0 <= i < |g| && g[i].key == key;
        assert r[i].key == key;
      } else {
        assert r[j].key == key;
      }
    }
  }

  /** One more query keeps the details exact, whether its verb is new or not. */
  lemma AddEntryKeepsDetails(g: seq<Group>, keys: seq<string>, times: seq<real>, k: string, t: real,
                             r: seq<Group>, keys': seq<string>, times': seq<real>)
    requires |keys| == |times| && DetailsOf(g, keys, times)
    requires r == AddEntry(g, k, t) && keys' == keys + [k] && times' == times + [t]
    ensures DetailsOf(r, keys', times')
    ensures SumCounts(r) == SumCounts(g) + 1
  {
    AddEntryShape(g, k, t);
    match KeyIndex(g, k)
    case None =>
      AddEntryNew(g, keys, times, k, t, r, keys', times');
    case Some(j) =>
      AddEntryExisting(g, keys, times, k, t, j, r, keys', times');
  }

  /**
   * Grouping is exact: the details hold one group per distinct verb with its number
   * of queries and their cumulative time, and the counts add up to the number of
   * queries in the log.
   */
  lemma {:induction false} GroupedIsDetails(keys: seq<string>, times: seq<real>)
    requires |keys| == |times|
    ensures DetailsOf(Grouped(keys, times), keys, times)
    ensures SumCounts(Grouped(keys, times)) == |keys|
  {
    if keys != [] {
      var n := |keys|;
      var pk, pt := keys[..n - 1], times[..n - 1];
      GroupedIsDetails(pk, pt);
      assert keys == pk + [keys[n - 1]] && times == pt + [times[n - 1]];
      AddEntryKeepsDetails(Grouped(pk, pt), pk, pt, keys[n - 1], times[n - 1], Grouped(keys, times), keys, times);
    }
  }

  /**
   * Groups the query log of one source by verb, as `logSqlQueriesSinceStepStart`
   * does for each enabled source; also returns the total time of the log.
   */
  method Tally(keys: seq<string>, times: seq<real>) returns (groups: seq<Group>, total: real)
    requires |keys| == |times|
    ensures groups == Grouped(keys, times) && SumCounts(groups) == |keys|
    ensures total == SumTimes(times)
  {
    groups, total := [], 0.0;
    var i := 0;
    while i < |keys|
      invariant 0 <= i <= |keys|
      invariant groups == Grouped(keys[..i], times[..i])
      invariant total == SumTimes(times[..i])
    {
      assert keys[..i + 1][..i] == keys[..i] && times[..i + 1][..i] == times[..i];
      groups := AddEntry(groups, keys[i], times[i]);
      total := total + times[i];
      i := i + 1;
    }
    assert keys[..i] == keys && times[..i] == times;
    GroupedIsDetails(keys, times);
  }
}
