/** The order of the run list: descending by effective time
    `updatedAt || createdAt || 0`, as the stable `Array.prototype.sort` with the
    comparator `new Date(b...) - new Date(a...)` leaves it. */
module RunOrder {
  import opened Js
  import opened RunRecords

  /** `new Date(v).getTime()` for the values the comparator feeds it, taken as
      a parameter; invalid dates (`NaN`) are not represented. */
  type TimeParser = Json -> int

  /** The parser maps the number `0`, the comparator's last fallback, to the epoch. */
  predicate EpochAnchored(parseTime: TimeParser) {
    parseTime(Num(0.0)) == 0
  }

  /** The instant a run is ordered by: its update stamp, else its creation
      stamp, else `0`. */
  function EffectiveTime(parseTime: TimeParser, run: Run): int {
    parseTime(OrElse([run.updatedAt, run.createdAt, Num(0.0)]))
  }

  /** Which stamp the comparator reads: the update stamp when set, else the
      creation stamp when set; a run with neither sorts at the epoch, as the
      oldest possible entry among non-negative times. */
  lemma EffectiveTimeFallback(parseTime: TimeParser, run: Run)
    ensures Truthy(run.updatedAt) ==> EffectiveTime(parseTime, run) == parseTime(run.updatedAt)
    ensures !Truthy(run.updatedAt) && Truthy(run.createdAt) ==>
              EffectiveTime(parseTime, run) == parseTime(run.createdAt)
    ensures !Truthy(run.updatedAt) && !Truthy(run.createdAt) && EpochAnchored(parseTime) ==>
              EffectiveTime(parseTime, run) == 0
  {
    FirstTruthyOfThree(run.updatedAt, run.createdAt, Num(0.0), OrElse([run.updatedAt, run.createdAt, Num(0.0)]));
  }

  /** Newest first: effective times never increase along the list. */
  predicate NewestFirst(parseTime: TimeParser, runs: seq<Run>) {
    forall i, j :: 0 <= i < j < |runs| ==> EffectiveTime(parseTime, runs[i]) >= EffectiveTime(parseTime, runs[j])
  }

  /** The runs of `runs` whose effective time is `t`, in list order. */
  function WithTime(parseTime: TimeParser, runs: seq<Run>, t: int): seq<Run> {
    if |runs| == 0 then []
    else (if EffectiveTime(parseTime, runs[0]) == t then [runs[0]] else []) + WithTime(parseTime, runs[1..], t)
  }

  /** Inserts `run` ahead of the first entry that is not newer than it. */
  function Insert(parseTime: TimeParser, run: Run, sorted: seq<Run>): (r: seq<Run>)
    requires NewestFirst(parseTime, sorted)
    ensures NewestFirst(parseTime, r)
    ensures multiset(r) == multiset(sorted) + multiset{run}
    ensures |r| > 0 && (r[0] == run || (|sorted| > 0 && r[0] == sorted[0]))
  {
    if |sorted| == 0 || EffectiveTime(parseTime, run) >= EffectiveTime(parseTime, sorted[0]) then
      [run] + sorted
    else
      var rest := Insert(parseTime, run, sorted[1..]);
      assert sorted == [sorted[0]] + sorted[1..];
      [sorted[0]] + rest
  }

  /** The run list after `normalized.sort(...)`: a stable insertion sort,
      newest first. */
  function SortByTime(parseTime: TimeParser, runs: seq<Run>): (r: seq<Run>)
    ensures NewestFirst(parseTime, r)
    ensures multiset(r) == multiset(runs)
    ensures |r| == |runs|
  {
    if |runs| == 0 then []
    else
      assert runs == [runs[0]] + runs[1..];
      Insert(parseTime, runs[0], SortByTime(parseTime, runs[1..]))
  }

  /** Inserting adds `run` to the front of its own time group and leaves the
      other groups as they were. */
  lemma {:induction false} InsertKeepsGroups(parseTime: TimeParser, run: Run, sorted: seq<Run>, t: int)
    requires NewestFirst(parseTime, sorted)
    ensures WithTime(parseTime, Insert(parseTime, run, sorted), t) ==
              (if EffectiveTime(parseTime, run) == t then [run] else []) + WithTime(parseTime, sorted, t)
  {
    if |sorted| == 0 || EffectiveTime(parseTime, run) >= EffectiveTime(parseTime, sorted[0]) {
      var r := [run] + sorted;
      assert Insert(parseTime, run, sorted) == r;
      assert r[1..] == sorted;
    } else {
      var rest := Insert(parseTime, run, sorted[1..]);
      var r := [sorted[0]] + rest;
      assert Insert(parseTime, run, sorted) == r;
      assert r[1..] == rest;
      var head := if EffectiveTime(parseTime, sorted[0]) == t then [sorted[0]] else [];
      var mine := if EffectiveTime(parseTime, run) == t then [run] else [];
      assert WithTime(parseTime, r, t) == head + WithTime(parseTime, rest, t);
      assert WithTime(parseTime, sorted, t) == head + WithTime(parseTime, sorted[1..], t);
      InsertKeepsGroups(parseTime, run, sorted[1..], t);
      assert WithTime(parseTime, rest, t) == mine + WithTime(parseTime, sorted[1..], t);
      // `run` is strictly older than `sorted[0]`, so at most one of them is in group `t`.
      SwapDisjoint(head, mine, WithTime(parseTime, sorted[1..], t));
    }
  }

  /** Two prefixes of which one is empty commute. */
  lemma SwapDisjoint(head: seq<Run>, mine: seq<Run>, tail: seq<Run>)
    requires head == [] || mine == []
    ensures head + (mine + tail) == mine + (head + tail)
  {
    if head == [] {
      assert head + (mine + tail) == mine + tail;
    } else {
      assert mine + (head + tail) == head + tail;
    }
  }

  /** Stability: within every group of equal effective time the sorted list
      keeps the input order, as `Array.prototype.sort` has guaranteed since
      ECMAScript 2019. */
  lemma {:induction false} SortIsStable(parseTime: TimeParser, runs: seq<Run>, t: int)
    ensures WithTime(parseTime, SortByTime(parseTime, runs), t) == WithTime(parseTime, runs, t)
  {
    if |runs| > 0 {
      SortIsStable(parseTime, runs[1..], t);
      InsertKeepsGroups(parseTime, runs[0], SortByTime(parseTime, runs[1..]), t);
    }
  }
}
