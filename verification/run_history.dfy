/** The run details panel: the metric-history fetch for the selected run,
    the numeric series drawn from it, the summary tiles and the chart cards. */
module RunHistory {
  import opened Wrappers
  import opened Js
  import opened Fetch
  import opened RunRecords
  import Decimal
  import Sparkline

  /** The four charted metrics, in the order the cards are laid out. */
  const MetricKeys: seq<string> := ["train/loss", "eval/loss", "train/accuracy", "eval/accuracy"]

  /** At most this many summary entries are shown. */
  const SummaryTileCount: nat := 6

  /** The panel's history state: the samples, the busy flag and the error banner. */
  datatype HistoryState = HistoryState(history: seq<Json>, loading: bool, error: string)

  /** `!!run?.id`: a run is selected and its id is none of the falsy values;
      no selection reads `undefined` through `?.`. */
  function HasRun(run: Option<Run>): (r: bool)
    ensures r ==> run.Some?
    ensures run.Some? ==> (r <==> run.value.id !in FalsyValues)
  {
    run.Some? && Truthy(run.value.id)
  }

  /** The synchronous start of a history fetch: busy, error cleared, samples kept. */
  function BeginHistory(st: HistoryState): (r: HistoryState)
    ensures r.loading && r.error == "" && r.history == st.history
  {
    st.(loading := true, error := "")
  }

  /** Applying a settled history fetch. On failure the previous samples stay;
      nothing checks which run the response belongs to. */
  function CompleteHistory(st: HistoryState, outcome: FetchOutcome): (r: HistoryState)
    ensures !r.loading
    ensures Payload("history", outcome).Ok? ==>
              r.history == ArrayOrEmpty(Payload("history", outcome).value) && r.error == st.error
    ensures Payload("history", outcome).Err? ==>
              r.history == st.history && r.error == ErrorText(Payload("history", outcome).message)
  {
    match Payload("history", outcome)
    case Ok(data) => st.(history := ArrayOrEmpty(data), loading := false)
    case Err(m) => st.(error := ErrorText(m), loading := false)
  }

  /** One run of `fetchHistory` for the selected run, from its start to its `finally`. */
  function LoadHistory(run: Option<Run>, st: HistoryState, outcome: FetchOutcome): (r: HistoryState)
    ensures !HasRun(run) ==> r == st
    ensures HasRun(run) ==> !r.loading
    ensures HasRun(run) ==> (r.error == "" <==> Payload("history", outcome).Ok?)
    ensures HasRun(run) && outcome.Response? && ResponseOk(outcome.status) && outcome.body.Parsed? ==>
              r.history == ArrayOrEmpty(outcome.body.value)
    ensures HasRun(run) && outcome.Response? && !ResponseOk(outcome.status) ==>
              r.history == st.history
              && r.error == "Failed to fetch history: " + Decimal.NatToString(outcome.status)
    ensures HasRun(run) && outcome.NetworkFailure? ==>
              r.history == st.history && r.error == ErrorText(outcome.message)
    ensures HasRun(run) && outcome.Response? && ResponseOk(outcome.status) && outcome.body.Unparsable? ==>
              r.history == st.history && r.error == ErrorText(outcome.body.message)
  {
    if !HasRun(run) then st
    else CompleteHistory(BeginHistory(st), outcome)
  }

  /** No stale-response guard: select run A, then run B; if A's response
      settles after B's, A's samples are what the panel shows for B. */
  lemma StaleHistoryOverwrites(st: HistoryState, forA: seq<Json>, forB: seq<Json>)
    ensures var forB' := Response(200, Parsed(Arr(forB)));
            var forA' := Response(200, Parsed(Arr(forA)));
            CompleteHistory(CompleteHistory(BeginHistory(BeginHistory(st)), forB'), forA').history == forA
  {
  }

  /** `values.filter(x => typeof x === 'number')`: the numbers, in order, nothing coerced. */
  function Numbers(values: seq<Json>): (r: seq<real>)
    ensures |r| <= |values|
  {
    if |values| == 0 then []
    else (if values[0].Num? then [values[0].n] else []) + Numbers(values[1..])
  }

  /** Filtering distributes over concatenation. */
  lemma {:induction false} NumbersAppend(a: seq<Json>, b: seq<Json>)
    ensures Numbers(a + b) == Numbers(a) + Numbers(b)
  {
    if |a| > 0 {
      assert (a + b)[1..] == a[1..] + b;
      NumbersAppend(a[1..], b);
    } else {
      assert a + b == b;
    }
  }

  /** A number is kept exactly when it occurs as a number: strings such as
      `"0.5"`, `null` and missing values contribute nothing. */
  lemma {:induction false} NumbersMembership(values: seq<Json>, x: real)
    ensures x in Numbers(values) <==> Num(x) in values
  {
    if |values| > 0 {
      NumbersMembership(values[1..], x);
      assert values == [values[0]] + values[1..];
    }
  }

  /** `history.map(d => d[key])`; a `null` or `undefined` sample makes the read
      throw while rendering. */
  function Column(history: seq<Json>, key: string): (r: Option<seq<Json>>)
    ensures r.Some? <==> forall i :: 0 <= i < |history| ==> !Nullish(history[i])
    ensures r.Some? ==> |r.value| == |history|
                        && forall i :: 0 <= i < |history| ==> r.value[i] == Get(history[i], key)
  {
    if exists i :: 0 <= i < |history| && Nullish(history[i]) then None
    else Some(seq(|history|, i requires 0 <= i < |history| => Get(history[i], key)))
  }

  /** Every number a filter keeps occurs as a JSON number, and no other value is kept. */
  lemma NumbersExactly(values: seq<Json>)
    ensures forall x :: x in Numbers(values) <==> Num(x) in values
  {
    forall x ensures x in Numbers(values) <==> Num(x) in values {
      NumbersMembership(values, x);
    }
  }

  /** A metric's series: the numeric values of `key` across the samples, in order. */
  function Series(history: seq<Json>, key: string): (r: Option<seq<real>>)
    ensures r.Some? <==> forall i :: 0 <= i < |history| ==> !Nullish(history[i])
    ensures r.Some? ==> |r.value| <= |history|
    ensures r.Some? ==> forall x :: x in r.value <==>
              exists i :: 0 <= i < |history| && Get(history[i], key) == Num(x)
  {
    match Column(history, key)
    case None => None
    case Some(values) =>
      NumbersExactly(values);
      Some(Numbers(values))
  }

  /** Series extraction keeps sample order: the series of two batches of
      samples is the first batch's series followed by the second's. */
  lemma {:induction false} SeriesAppend(a: seq<Json>, b: seq<Json>, key: string)
    requires Series(a, key).Some? && Series(b, key).Some?
    ensures Series(a + b, key) == Some(Series(a, key).value + Series(b, key).value)
  {
    var ca := Column(a, key).value;
    var cb := Column(b, key).value;
    assert forall i :: 0 <= i < |a + b| ==> !Nullish((a + b)[i]) by {
      forall i | 0 <= i < |a + b| ensures !Nullish((a + b)[i]) {
        if i < |a| { assert (a + b)[i] == a[i]; } else { assert (a + b)[i] == b[i - |a|]; }
      }
    }
    assert Column(a + b, key).value == ca + cb;
    NumbersAppend(ca, cb);
  }

  /** A sample's step: `d._step ?? d.step`, missing only when both are. */
  function StepOf(sample: Json): (r: Json)
    requires !Nullish(sample)
    ensures r == Get(sample, "_step") || r == Get(sample, "step")
    ensures Nullish(r) <==> Nullish(Get(sample, "_step")) && Nullish(Get(sample, "step"))
  {
    Coalesce(Get(sample, "_step"), Get(sample, "step"))
  }

  /** `??` rather than `||`: a `_step` of `0` is kept, and only a missing or
      `null` `_step` falls through to `step`. */
  lemma StepPrefersUnderscoreStep(sample: Json)
    requires !Nullish(sample)
    ensures !Nullish(Get(sample, "_step")) ==> StepOf(sample) == Get(sample, "_step")
    ensures Nullish(Get(sample, "_step")) ==> StepOf(sample) == Get(sample, "step")
    ensures Get(sample, "_step") == Num(0.0) ==> StepOf(sample) == Num(0.0)
  {
    CoalesceKeepsFalsyValues(Get(sample, "_step"), Get(sample, "step"));
  }

  /** The step series: the numeric steps of the samples, in order. */
  function Steps(history: seq<Json>): (r: Option<seq<real>>)
    ensures r.Some? <==> forall i :: 0 <= i < |history| ==> !Nullish(history[i])
    ensures r.Some? ==> |r.value| <= |history|
    ensures r.Some? ==> forall x :: x in r.value <==>
              exists i :: 0 <= i < |history| && !Nullish(history[i]) && StepOf(history[i]) == Num(x)
  {
    if exists i :: 0 <= i < |history| && Nullish(history[i]) then None
    else
      var values := seq(|history|, i requires 0 <= i < |history| => StepOf(history[i]));
      NumbersExactly(values);
      StepValues(history, values);
      Some(Numbers(values))
  }

  /** A step value occurs in the mapped column exactly when some sample has it. */
  lemma StepValues(history: seq<Json>, values: seq<Json>)
    requires forall i :: 0 <= i < |history| ==> !Nullish(history[i])
    requires |values| == |history| && forall i :: 0 <= i < |history| ==> values[i] == StepOf(history[i])
    ensures forall x :: Num(x) in values <==>
              exists i :: 0 <= i < |history| && !Nullish(history[i]) && StepOf(history[i]) == Num(x)
  {
    forall x ensures Num(x) in values <==>
                     exists i :: 0 <= i < |history| && !Nullish(history[i]) && StepOf(history[i]) == Num(x) {
      if Num(x) in values {
        var i :| 0 <= i < |values| && values[i] == Num(x);
        assert StepOf(history[i]) == Num(x);
      }
    }
  }

  /** Step extraction keeps sample order, as `SeriesAppend` does for metrics. */
  lemma {:induction false} StepsAppend(a: seq<Json>, b: seq<Json>)
    requires Steps(a).Some? && Steps(b).Some?
    ensures Steps(a + b) == Some(Steps(a).value + Steps(b).value)
  {
    var va := seq(|a|, i requires 0 <= i < |a| => StepOf(a[i]));
    var vb := seq(|b|, i requires 0 <= i < |b| => StepOf(b[i]));
    assert forall i :: 0 <= i < |a + b| ==> !Nullish((a + b)[i]) by {
      forall i | 0 <= i < |a + b| ensures !Nullish((a + b)[i]) {
        if i < |a| { assert (a + b)[i] == a[i]; } else { assert (a + b)[i] == b[i - |a|]; }
      }
    }
    var vab := seq(|a + b|, i requires 0 <= i < |a + b| => StepOf((a + b)[i]));
    assert vab == va + vb;
    NumbersAppend(va, vb);
  }

  /** A string sample is dropped, not read as a number. */
  lemma SeriesDropsStrings()
    ensures var history := [Obj([("train/loss", Num(0.5))]),
                            Obj([("train/loss", Str("0.5"))]),
                            Obj([("train/loss", Num(0.3))])];
            Series(history, "train/loss") == Some([0.5, 0.3])
  {
    var history := [Obj([("train/loss", Num(0.5))]),
                    Obj([("train/loss", Str("0.5"))]),
                    Obj([("train/loss", Num(0.3))])];
    var values := [Num(0.5), Str("0.5"), Num(0.3)];
    assert Get(history[0], "train/loss") == Num(0.5);
    assert Get(history[1], "train/loss") == Str("0.5");
    assert Get(history[2], "train/loss") == Num(0.3);
    var column := Column(history, "train/loss");
    assert column.Some?;
    assert column.value == values;
    assert values[1..][1..] == values[2..] && values[2..][1..] == values[3..] == [];
    assert Numbers(values[3..]) == [];
    assert Numbers(values[2..]) == [0.3];
    assert Numbers(values[1..]) == [0.3];
    assert Numbers(values) == [0.5, 0.3];
  }

  /** The summary tiles: the first six entries of the summary, in entry order. */
  function SummaryTiles(run: Run): (tiles: seq<(string, Json)>)
    ensures var all := Entries(Or(run.summary, Obj([])));
            && |tiles| == (if |all| < SummaryTileCount then |all| else SummaryTileCount)
            && tiles == all[..|tiles|]
  {
    var all := Entries(Or(run.summary, Obj([])));
    if |all| < SummaryTileCount then all else all[..SummaryTileCount]
  }

  /** What a chart card draws below its title. */
  datatype Chart = Drawn(geometry: Sparkline.Geometry) | NoData

  /** A chart card: the "Last" caption, if any, and the chart. */
  datatype Card = Card(last: Option<real>, chart: Chart)

  /** `ChartCard`: "Last" shows the final value of a non-empty series; a
      series of two or more values is drawn, anything shorter reads "No data". */
  function ChartCard(series: seq<real>): (c: Card)
    ensures c.last.Some? <==> |series| > 0
    ensures c.last.Some? ==> c.last.value == series[|series| - 1]
    ensures c.chart.Drawn? <==> |series| > 1
    ensures c.chart.Drawn? ==> |c.chart.geometry.path| == |series|
                               && c.chart.geometry.path[0].x == Sparkline.Pad
                               && c.chart.geometry.path[|series| - 1].x == Sparkline.Width - Sparkline.Pad
  {
    Card(if |series| > 0 then Some(series[|series| - 1]) else None,
         if |series| > 1 then Drawn(Sparkline.Layout(series)) else NoData)
  }

  /** A drawn card shows exactly its series: the values read back from the
      path are the series, and the caption is the last of them. */
  lemma ChartCardShowsSeries(series: seq<real>)
    requires |series| > 1
    ensures Sparkline.Recover(ChartCard(series).chart.geometry) == series
    ensures ChartCard(series).last == Some(Sparkline.Recover(ChartCard(series).chart.geometry)[|series| - 1])
  {
    Sparkline.GeometryRoundTrip(series);
  }

  /** The four metric cards of the panel, one per entry of `MetricKeys` and in
      that order; a nullish sample makes the render throw instead. */
  function Charts(history: seq<Json>): (cards: Option<seq<Card>>)
    ensures cards.Some? <==> forall i :: 0 <= i < |history| ==> !Nullish(history[i])
    ensures cards.Some? ==> |cards.value| == |MetricKeys|
    ensures cards.Some? ==>
              forall k :: 0 <= k < |MetricKeys| ==>
                Series(history, MetricKeys[k]).Some?
                && cards.value[k] == ChartCard(Series(history, MetricKeys[k]).value)
  {
    if exists i :: 0 <= i < |history| && Nullish(history[i]) then None
    else Some(seq(|MetricKeys|, k requires 0 <= k < |MetricKeys| => ChartCard(Series(history, MetricKeys[k]).value)))
  }
}
