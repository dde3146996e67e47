/** The run list's refresh cycle in the dashboard shell (`fetchRuns`): a
    guard on the connection settings, then a state transition driven by the
    outcome of the fetch. */
module RunSync {
  import opened Wrappers
  import opened Js
  import opened Fetch
  import opened RunRecords
  import opened RunOrder
  import Decimal

  /** The three connection settings. */
  datatype Connection = Connection(apiKey: string, entity: string, project: string)

  /** `apiKey && entity && project`: the guard passes exactly when every
      setting is truthy, that is, non-empty. */
  function IsConfigured(c: Connection): (r: bool)
    ensures r <==> Truthy(Str(c.apiKey)) && Truthy(Str(c.entity)) && Truthy(Str(c.project))
  {
    c.apiKey != "" && c.entity != "" && c.project != ""
  }

  /** What the shell holds about runs: the list, the busy flag, the error
      banner (empty when none) and the selected run. */
  datatype RunsState = RunsState(runs: seq<Run>, loading: bool, error: string, selected: Option<Run>)

  /** The index of the first run whose id is strictly equal to `id`
      (`normalized.find(r => r.id === selectedRun.id)`). */
  function FindById(runs: seq<Run>, id: Json): (r: Option<nat>)
    ensures r.Some? ==> r.value < |runs| && StrictEquals(runs[r.value].id, id)
                        && forall j :: 0 <= j < r.value ==> !StrictEquals(runs[j].id, id)
    ensures r.None? ==> forall j :: 0 <= j < |runs| ==> !StrictEquals(runs[j].id, id)
  {
    if |runs| == 0 then None
    else if StrictEquals(runs[0].id, id) then Some(0)
    else
      match FindById(runs[1..], id)
      case None => None
      case Some(k) => Some(k + 1)
  }

  /** Selection preservation: a selected run whose id is still listed is
      replaced by the first fresh record with that id; otherwise the selection,
      empty or stale, is kept. */
  function Reselect(selected: Option<Run>, runs: seq<Run>): (r: Option<Run>)
    ensures selected.None? ==> r.None?
    ensures selected.Some? && (exists i :: 0 <= i < |runs| && StrictEquals(runs[i].id, selected.value.id)) ==>
              r.Some? && r.value in runs && StrictEquals(r.value.id, selected.value.id)
              && exists i :: 0 <= i < |runs| && r.value == runs[i]
                          && forall j :: 0 <= j < i ==> !StrictEquals(runs[j].id, selected.value.id)
    ensures selected.Some? && (forall i :: 0 <= i < |runs| ==> !StrictEquals(runs[i].id, selected.value.id)) ==>
              r == selected
  {
    match selected
    case None => None
    case Some(s) =>
      match FindById(runs, s.id)
      case Some(i) => Some(runs[i])
      case None => selected
  }

  /** The new run list a fetch produces, or the message of the error it
      throws: the fetch's own failure, or a `null` element in the payload. */
  function FetchedRuns(parseTime: TimeParser, outcome: FetchOutcome): (r: Result<seq<Run>>)
    ensures r.Ok? ==> Payload("runs", outcome).Ok?
    ensures Payload("runs", outcome).Err? ==> r == Err(Payload("runs", outcome).message)
    ensures Payload("runs", outcome).Ok? ==>
              match NormalizeAll(Payload("runs", outcome).value)
              case Ok(normalized) =>
                r.Ok? && multiset(r.value) == multiset(normalized) && NewestFirst(parseTime, r.value)
              case Err(m) => r == Err(m)
  {
    match Payload("runs", outcome)
    case Err(m) => Err(m)
    case Ok(data) =>
      match NormalizeAll(data)
      case Err(m) => Err(m)
      case Ok(normalized) => Ok(SortByTime(parseTime, normalized))
  }

  /** The synchronous start of a refresh: busy, error cleared. */
  function BeginRefresh(st: RunsState): (r: RunsState)
    ensures r.loading && r.error == ""
    ensures r.runs == st.runs && r.selected == st.selected
  {
    st.(loading := true, error := "")
  }

  /** Applying a settled fetch: the `try` body or the `catch`, then the
      `finally` that clears the busy flag. Nothing checks which request the
      outcome answers. */
  function CompleteRefresh(parseTime: TimeParser, st: RunsState, outcome: FetchOutcome): (r: RunsState)
    ensures !r.loading
    ensures FetchedRuns(parseTime, outcome).Ok? ==>
              r.runs == FetchedRuns(parseTime, outcome).value
              && r.selected == Reselect(st.selected, r.runs) && r.error == st.error
    ensures FetchedRuns(parseTime, outcome).Err? ==>
              r.runs == st.runs && r.selected == st.selected
              && r.error == ErrorText(FetchedRuns(parseTime, outcome).message)
  {
    match FetchedRuns(parseTime, outcome)
    case Ok(runs) => st.(runs := runs, selected := Reselect(st.selected, runs), loading := false)
    case Err(m) => st.(error := ErrorText(m), loading := false)
  }

  /** One call of `fetchRuns` with the given connection, from its start to
      its `finally`. */
  function Refresh(parseTime: TimeParser, c: Connection, st: RunsState, outcome: FetchOutcome): (r: RunsState)
    ensures !IsConfigured(c) ==> r == st
    ensures IsConfigured(c) ==> !r.loading
    ensures IsConfigured(c) ==> (r.error == "" <==> FetchedRuns(parseTime, outcome).Ok?)
    ensures IsConfigured(c) && FetchedRuns(parseTime, outcome).Err? ==>
              r.runs == st.runs && r.selected == st.selected
    ensures IsConfigured(c) && outcome.Response? && !ResponseOk(outcome.status) ==>
              r.error == "Failed to fetch runs: " + Decimal.NatToString(outcome.status)
    ensures IsConfigured(c) && outcome.NetworkFailure? ==> r.error == ErrorText(outcome.message)
    ensures IsConfigured(c) && FetchedRuns(parseTime, outcome).Ok? ==>
              r.runs == FetchedRuns(parseTime, outcome).value && r.selected == Reselect(st.selected, r.runs)
  {
    if !IsConfigured(c) then st
    else CompleteRefresh(parseTime, BeginRefresh(st), outcome)
  }

  /** A successful response whose payload is not an array empties the list
      and clears the error, and leaves a selection in place. */
  lemma RefreshNonArrayPayload(parseTime: TimeParser, c: Connection, st: RunsState, status: nat, data: Json)
    requires IsConfigured(c) && ResponseOk(status) && !data.Arr?
    ensures Refresh(parseTime, c, st, Response(status, Parsed(data))) ==
              RunsState([], false, "", st.selected)
  {
    var r := Reselect(st.selected, []);
  }

  /** A successful refresh lists every element of the payload exactly once,
      newest first. */
  lemma RefreshListsPayload(parseTime: TimeParser, c: Connection, st: RunsState, status: nat, items: seq<Json>)
    requires IsConfigured(c) && ResponseOk(status)
    requires forall i :: 0 <= i < |items| ==> !Nullish(items[i])
    ensures var r := Refresh(parseTime, c, st, Response(status, Parsed(Arr(items))));
            && |r.runs| == |items|
            && multiset(r.runs) == multiset(NormalizeAll(Arr(items)).value)
            && NewestFirst(parseTime, r.runs)
            && (forall i :: 0 <= i < |items| ==> Normalize(items[i]) in r.runs)
            && (forall run :: run in r.runs ==> exists i :: 0 <= i < |items| && run == Normalize(items[i]))
            && r.error == "" && !r.loading
  {
    var normalized := NormalizeAll(Arr(items)).value;
    var r := Refresh(parseTime, c, st, Response(status, Parsed(Arr(items))));
    assert multiset(r.runs) == multiset(normalized);
    assert |r.runs| == |multiset(r.runs)| == |multiset(normalized)| == |normalized|;
    forall i | 0 <= i < |items| ensures Normalize(items[i]) in r.runs {
      assert normalized[i] in multiset(normalized);
    }
    forall run | run in r.runs ensures exists i :: 0 <= i < |items| && run == Normalize(items[i]) {
      assert run in multiset(normalized);
      var i :| 0 <= i < |normalized| && normalized[i] == run;
    }
  }

  /** A `null` element in the payload fails the whole refresh: the list and
      the selection stay as they were and the error shows the `TypeError`. */
  lemma RefreshNullElementFails(parseTime: TimeParser, c: Connection, st: RunsState, status: nat, items: seq<Json>, k: nat)
    requires IsConfigured(c) && ResponseOk(status)
    requires k < |items| && items[k] == Null
    requires forall j :: 0 <= j < k ==> !Nullish(items[j])
    ensures var r := Refresh(parseTime, c, st, Response(status, Parsed(Arr(items))));
            r.runs == st.runs && r.selected == st.selected && !r.loading
            && r.error == NullishReadMessage(Null, "id")
  {
    var outcome := Response(status, Parsed(Arr(items)));
    assert Payload("runs", outcome) == Ok(Arr(items));
    var res := NormalizeAll(Arr(items));
    assert ArrayOrEmpty(Arr(items)) == items;
    assert res.Err?;
    var i :| 0 <= i < |items| && Nullish(items[i]) && res.message == NullishReadMessage(items[i], "id")
             && forall j :: 0 <= j < i ==> !Nullish(items[j]);
    assert i == k;
    assert FetchedRuns(parseTime, outcome) == Err(res.message);
  }

  /** No stale-response guard: when two refreshes overlap, whichever response
      settles last decides the list, whatever order they were issued in. */
  lemma LastSettledRefreshWins(parseTime: TimeParser, st: RunsState, first: FetchOutcome, second: FetchOutcome)
    requires FetchedRuns(parseTime, second).Ok?
    ensures var r := CompleteRefresh(parseTime, CompleteRefresh(parseTime, BeginRefresh(BeginRefresh(st)), first), second);
            r.runs == FetchedRuns(parseTime, second).value && !r.loading
  {
  }

  /** Two runs listed oldest first come out newest first. */
  lemma SortTwo(parseTime: TimeParser, older: Run, newer: Run)
    requires EffectiveTime(parseTime, older) < EffectiveTime(parseTime, newer)
    ensures SortByTime(parseTime, [older, newer]) == [newer, older]
  {
    assert [older, newer][1..] == [newer];
    assert SortByTime(parseTime, [newer]) == [newer];
  }

  /** Runs carrying an `updatedAt` stamp are ordered by that stamp. */
  lemma UpdateStampOrders(parseTime: TimeParser, older: Json, newer: Json)
    requires !Nullish(older) && !Nullish(newer)
    requires Truthy(Get(older, "updatedAt")) && Truthy(Get(newer, "updatedAt"))
    requires parseTime(Get(older, "updatedAt")) < parseTime(Get(newer, "updatedAt"))
    ensures EffectiveTime(parseTime, Normalize(older)) < EffectiveTime(parseTime, Normalize(newer))
  {
    NormalizeTimestamps(older);
    NormalizeTimestamps(newer);
    EffectiveTimeFallback(parseTime, Normalize(older));
    EffectiveTimeFallback(parseTime, Normalize(newer));
  }

  /** Two runs, the newer listed second, come out newest first: a successful
      response whose payload normalises to an older and a newer run, in that
      order, lists the newer run first and clears the error. */
  lemma RefreshOrdersNewestFirst(parseTime: TimeParser, c: Connection, st: RunsState, status: nat,
                            data: Json, older: Run, newer: Run)
    requires IsConfigured(c) && ResponseOk(status)
    requires NormalizeAll(data) == Ok([older, newer])
    requires EffectiveTime(parseTime, older) < EffectiveTime(parseTime, newer)
    ensures var r := Refresh(parseTime, c, st, Response(status, Parsed(data)));
            r.runs == [newer, older] && r.error == "" && !r.loading
  {
    SortTwo(parseTime, older, newer);
  }

  /** A server error keeps the view: a 500 on a refresh keeps the list and the
      selection and raises the error banner with the status. */
  lemma ServerErrorKeepsView(parseTime: TimeParser, c: Connection, st: RunsState, body: Body)
    requires IsConfigured(c)
    ensures var r := Refresh(parseTime, c, st, Response(500, body));
            r.runs == st.runs && r.selected == st.selected && !r.loading
            && r.error == "Failed to fetch runs: 500"
  {
    assert Decimal.NatToString(500) == "500";
  }
}
