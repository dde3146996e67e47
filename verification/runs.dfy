/** The canonical run record and the normalisation of raw run objects
    (the `.map` in `fetchRuns`). */
module RunRecords {
  import opened Wrappers
  import opened Js

  /** One run as the dashboard keeps it. Every field is whatever JSON value the
      fallback chain produced: the source never checks types. */
  datatype Run = Run(
    id: Json,
    name: Json,
    state: Json,
    createdAt: Json,
    updatedAt: Json,
    user: Json,
    summary: Json,
    tags: Json,
    notes: Json,
    config: Json
  )

  /** One raw run object to its canonical record (`id`, `name`, ... as in
      the source's object literal); `NormalizeChains` states the fallback
      order of every field. */
  function Normalize(raw: Json): Run
    requires !Nullish(raw)
  {
    Run(
      id := Get(raw, "id"),
      name := OrElse([Get(raw, "display_name"), Get(raw, "name"), Get(raw, "id")]),
      state := Get(raw, "state"),
      createdAt := OrElse([Get(raw, "createdAt"), Get(raw, "created_at")]),
      updatedAt := OrElse([Get(raw, "updatedAt"), Get(raw, "updated_at"),
                           Get(raw, "heartbeatAt"), Get(raw, "heartbeat_at")]),
      user := OrElse([Get(raw, "user"), Get(raw, "username")]),
      summary := OrElse([Get(raw, "summary_metrics"), Get(raw, "summary"), Obj([])]),
      tags := OrElse([Get(raw, "tags"), Arr([])]),
      notes := OrElse([Get(raw, "notes"), Str("")]),
      config := OrElse([Get(raw, "config"), Obj([])])
    )
  }

  /** Every field of the record takes the first truthy value among its
      source fields, else the last operand of its chain. */
  lemma NormalizeChains(raw: Json)
    requires !Nullish(raw)
    ensures var run := Normalize(raw);
      && run.id == Get(raw, "id")
      && FirstTruthyOrLast([Get(raw, "display_name"), Get(raw, "name"), Get(raw, "id")], run.name)
      && run.state == Get(raw, "state")
      && FirstTruthyOrLast([Get(raw, "createdAt"), Get(raw, "created_at")], run.createdAt)
      && FirstTruthyOrLast([Get(raw, "updatedAt"), Get(raw, "updated_at"),
                            Get(raw, "heartbeatAt"), Get(raw, "heartbeat_at")], run.updatedAt)
      && FirstTruthyOrLast([Get(raw, "user"), Get(raw, "username")], run.user)
      && FirstTruthyOrLast([Get(raw, "summary_metrics"), Get(raw, "summary"), Obj([])], run.summary)
      && FirstTruthyOrLast([Get(raw, "tags"), Arr([])], run.tags)
      && FirstTruthyOrLast([Get(raw, "notes"), Str("")], run.notes)
      && FirstTruthyOrLast([Get(raw, "config"), Obj([])], run.config)
  {
  }

  /** The label chain: an empty `display_name` is skipped, and a run lacking
      both names is labelled by its id. */
  lemma NormalizeName(raw: Json)
    requires !Nullish(raw)
    ensures Truthy(Get(raw, "display_name")) ==> Normalize(raw).name == Get(raw, "display_name")
    ensures !Truthy(Get(raw, "display_name")) && Truthy(Get(raw, "name")) ==>
              Normalize(raw).name == Get(raw, "name")
    ensures !Truthy(Get(raw, "display_name")) && !Truthy(Get(raw, "name")) ==>
              Normalize(raw).name == Get(raw, "id")
  {
    NormalizeChains(raw);
    FirstTruthyOfThree(Get(raw, "display_name"), Get(raw, "name"), Get(raw, "id"), Normalize(raw).name);
  }

  /** The collection fields default to empty values and are never `null` or
      `undefined`, so later `Object.entries` and `.map` calls cannot throw. */
  lemma NormalizeDefaults(raw: Json)
    requires !Nullish(raw)
    ensures !Truthy(Get(raw, "summary_metrics")) && !Truthy(Get(raw, "summary")) ==>
              Normalize(raw).summary == Obj([])
    ensures Truthy(Normalize(raw).summary) || Normalize(raw).summary == Obj([])
    ensures !Truthy(Get(raw, "tags")) ==> Normalize(raw).tags == Arr([])
    ensures !Truthy(Get(raw, "notes")) ==> Normalize(raw).notes == Str("")
    ensures !Truthy(Get(raw, "config")) ==> Normalize(raw).config == Obj([])
  {
    var r := Normalize(raw);
    NormalizeChains(raw);
    FirstTruthyOfThree(Get(raw, "summary_metrics"), Get(raw, "summary"), Obj([]), r.summary);
    FirstTruthyOfTwo(Get(raw, "tags"), Arr([]), r.tags);
    FirstTruthyOfTwo(Get(raw, "notes"), Str(""), r.notes);
    FirstTruthyOfTwo(Get(raw, "config"), Obj([]), r.config);
  }

  /** The update stamp is set exactly when one of its four sources is set, and
      the creation stamp exactly when one of its two sources is. */
  lemma NormalizeTimestamps(raw: Json)
    requires !Nullish(raw)
    ensures Truthy(Normalize(raw).updatedAt) <==>
              Truthy(Get(raw, "updatedAt")) || Truthy(Get(raw, "updated_at"))
              || Truthy(Get(raw, "heartbeatAt")) || Truthy(Get(raw, "heartbeat_at"))
    ensures Truthy(Get(raw, "updatedAt")) ==> Normalize(raw).updatedAt == Get(raw, "updatedAt")
    ensures Truthy(Normalize(raw).createdAt) <==>
              Truthy(Get(raw, "createdAt")) || Truthy(Get(raw, "created_at"))
  {
    var r := Normalize(raw);
    NormalizeChains(raw);
    var stamps := [Get(raw, "updatedAt"), Get(raw, "updated_at"),
                   Get(raw, "heartbeatAt"), Get(raw, "heartbeat_at")];
    FirstTruthyFacts(stamps, r.updatedAt);
    assert stamps[0] == Get(raw, "updatedAt") && stamps[1] == Get(raw, "updated_at");
    assert stamps[2] == Get(raw, "heartbeatAt") && stamps[3] == Get(raw, "heartbeat_at");
    FirstTruthyOfTwo(Get(raw, "createdAt"), Get(raw, "created_at"), r.createdAt);
  }

  /** The whole payload: `(Array.isArray(data) ? data : []).map(...)`. Reading
      `r.id` of a `null` element throws, which abandons the whole batch. */
  function NormalizeAll(data: Json): (r: Result<seq<Run>>)
    ensures !data.Arr? ==> r == Ok([])
    ensures r.Ok? <==> forall i :: 0 <= i < |ArrayOrEmpty(data)| ==> !Nullish(ArrayOrEmpty(data)[i])
    ensures r.Ok? ==> |r.value| == |ArrayOrEmpty(data)|
                      && forall i :: 0 <= i < |r.value| ==> r.value[i] == Normalize(ArrayOrEmpty(data)[i])
    ensures r.Err? ==> exists i :: 0 <= i < |ArrayOrEmpty(data)| && Nullish(ArrayOrEmpty(data)[i])
                        && r.message == NullishReadMessage(ArrayOrEmpty(data)[i], "id")
                        && forall j :: 0 <= j < i ==> !Nullish(ArrayOrEmpty(data)[j])
  {
    NormalizeEach(ArrayOrEmpty(data))
  }

  /** Normalises `items` front to back; the first nullish element throws. */
  function NormalizeEach(items: seq<Json>): (r: Result<seq<Run>>)
    ensures r.Ok? <==> forall i :: 0 <= i < |items| ==> !Nullish(items[i])
    ensures r.Ok? ==> |r.value| == |items|
                      && forall i :: 0 <= i < |items| ==> r.value[i] == Normalize(items[i])
    ensures r.Err? ==> exists i :: 0 <= i < |items| && Nullish(items[i])
                        && r.message == NullishReadMessage(items[i], "id")
                        && forall j :: 0 <= j < i ==> !Nullish(items[j])
  {
    if exists i :: 0 <= i < |items| && Nullish(items[i]) then
      var k := FirstNullish(items);
      Err(NullishReadMessage(items[k], "id"))
    else
      Ok(seq(|items|, i requires 0 <= i < |items| => Normalize(items[i])))
  }

  /** The index of the first `null` or `undefined` element. */
  function FirstNullish(items: seq<Json>): (k: nat)
    requires exists i :: 0 <= i < |items| && Nullish(items[i])
    ensures k < |items| && Nullish(items[k])
    ensures forall j :: 0 <= j < k ==> !Nullish(items[j])
  {
    if Nullish(items[0]) then 0
    else
      assert Nullish(items[1..][FirstNullishWitness(items) - 1]);
      1 + FirstNullish(items[1..])
  }

  /** Some nullish element's index, chosen arbitrarily. */
  ghost function FirstNullishWitness(items: seq<Json>): (i: nat)
    requires exists i :: 0 <= i < |items| && Nullish(items[i])
    ensures i < |items| && Nullish(items[i])
  {
    var i :| 0 <= i < |items| && Nullish(items[i]); i
  }
}
