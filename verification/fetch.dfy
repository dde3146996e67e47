/** What a `fetch` of JSON over HTTPS can come back with, taken as an input
    instead of performed, and the error strings the dashboard derives from it. */
module Fetch {
  import opened Wrappers
  import opened Js
  import Decimal

  /** The result of `res.json()`: a parsed value, or the parser's error message. */
  datatype Body = Parsed(value: Json) | Unparsable(message: string)

  datatype FetchOutcome =
    /** `fetch` itself rejected (network unreachable, CORS, ...). */
    | NetworkFailure(message: string)
    /** A response arrived with this status; the body is read only when the status is ok. */
    | Response(status: nat, body: Body)

  /** `res.ok`: the status is in the range 200-299. */
  predicate ResponseOk(status: nat) {
    200 <= status <= 299
  }

  /** `e.message || 'Unknown error'`: the text shown for a caught error. */
  function ErrorText(message: string): (r: string)
    ensures r != ""
    ensures message != "" ==> r == message
    ensures message == "" ==> r == "Unknown error"
  {
    if message != "" then message else "Unknown error"
  }

  /** The message of the error thrown for a response that is not ok: the
      status can be read back from the digits after the prefix. */
  function StatusMessage(what: string, status: nat): (r: string)
    ensures var prefix := "Failed to fetch " + what + ": ";
            && |r| > |prefix| && r[..|prefix|] == prefix
            && Decimal.AllDigits(r[|prefix|..])
            && Decimal.ParseDecimal(r[|prefix|..]) == status
  {
    var prefix := "Failed to fetch " + what + ": ";
    var digits := Decimal.NatToString(status);
    Decimal.ParseNatToString(status);
    assert (prefix + digits)[|prefix|..] == digits;
    assert (prefix + digits)[..|prefix|] == prefix;
    prefix + digits
  }

  /** The JSON payload of a fetch of `what`, or the message of the error the
      fetch throws: the rejection itself, a status outside 200-299, or a body
      that does not parse. */
  function Payload(what: string, outcome: FetchOutcome): (r: Result<Json>)
    ensures outcome.NetworkFailure? ==> r == Err(outcome.message)
    ensures outcome.Response? && !ResponseOk(outcome.status) ==>
              r == Err(StatusMessage(what, outcome.status))
    ensures r.Ok? <==> outcome.Response? && ResponseOk(outcome.status) && outcome.body.Parsed?
    ensures r.Ok? ==> r.value == outcome.body.value
    ensures outcome.Response? && ResponseOk(outcome.status) && outcome.body.Unparsable? ==>
              r == Err(outcome.body.message)
  {
    match outcome
    case NetworkFailure(m) => Err(m)
    case Response(status, body) =>
      if !ResponseOk(status) then Err(StatusMessage(what, status))
      else
        match body
        case Unparsable(m) => Err(m)
        case Parsed(v) => Ok(v)
  }

  /** A failed status always produces a visible, non-empty message that names
      the status, and different statuses produce different messages. */
  lemma StatusMessagesDistinct(what: string, s1: nat, s2: nat)
    requires StatusMessage(what, s1) == StatusMessage(what, s2)
    ensures s1 == s2
  {
    var p := "Failed to fetch " + what + ": ";
    assert StatusMessage(what, s1)[|p|..] == Decimal.NatToString(s1);
    assert StatusMessage(what, s2)[|p|..] == Decimal.NatToString(s2);
    Decimal.NatToStringInjective(s1, s2);
  }
}
