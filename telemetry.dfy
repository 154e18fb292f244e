/**
  The telemetry records exchanged between the browser tagger and the server:
  a JSON-like payload value and the `{t, ts, payload}` event.
 */
module Telemetry {

  /** The payload values the tagger produces: numbers, strings and `null`. */
  datatype Value = Num(n: real) | Str(s: string) | Null

  /** An event payload: a JSON object with string keys. */
  type Payload = map<string, Value>

  /** One queued event: its type tag, the clock reading when queued, and its payload. */
  datatype Event = Event(t: string, ts: int, payload: Payload)

  /** All events of a list of batches, in order. */
  function Flatten(batches: seq<seq<Event>>): (r: seq<Event>)
    ensures batches == [] ==> r == []
  {
    if batches == [] then [] else Flatten(batches[..|batches| - 1]) + batches[|batches| - 1]
  }

  /** Flattening one more batch appends that batch's events. */
  lemma FlattenSnoc(batches: seq<seq<Event>>, b: seq<Event>)
    ensures Flatten(batches + [b]) == Flatten(batches) + b
  {
    assert (batches + [b])[..|batches|] == batches;
  }
}
