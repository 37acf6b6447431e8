/** Values shared by every module: options, JSON values and instants. */
module Basics {

  datatype Option<+T> = None | Some(value: T)

  type Byte = b: int | 0 <= b < 256

  /** A point on the one monotone clock, or a span of it, in nanoseconds. */
  type Time = int

  const MILLISECOND: Time := 1_000_000

  /** The span that survives being sent to SQL as a whole number of milliseconds. */
  function WholeMillis(d: nat): (r: nat)
    ensures d - MILLISECOND < r <= d
    ensures r % MILLISECOND == 0
    ensures r == d <==> d % MILLISECOND == 0
  {
    d / MILLISECOND * MILLISECOND
  }

  /** JSON as far as the engine looks into it. */
  datatype Json = JText(text: string) | JObject(fields: map<string, Json>) | JOther(raw: string)

  /** The checkpoint written when an event satisfies a wait. */
  function Received(payload: Json): Json {
    JObject(map["received" := payload])
  }

  /** The checkpoint written when a wait times out. */
  const TIMED_OUT: Json := JText("timed_out")

  ghost predicate IsOutcome(j: Json) {
    j == TIMED_OUT || exists p :: j == Received(p)
  }

  datatype Outcome = TimedOut | Delivered(payload: Json) | NotAnOutcome

  /** How a later step reads the checkpoint of a wait. */
  function ReadOutcome(j: Json): (r: Outcome)
    ensures r.TimedOut? <==> j == TIMED_OUT
    ensures forall p :: j == Received(p) ==> r == Delivered(p)
  {
    if j == TIMED_OUT then TimedOut
    else if j.JObject? && "received" in j.fields then
      assert forall p :: j == Received(p) ==> j.fields["received"] == p;
      Delivered(j.fields["received"])
    else NotAnOutcome
  }
}
