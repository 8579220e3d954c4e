/** What a stream of events tells, in order: what happened and when, but for the label of a result, which depends on
    the calls known.  Through this the translators are compared with what they translate. */
module Projections {
  import opened Basics
  import opened Events

  /** What each element yields, one after another. */
  function Gather<A, T>(f: A -> seq<T>, s: seq<A>): seq<T> {
    if s == [] then [] else Gather(f, s[..|s| - 1]) + f(s[|s| - 1])
  }

  lemma GatherSnoc<A, T>(f: A -> seq<T>, s: seq<A>, a: A)
    ensures Gather(f, s + [a]) == Gather(f, s) + f(a)
  {
    assert (s + [a])[..|s|] == s;
  }

  /** What happened, and when. */
  datatype Told = Told(ts: string, what: Event)

  /** An event without the label of a result. */
  function Unlabelled(e: Event): Event {
    if e.ToolCallFinished? then e.(tool := "") else e
  }

  function Returned(ok: bool, output: Option<string>): Event {
    ToolCallFinished("", ok, output)
  }

  function Tellings(out: seq<Envelope>): (r: seq<Told>)
    ensures |r| == |out| && forall i :: 0 <= i < |r| ==> r[i] == Told(out[i].ts, Unlabelled(out[i].event))
  {
    seq(|out|, i requires 0 <= i < |out| => Told(out[i].ts, Unlabelled(out[i].event)))
  }

  function AllAt(ts: string, events: seq<Event>): (r: seq<Told>)
    ensures |r| == |events| && forall i :: 0 <= i < |r| ==> r[i] == Told(ts, Unlabelled(events[i]))
  {
    seq(|events|, i requires 0 <= i < |events| => Told(ts, Unlabelled(events[i])))
  }

  lemma TellingsOfTwo(a: seq<Envelope>, b: seq<Envelope>)
    ensures Tellings(a + b) == Tellings(a) + Tellings(b)
  {
  }

  lemma AllAtOfTwo(ts: string, a: seq<Event>, b: seq<Event>)
    ensures AllAt(ts, a + b) == AllAt(ts, a) + AllAt(ts, b)
  {
  }
}
