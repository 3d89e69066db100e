/** The trailing debounce that sits between the store and the renderer (`debouncedUpdateJson`,
    src/store/useFile.ts:201-204). Wall-clock time is not modelled: the debounce is a one-slot
    pending value, a call replaces whatever is pending (lodash cancels the earlier timer), and
    `Quiet` stands for the end of an 800 ms quiet window, when the pending value, if any, is emitted. */
module Debounce {
  import opened Wrappers

  datatype Event<T> = Call(value: T) | Quiet

  /** A call schedules its value; an earlier pending value is discarded, never queued. */
  function Schedule<T>(pending: Option<T>, v: T): Option<T>
  {
    Some(v)
  }

  /** The end of a quiet window: the slot empties and its value, if any, is the one notification. */
  function Fire<T>(pending: Option<T>): (r: (Option<T>, seq<T>))
    ensures r.0 == None
    ensures |r.1| == (if pending.Some? then 1 else 0)
    ensures pending.Some? ==> r.1[0] == pending.value
  {
    match pending
    case None => (None, [])
    case Some(v) => (None, [v])
  }

  /** The pending slot after a run of events, and the notifications emitted during it, in order. */
  function Run<T>(pending: Option<T>, events: seq<Event<T>>): (Option<T>, seq<T>)
    decreases |events|
  {
    if events == [] then (pending, [])
    else
      match events[0]
      case Call(v) => Run(Schedule(pending, v), events[1..])
      case Quiet =>
        var (rest, out) := Fire(pending);
        var (last, later) := Run(rest, events[1..]);
        (last, out + later)
  }

  /** A burst of calls, with no quiet window between them. */
  function Calls<T>(vs: seq<T>): (es: seq<Event<T>>)
    ensures |es| == |vs|
    ensures forall i :: 0 <= i < |vs| ==> es[i] == Call(vs[i])
  {
    if vs == [] then [] else [Call(vs[0])] + Calls(vs[1..])
  }

  /** A burst of calls schedules only its last value, whatever was pending before it. */
  lemma {:induction false} BurstKeepsLast<T>(pending: Option<T>, vs: seq<T>)
    requires |vs| > 0
    ensures Run(pending, Calls(vs)) == (Some(vs[|vs| - 1]), [])
    decreases |vs|
  {
    if |vs| == 1 {
      assert Calls(vs) == [Call(vs[0])];
      assert Calls(vs)[1..] == [];
    } else {
      assert Calls(vs)[1..] == Calls(vs[1..]);
      BurstKeepsLast(Schedule(pending, vs[0]), vs[1..]);
    }
  }

  /** Running a prefix of calls and then the rest of the events is running them all. */
  lemma {:induction false} RunAfterCalls<T>(pending: Option<T>, vs: seq<T>, rest: seq<Event<T>>)
    ensures Run(pending, Calls(vs) + rest) == Run(Run(pending, Calls(vs)).0, rest)
    ensures Run(pending, Calls(vs)).1 == []
    decreases |vs|
  {
    if vs != [] {
      assert (Calls(vs) + rest)[0] == Call(vs[0]);
      assert (Calls(vs) + rest)[1..] == Calls(vs[1..]) + rest;
      assert Calls(vs)[1..] == Calls(vs[1..]);
      RunAfterCalls(Schedule(pending, vs[0]), vs[1..], rest);
    } else {
      assert Calls(vs) + rest == rest;
    }
  }

  /** N calls inside one quiet window produce exactly one notification, carrying the last call's
      value, and leave nothing pending. */
  lemma BurstEmitsOnce<T>(pending: Option<T>, vs: seq<T>)
    requires |vs| > 0
    ensures Run(pending, Calls(vs) + [Quiet]) == (None, [vs[|vs| - 1]])
  {
    var window: seq<Event<T>> := [Quiet];
    var last := vs[|vs| - 1];
    RunAfterCalls(pending, vs, window);
    BurstKeepsLast(pending, vs);
    assert window[0] == Quiet && window[1..] == [];
    assert Fire(Some(last)) == (None, [last]);
    assert Run(None, window[1..]) == (None, []);
    assert Run(Some(last), window) == (None, [last] + []);
    assert [last] + [] == [last];
    assert Calls(vs) + [Quiet] == Calls(vs) + window;
  }
}
