/** What the two trace-event profilers share: the records of the Chrome trace
    event format they emit ('X' complete events and 'C' counter events), the
    splitting of a `'counter'` entry out of an event's arguments, the queue of
    serialised events, and the writer's drain of that queue. Serialisation
    (`json.dumps`) is not modelled: each profiler is given it as a function. */
module TraceEvents {

  import opened Wrappers
  import opened JsonValues

  type Args = map<string, Json>

  /** A complete ('X') event: a named span on thread `tid`, starting at `ts`
      microseconds and lasting `dur` microseconds (`None` until it is closed). */
  datatype Span = Span(pid: int, tid: int, name: string, ts: int, dur: Option<int>, args: Option<Args>)

  datatype Event =
    | CompleteEvent(span: Span)
    | CounterEvent(pid: int, tid: int, name: string, ts: int, args: Json)

  /** How a profiler call ended: normally, with the `KeyError` of an unknown
      event type, or with the exception raised by the profiled block. */
  datatype Outcome = Done | UnknownEventType(kind: string) | BodyRaised

  /** The effect of `if args is not None and 'counter' in args: ...; del
      args['counter']`: the counter value, if any, and the arguments left for
      the event. */
  function SplitCounter(args: Option<Args>): (r: (Option<Json>, Option<Args>))
    ensures r.0.Some? <==> args.Some? && "counter" in args.value
    ensures r.0.Some? ==> r.0.value == args.value["counter"]
    ensures r.1.Some? <==> args.Some?
    ensures r.1.Some? ==> "counter" !in r.1.value
    ensures r.1.Some? ==> forall k :: k in args.value && k != "counter" ==>
                            k in r.1.value && r.1.value[k] == args.value[k]
    ensures r.1.Some? ==> r.1.value.Keys <= args.value.Keys
  {
    if args.Some? && "counter" in args.value then
      (Some(args.value["counter"]), Some(args.value - {"counter"}))
    else
      (None, args)
  }

  /** Splitting loses nothing: putting the counter back gives the original
      arguments. */
  lemma SplitCounterRestores(args: Option<Args>)
    ensures var (counter, rest) := SplitCounter(args);
            if counter.Some? then rest.Some? && rest.value["counter" := counter.value] == args.value
            else rest == args
  {
    var (counter, rest) := SplitCounter(args);
    if counter.Some? {
      assert rest.value["counter" := counter.value].Keys == args.value.Keys;
    }
  }

  /** The queue elements `_dump_with_sep` produces, one per event in order:
      the serialised event followed by the separator ','. */
  function Dumped(dumps: Event -> string, events: seq<Event>): (r: seq<string>)
    ensures |r| == |events|
    ensures forall i :: 0 <= i < |r| ==> r[i] == dumps(events[i]) + ","
  {
    if events == [] then [] else [dumps(events[0]) + ","] + Dumped(dumps, events[1..])
  }

  /** Every queued element ends with the separator. */
  lemma DumpedEndsWithSeparator(dumps: Event -> string, events: seq<Event>, i: nat)
    requires i < |events|
    ensures var e := Dumped(dumps, events)[i]; |e| > 0 && e[|e| - 1] == ','
  {
  }

  /** `content += element` over a list of elements, first to last. */
  function Concat(chunks: seq<string>): string {
    if chunks == [] then "" else Concat(chunks[..|chunks| - 1]) + chunks[|chunks| - 1]
  }

  lemma {:induction false} ConcatAppend(a: seq<string>, b: seq<string>)
    ensures Concat(a + b) == Concat(a) + Concat(b)
    decreases |b|
  {
    if b == [] {
      assert a + b == a;
    } else {
      ConcatAppend(a, b[..|b| - 1]);
      assert (a + b)[..|a + b| - 1] == a + b[..|b| - 1];
    }
  }

  /** The process-wide `queue.Queue` of serialised events, shared by every
      producer and by the file writer that empties it. */
  class TraceQueue {
    var items: seq<string>

    constructor ()
      ensures items == []
    {
      items := [];
    }

    /** `put`: append at the tail. */
    method Put(element: string)
      modifies this
      ensures items == old(items) + [element]
    {
      items := items + [element];
    }

    /** `get_nowait`: take the head, or `None` where `queue.Empty` is raised. */
    method GetNowait() returns (r: Option<string>)
      modifies this
      ensures old(items) == [] ==> r == None && items == []
      ensures old(items) != [] ==> r == Some(old(items)[0]) && items == old(items)[1..]
    {
      if items == [] {
        r := None;
      } else {
        r := Some(items[0]);
        items := items[1..];
      }
    }
  }

  /** The writer's `_drain_event_queue`: take elements until the queue is
      empty and return their concatenation, in FIFO order. */
  method DrainEventQueue(eventQueue: TraceQueue) returns (content: string)
    modifies eventQueue
    ensures content == Concat(old(eventQueue.items))
    ensures eventQueue.items == []
  {
    content := "";
    ghost var taken: seq<string> := [];
    while true
      invariant old(eventQueue.items) == taken + eventQueue.items
      invariant content == Concat(taken)
      decreases |eventQueue.items|
    {
      var element := eventQueue.GetNowait();
      if element.None? {
        break;
      }
      ConcatAppend(taken, [element.value]);
      taken := taken + [element.value];
      content := content + element.value;
    }
    assert taken == old(eventQueue.items);
  }
}
