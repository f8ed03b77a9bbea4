/** The worker-side profiler (`Profiler.record_event`): a scoped block whose
    counter argument, if any, is queued as a counter event on entry and
    which queues one complete event on normal exit. The two clock readings
    (integer seconds from `time.time()`) are supplied by the caller. */
module WorkerProfiler {

  import opened Wrappers
  import opened JsonValues
  import opened TraceEvents

  /** `event_tid`: the trace thread each event type is drawn on. */
  function EventTid(kind: string): (r: Option<int>)
    ensures kind == "counter" ==> r == Some(1)
    ensures kind == "external" ==> r == Some(2)
    ensures kind == "internal" ==> r == Some(3)
    ensures r.None? <==> kind != "counter" && kind != "external" && kind != "internal"
  {
    var table := map["counter" := 1, "external" := 2, "internal" := 3];
    if kind in table then Some(table[kind]) else None
  }

  /** `_s_to_us`: seconds to microseconds, a whole number of seconds being
      an exact multiple of 10^6 microseconds. */
  function SecondsToMicros(t: int): (us: int)
    ensures us % 1000000 == 0 && us / 1000000 == t
  {
    t * 1000000
  }

  /** `_dump_counter`: the counter event, on the counter thread, named "utils". */
  function CounterRecord(ts: int, counter: Json): (e: Event)
    ensures e == CounterEvent(1, 1, "utils", ts, counter)
  {
    CounterEvent(1, EventTid("counter").value, "utils", ts, counter)
  }

  /** What one `with record_event(kind, name, args):` block queues, and how it
      ends. `bodyCompletes` says whether the profiled block returned
      normally; `start` and `end` are the clock readings on entry and exit.
      When enabled: a counter event first (if `args` holds `'counter'`); an
      unknown `kind` then raises before the block runs; otherwise, if the
      block returns, exactly one complete event, stamped with the entry time
      and lasting until the exit time, whose arguments no longer hold
      `'counter'`. When disabled nothing is queued. */
  function RecordEventEmits(enabled: bool, kind: string, name: string, args: Option<Args>,
                            start: int, end: int, bodyCompletes: bool): (r: (seq<Event>, Outcome))
    ensures !enabled ==> r.0 == [] && r.1 == (if bodyCompletes then Done else BodyRaised)
    ensures enabled && SplitCounter(args).0.Some? ==>
              |r.0| > 0 && r.0[0] == CounterRecord(SecondsToMicros(start), args.value["counter"])
    ensures enabled && SplitCounter(args).0.None? && EventTid(kind).None? ==> r.0 == []
    ensures enabled && EventTid(kind).None? ==> r.1 == UnknownEventType(kind) && |r.0| <= 1
    ensures enabled && EventTid(kind).Some? && !bodyCompletes ==>
              r.1 == BodyRaised &&
              r.0 == (if SplitCounter(args).0.Some?
                      then [CounterRecord(SecondsToMicros(start), SplitCounter(args).0.value)] else [])
    ensures enabled && EventTid(kind).Some? && bodyCompletes ==>
              r.1 == Done && |r.0| == (if SplitCounter(args).0.Some? then 2 else 1) &&
              var x := r.0[|r.0| - 1];
              x.CompleteEvent? && x.span.pid == 1 && x.span.tid == EventTid(kind).value &&
              x.span.name == name && x.span.ts == SecondsToMicros(start) &&
              x.span.dur == Some(SecondsToMicros(end - start)) &&
              x.span.args == SplitCounter(args).1
  {
    if !enabled then ([], if bodyCompletes then Done else BodyRaised)
    else
      var startUs := SecondsToMicros(start);
      var (counter, rest) := SplitCounter(args);
      var counters := if counter.Some? then [CounterRecord(startUs, counter.value)] else [];
      match EventTid(kind)
      case None => (counters, UnknownEventType(kind))
      case Some(tid) =>
        if !bodyCompletes then (counters, BodyRaised)
        else
          var endUs := SecondsToMicros(end);
          (counters + [CompleteEvent(Span(1, tid, name, startUs, Some(endUs - startUs), rest))], Done)
  }

  /** The profiler object. `profilingTraceEvents` is the queue shared with
      the file writer thread; `dumps` stands for `json.dumps`. */
  class Profiler {
    const enabled: bool
    const profilingTraceEvents: TraceQueue
    const dumps: Event -> string

    constructor (enabled: bool, events: TraceQueue, dumps: Event -> string)
      ensures this.enabled == enabled && profilingTraceEvents == events && this.dumps == dumps
    {
      this.enabled := enabled;
      profilingTraceEvents := events;
      this.dumps := dumps;
    }

    /** `_dump_with_sep`: queue exactly one element, the serialised entry
        followed by ','. */
    method DumpWithSep(entry: Event)
      modifies profilingTraceEvents
      ensures profilingTraceEvents.items == old(profilingTraceEvents.items) + Dumped(dumps, [entry])
    {
      profilingTraceEvents.Put(dumps(entry) + ",");
    }

    method DumpCounter(ts: int, counter: Json)
      modifies profilingTraceEvents
      ensures profilingTraceEvents.items == old(profilingTraceEvents.items) + Dumped(dumps, [CounterRecord(ts, counter)])
    {
      DumpWithSep(CounterEvent(1, EventTid("counter").value, "utils", ts, counter));
    }

    /** `record_event` around a block that returns normally when
        `bodyCompletes`: the event dictionary is built on entry, its `dur`
        filled in on exit, then it is queued. */
    method RecordEvent(kind: string, name: string, args: Option<Args>, start: int, end: int, bodyCompletes: bool)
      returns (outcome: Outcome)
      modifies profilingTraceEvents
      ensures var r := RecordEventEmits(enabled, kind, name, args, start, end, bodyCompletes);
              outcome == r.1 &&
              profilingTraceEvents.items == old(profilingTraceEvents.items) + Dumped(dumps, r.0)
    {
      if enabled {
        var startUs := SecondsToMicros(start);
        var eventArgs := args;
        if args.Some? && "counter" in args.value {
          DumpCounter(startUs, args.value["counter"]);
          eventArgs := Some(args.value - {"counter"});
        }
        var tid := EventTid(kind);
        if tid.None? {
          return UnknownEventType(kind);
        }
        var event := Span(1, tid.value, name, startUs, None, eventArgs);
        if !bodyCompletes {
          return BodyRaised;
        }
        var endUs := SecondsToMicros(end);
        event := event.(dur := Some(endUs - startUs));
        DumpWithSep(CompleteEvent(event));
      }
      outcome := if bodyCompletes then Done else BodyRaised;
    }
  }
}
