/** The engine-side profiler (`AsyncProfiler`): a start pushes a half-built
    complete event onto a stack, an end pops the most recent one, fills in
    its duration and queues it; an end without a start disables the profiler
    for good. Timestamps are integer microseconds supplied by the caller. */
module EngineProfiler {

  import opened Wrappers
  import opened JsonValues
  import opened TraceEvents

  /** `event_tid`: the trace thread each event type is drawn on. */
  function EventTid(kind: string): (r: Option<int>)
    ensures kind == "counter" ==> r == Some(4)
    ensures kind == "external" ==> r == Some(5)
    ensures kind == "internal" ==> r == Some(6)
    ensures r.None? <==> kind != "counter" && kind != "external" && kind != "internal"
  {
    var table := map["counter" := 4, "external" := 5, "internal" := 6];
    if kind in table then Some(table[kind]) else None
  }

  /** The profiler's state: the `enabled` flag and the stack `event_cache`
      of started, not yet ended events. */
  datatype EngineState = EngineState(enabled: bool, cache: seq<Span>)

  /** The effect of one call: the new state, the events it queues, in order,
      and how the call ended. */
  datatype Step = Step(state: EngineState, emitted: seq<Event>, outcome: Outcome)

  /** `record_counter_sync`: one counter event on the counter thread, named
      "engine", when enabled; nothing otherwise. */
  function CounterEmits(enabled: bool, ts: int, counter: Json): (r: seq<Event>)
    ensures !enabled ==> r == []
    ensures enabled ==> r == [CounterEvent(1, 4, "engine", ts, counter)]
  {
    if enabled then [CounterEvent(1, EventTid("counter").value, "engine", ts, counter)] else []
  }

  /** `start_sync`. When enabled: a `'counter'` argument is queued as a counter
      event first; then the event type is looked up, which raises `KeyError`
      for an unknown type and otherwise pushes one open span, stamped `ts`,
      whose arguments no longer hold `'counter'`. */
  function StartStep(s: EngineState, kind: string, name: string, args: Option<Args>, ts: int): (r: Step)
    ensures !s.enabled ==> r == Step(s, [], Done)
    ensures s.enabled ==> r.state.enabled
    ensures s.enabled ==> r.emitted == if SplitCounter(args).0.Some?
                                       then [CounterEvent(1, 4, "engine", ts, SplitCounter(args).0.value)]
                                       else []
    ensures s.enabled && EventTid(kind).Some? ==>
              r.outcome == Done &&
              r.state.cache == s.cache + [Span(1, EventTid(kind).value, name, ts, None, SplitCounter(args).1)]
    ensures s.enabled && EventTid(kind).None? ==>
              r.outcome == UnknownEventType(kind) && r.state == s
  {
    if !s.enabled then Step(s, [], Done)
    else
      var (counter, rest) := SplitCounter(args);
      var emitted := if counter.Some? then CounterEmits(s.enabled, ts, counter.value) else [];
      match EventTid(kind)
      case None => Step(s, emitted, UnknownEventType(kind))
      case Some(tid) => Step(s.(cache := s.cache + [Span(1, tid, name, ts, None, rest)]), emitted, Done)
  }

  /** `end_sync`. When enabled: on an empty stack the profiler disables
      itself and queues nothing; otherwise the most recently started span is
      popped and queued with `dur = ts - start`. */
  function EndStep(s: EngineState, ts: int): (r: Step)
    ensures r.outcome == Done
    ensures !s.enabled ==> r.state == s && r.emitted == []
    ensures s.enabled && s.cache == [] ==> r.state == EngineState(false, []) && r.emitted == []
    ensures s.enabled && s.cache != [] ==>
              var last := s.cache[|s.cache| - 1];
              r.state == EngineState(true, s.cache[..|s.cache| - 1]) &&
              r.emitted == [CompleteEvent(last.(dur := Some(ts - last.ts)))]
  {
    if !s.enabled then Step(s, [], Done)
    else if s.cache == [] then Step(s.(enabled := false), [], Done)
    else
      var event := s.cache[|s.cache| - 1];
      Step(s.(cache := s.cache[..|s.cache| - 1]), [CompleteEvent(event.(dur := Some(ts - event.ts)))], Done)
  }

  /** A call on the profiler, with the clock reading it takes. */
  datatype Call =
    | Start(kind: string, name: string, args: Option<Args>, ts: int)
    | End(ts: int)
    | RecordCounter(ts: int, counter: Json)

  function Apply(s: EngineState, c: Call): Step {
    match c
    case Start(kind, name, args, ts) => StartStep(s, kind, name, args, ts)
    case End(ts) => EndStep(s, ts)
    case RecordCounter(ts, counter) => Step(s, CounterEmits(s.enabled, ts, counter), Done)
  }

  /** The final state and everything queued by a sequence of calls, in order.
      A call that raised does not stop the later ones. */
  function Run(s: EngineState, calls: seq<Call>): (EngineState, seq<Event>)
    decreases |calls|
  {
    if calls == [] then (s, [])
    else
      var step := Apply(s, calls[0]);
      var rest := Run(step.state, calls[1..]);
      (rest.0, step.emitted + rest.1)
  }

  lemma RunCons(s: EngineState, c: Call, later: seq<Call>)
    ensures Run(s, [c] + later) ==
            (Run(Apply(s, c).state, later).0, Apply(s, c).emitted + Run(Apply(s, c).state, later).1)
  {
    assert ([c] + later)[0] == c && ([c] + later)[1..] == later;
  }

  /** A disabled profiler ignores every call. */
  lemma {:induction false} DisabledRunIsInert(s: EngineState, calls: seq<Call>)
    requires !s.enabled
    ensures Run(s, calls).0 == s && Run(s, calls).1 == []
    decreases |calls|
  {
    if calls != [] {
      DisabledRunIsInert(s, calls[1..]);
      assert Apply(s, calls[0]).emitted + [] == [];
    }
  }

  /** An end without a matching start disables the profiler for good: it
      queues nothing, and nor does anything after it. */
  lemma UnmatchedEndDisablesForGood(s: EngineState, ts: int, later: seq<Call>)
    requires s.enabled && s.cache == []
    ensures Run(s, [End(ts)] + later).0 == EngineState(false, []) && Run(s, [End(ts)] + later).1 == []
  {
    var calls := [End(ts)] + later;
    assert calls[0] == End(ts) && calls[1..] == later;
    assert Apply(s, calls[0]) == Step(EngineState(false, []), [], Done);
    DisabledRunIsInert(EngineState(false, []), later);
  }

  /** A start followed by an end leaves the stack as it was and queues the
      counter event (if any) and then the span, closed with the elapsed time. */
  lemma StartThenEnd(s: EngineState, kind: string, name: string, args: Option<Args>, t0: int, t1: int)
    requires s.enabled && EventTid(kind).Some?
    ensures var r := Run(s, [Start(kind, name, args, t0), End(t1)]);
            r.0 == s &&
            r.1 == StartStep(s, kind, name, args, t0).emitted +
                   [CompleteEvent(Span(1, EventTid(kind).value, name, t0, Some(t1 - t0), SplitCounter(args).1))]
  {
    var st := StartStep(s, kind, name, args, t0);
    assert st.state.cache[..|st.state.cache| - 1] == s.cache;
    RunCons(s, Start(kind, name, args, t0), [End(t1)]);
    RunCons(st.state, End(t1), []);
    assert [End(t1)] + [] == [End(t1)];
  }

  /** Ends pair with starts last-in first-out: of two nested spans the inner
      one is queued first. */
  lemma NestedSpansCloseInnerFirst(s: EngineState, outer: string, inner: string, t0: int, t1: int, t2: int, t3: int)
    requires s.enabled
    ensures var r := Run(s, [Start("external", outer, None, t0), Start("internal", inner, None, t1), End(t2), End(t3)]);
            r.0 == s &&
            r.1 == [CompleteEvent(Span(1, 6, inner, t1, Some(t2 - t1), None)),
                    CompleteEvent(Span(1, 5, outer, t0, Some(t3 - t0), None))]
  {
    var s1 := StartStep(s, "external", outer, None, t0).state;
    var s2 := StartStep(s1, "internal", inner, None, t1).state;
    assert s2.cache[..|s2.cache| - 1] == s1.cache;
    assert s1.cache[..|s1.cache| - 1] == s.cache;
    RunCons(s, Start("external", outer, None, t0), [Start("internal", inner, None, t1), End(t2), End(t3)]);
    RunCons(s1, Start("internal", inner, None, t1), [End(t2), End(t3)]);
    RunCons(s2, End(t2), [End(t3)]);
    RunCons(s1, End(t3), []);
    assert [End(t3)] + [] == [End(t3)];
    assert [Start("external", outer, None, t0)] + [Start("internal", inner, None, t1), End(t2), End(t3)] ==
           [Start("external", outer, None, t0), Start("internal", inner, None, t1), End(t2), End(t3)];
    assert [Start("internal", inner, None, t1)] + [End(t2), End(t3)] == [Start("internal", inner, None, t1), End(t2), End(t3)];
    assert [End(t2)] + [End(t3)] == [End(t2), End(t3)];
  }

  /** Number of starts with a known event type, the ones that push a span. */
  function PushingStarts(calls: seq<Call>): nat {
    if calls == [] then 0
    else (if calls[0].Start? && EventTid(calls[0].kind).Some? then 1 else 0) + PushingStarts(calls[1..])
  }

  function Ends(calls: seq<Call>): nat {
    if calls == [] then 0 else (if calls[0].End? then 1 else 0) + Ends(calls[1..])
  }

  /** While the profiler stays enabled, the stack holds exactly the spans
      started and not yet ended. */
  lemma {:induction false} CacheBalance(s: EngineState, calls: seq<Call>)
    requires s.enabled
    ensures Run(s, calls).0.enabled ==>
              |Run(s, calls).0.cache| + Ends(calls) == |s.cache| + PushingStarts(calls)
    decreases |calls|
  {
    if calls != [] {
      var step := Apply(s, calls[0]);
      if step.state.enabled {
        CacheBalance(step.state, calls[1..]);
      } else {
        DisabledRunIsInert(step.state, calls[1..]);
      }
    }
  }

  /** Every complete event a run queues is closed (has a duration), and every
      counter event is the engine's, on the counter thread. */
  lemma {:induction false} QueuedEventsAreFinished(s: EngineState, calls: seq<Call>)
    ensures forall e :: e in Run(s, calls).1 ==>
              (e.CompleteEvent? ==> e.span.dur.Some?) &&
              (e.CounterEvent? ==> e.tid == 4 && e.name == "engine")
    decreases |calls|
  {
    if calls != [] {
      QueuedEventsAreFinished(Apply(s, calls[0]).state, calls[1..]);
    }
  }

  /** The profiler object. `profilingTraceEvents` is the queue shared with
      the background writer; `dumps` stands for `json.dumps`. */
  class AsyncProfiler {
    var enabled: bool
    var eventCache: seq<Span>
    const profilingTraceEvents: TraceQueue
    const dumps: Event -> string

    function State(): EngineState
      reads this
    {
      EngineState(enabled, eventCache)
    }

    constructor (enabled: bool, events: TraceQueue, dumps: Event -> string)
      ensures State() == EngineState(enabled, [])
      ensures profilingTraceEvents == events && this.dumps == dumps
    {
      this.enabled := enabled;
      eventCache := [];
      profilingTraceEvents := events;
      this.dumps := dumps;
    }

    /** `_dump_with_sep`: queue exactly one element, the serialised entry
        followed by ','. */
    method DumpWithSep(entry: Event)
      modifies profilingTraceEvents
      ensures profilingTraceEvents.items == old(profilingTraceEvents.items) + Dumped(dumps, [entry])
    {
      profilingTraceEvents.Put(dumps(entry) + ",");
    }

    method RecordCounterSync(ts: int, counter: Json)
      modifies profilingTraceEvents
      ensures profilingTraceEvents.items ==
              old(profilingTraceEvents.items) + Dumped(dumps, CounterEmits(enabled, ts, counter))
    {
      if enabled {
        DumpWithSep(CounterEvent(1, EventTid("counter").value, "engine", ts, counter));
      }
    }

    method StartSync(kind: string, name: string, args: Option<Args>, ts: int) returns (outcome: Outcome)
      modifies this, profilingTraceEvents
      ensures var step := StartStep(old(State()), kind, name, args, ts);
              State() == step.state && outcome == step.outcome &&
              profilingTraceEvents.items == old(profilingTraceEvents.items) + Dumped(dumps, step.emitted)
    {
      outcome := Done;
      if enabled {
        var eventArgs := args;
        if args.Some? && "counter" in args.value {
          RecordCounterSync(ts, args.value["counter"]);
          eventArgs := Some(args.value - {"counter"});
        }
        var tid := EventTid(kind);
        if tid.None? {
          return UnknownEventType(kind);
        }
        eventCache := eventCache + [Span(1, tid.value, name, ts, None, eventArgs)];
      }
    }

    method EndSync(ts: int)
      modifies this, profilingTraceEvents
      ensures var step := EndStep(old(State()), ts);
              State() == step.state &&
              profilingTraceEvents.items == old(profilingTraceEvents.items) + Dumped(dumps, step.emitted)
    {
      if enabled {
        if eventCache == [] {
          enabled := false;
          return;
        }
        var event := eventCache[|eventCache| - 1];
        eventCache := eventCache[..|eventCache| - 1];
        event := event.(dur := Some(ts - event.ts));
        DumpWithSep(CompleteEvent(event));
      }
    }
  }
}
