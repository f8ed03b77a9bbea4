# vLLM load balancer, trace profilers and GPTQ config — a Dafny model

This project models four small pieces of vLLM (Habana fork):

- **The completion load balancer** (`LoadBalancer`). A fixed registry of
  workers `Worker(url, utilization)` is built at start-up, worker `i`
  (1-based) at `"http://localhost:808" + str(i)` with utilization 0. On each
  completion request every worker's KV-cache utilization is overwritten, in
  list order, by the value it reports. Then the worker with the least
  utilization is chosen, the first one on a tie, as Python's `min` does. The
  request is forwarded to that worker's `/v1/completions`. The model listing
  always goes to the first worker. The registry is an array updated in
  place by `Refresh`. Selection is the pure function `Select`. A poll is
  given as a sequence of results, one per worker. A failed poll is not
  absorbed: there is no exception handling around the loop, so the first
  failed poll aborts the request. The workers before it keep their new
  readings and the rest keep their old ones. The port scheme is modelled as
  written: from the tenth worker on, every port (five or more digits, "80810"
  for worker 10, `TenthWorkerUrl`) is above 65535.
- **The engine profiler** (`EngineProfiler.AsyncProfiler`). `start_sync`
  pushes a half-built complete ('X') event. `end_sync` pops the most recent
  one, sets `dur = ts - start` and queues it. An end with nothing to pop
  disables the profiler for good. A `'counter'` argument is split off into
  a counter ('C') event, queued first. Each method is proved against a
  step function (`StartStep`, `EndStep`). Lemmas over whole call sequences
  (`Run`) cover the permanence of disabling, last-in first-out pairing and
  the stack balance.
- **The worker profiler** (`WorkerProfiler.Profiler`). `record_event` wraps
  a block: an optional counter event on entry, and one complete event on
  normal exit, stamped with the entry time and the elapsed time in
  microseconds.
- **Shared trace plumbing** (`TraceEvents`): the event records, the queue
  of serialised events (`dumps(event) + ","`), and the writer's drain. The
  drain concatenates everything queued in FIFO order and leaves the queue
  empty.
- **The GPTQ config** (`Gptq`). Construction computes
  `pack_factor = 32 // weight_bits` (Python floor division, `FloorDiv`),
  fails on 0 at that division and rejects every width but 4. `__repr__`
  (`Repr`) prints the three fields as
  `GPTQConfig(weight_bits=…, group_size=…, desc_act=…)`, and
  `ReprRoundTrip` reads them back from it. `from_config` reads
  `"bits"`, `"group_size"` and `"desc_act"`. The class methods return
  constant tables.

Python `str` on integers and booleans (f-strings) is modelled in `Decimal`,
with a parser that proves the rendering injective.

Abstractions: utilization is a `real`. Timestamps and clock readings are
integers passed in by the caller: microseconds for the engine profiler,
seconds scaled by 10^6 for the worker profiler. JSON values are the
`JsonValues.Json` datatype. `json.dumps` is a function `dumps` given to each
profiler object. The `enabled` flag is a constructor parameter.

## Model

| member | source | states |
|---|---|---|
| `Decimal.NatToString` | vllm/entrypoints/openai/load_balancer.py:24 | `str(i)` of a natural number is a non-empty string of digits with no leading zero |
| `Decimal.ParseNatToString` | vllm/entrypoints/openai/load_balancer.py:24 | parsing the decimal rendering of `n` gives back `n` |
| `Decimal.NatToStringInjective` | vllm/entrypoints/openai/load_balancer.py:24 | distinct numbers render as distinct strings |
| `Decimal.IntToString` | vllm/model_executor/quantization_utils/gptq.py:31-33 | `str` of an int is non-empty and never contains ',' |
| `Decimal.BoolToString` | vllm/model_executor/quantization_utils/gptq.py:33 | `str` of a bool is "True" exactly for true and "False" exactly for false, and never contains ',' |
| `Decimal.ParseIntToString` | vllm/model_executor/quantization_utils/gptq.py:31-33 | the rendering of any int, negative ones included, parses back to it |
| `LoadBalancer.WorkerUrl` | vllm/entrypoints/openai/load_balancer.py:24 | the url of worker `i` is `"http://localhost:808"` followed by the decimal digits of `i` |
| `LoadBalancer.InitialRegistry` | vllm/entrypoints/openai/load_balancer.py:23-26 | the registry has `num_workers` entries (none if `num_workers` ≤ 0); entry `i` has url `"http://localhost:808" + str(i + 1)` and utilization 0 |
| `LoadBalancer.NewRegistry` | vllm/entrypoints/openai/load_balancer.py:23-26 | a fresh array holding exactly the initial registry |
| `LoadBalancer.InitialUrlsDistinct` | vllm/entrypoints/openai/load_balancer.py:23-26 | no two initial workers share a url |
| `LoadBalancer.TenthWorkerUrl` | vllm/entrypoints/openai/load_balancer.py:24 | worker 10 gets `"http://localhost:80810"` |
| `LoadBalancer.FirstFailure` | vllm/entrypoints/openai/load_balancer.py:47-50 | the index where the refresh loop stops: every earlier poll reported a value, the poll at that index failed (or it is the end of the poll) |
| `LoadBalancer.Refreshed` | vllm/entrypoints/openai/load_balancer.py:46-50 | a refresh keeps the registry's length and order, and no worker changes its url |
| `LoadBalancer.RefreshedAt` | vllm/entrypoints/openai/load_balancer.py:46-50 | after a refresh the registry has the same length; workers before the first failed poll hold their url and the reported value; workers from it on are unchanged |
| `LoadBalancer.RefreshKeepsStaleReadings` | vllm/entrypoints/openai/load_balancer.py:46-50 | if the poll of worker `k` fails, workers `k` onward keep their old readings |
| `LoadBalancer.RefreshStoresAllReadings` | vllm/entrypoints/openai/load_balancer.py:47-50 | when every poll answers, each worker holds its reported value and its url, in the same order |
| `LoadBalancer.Refresh` | vllm/entrypoints/openai/load_balancer.py:46-50 | the in-place loop leaves the array equal to the refreshed registry, and fails with `PollFailed(k)` exactly when poll `k` is the first failure |
| `LoadBalancer.FirstLeastIndex` | vllm/entrypoints/openai/load_balancer.py:53-54 | `min` by utilization over a non-empty registry: an index whose utilization is ≤ every worker's and < every earlier worker's |
| `LoadBalancer.Select` | vllm/entrypoints/openai/load_balancer.py:53-54 | no worker for an empty registry (where `min` raises); otherwise a valid index of a least utilized worker, the earliest of equal minima |
| `LoadBalancer.SelectIsFirstMinimum` | vllm/entrypoints/openai/load_balancer.py:53-54 | any least utilized worker with no equally low worker before it is the one selected (so a unique minimum is always selected) |
| `LoadBalancer.ForwardUrl` | vllm/entrypoints/openai/load_balancer.py:55 | the forward url is the worker's url followed by `/v1/completions` |
| `LoadBalancer.ModelsUrl` | vllm/entrypoints/openai/load_balancer.py:32 | the models url is the first worker's url followed by `/v1/models`; none for an empty registry |
| `LoadBalancer.RouteCompletion` | vllm/entrypoints/openai/load_balancer.py:39-55 | refresh in place, then: `PollFailed` at the first failed poll, `NoWorkersAvailable` for an empty registry, else the completion url of the selected refreshed worker |
| `LoadBalancer.RoutingScenario` | vllm/entrypoints/openai/load_balancer.py:46-55 | readings 0.8, 0.2, 0.5 route to the second worker; after the second reports 0.9 the next request routes to the third |
| `TraceEvents.SplitCounter` | vllm/entrypoints/openai/profiler.py:72-74 | `'counter'` is split off exactly when `args` is present and holds it; the remaining args lack `'counter'` and keep every other entry |
| `TraceEvents.SplitCounterRestores` | vllm/entrypoints/openai/profiler.py:72-74 | putting the counter back into the remaining args gives the original args |
| `TraceEvents.Dumped` | vllm/worker/profiler.py:63-65 | one queue element per event, in order, each the serialised event followed by ',' |
| `TraceEvents.DumpedEndsWithSeparator` | vllm/worker/profiler.py:63-65 | every queued element ends with ',' |
| `TraceEvents.ConcatAppend` | vllm/worker/profiler.py:21-29 | accumulating `content += element` over two runs of elements gives the two contents joined |
| `TraceEvents.TraceQueue.constructor` | vllm/worker/profiler.py:44 | a new queue is empty |
| `TraceEvents.TraceQueue.Put` | vllm/worker/profiler.py:65 | `put` appends at the tail |
| `TraceEvents.TraceQueue.GetNowait` | vllm/worker/profiler.py:25-28 | `get_nowait` returns and removes the head; on an empty queue it reports `Empty` and changes nothing |
| `TraceEvents.DrainEventQueue` | vllm/worker/profiler.py:21-29 | the drain (also `AsyncFileWriter._drain_event_queue`, vllm/entrypoints/openai/profiler.py:24-32) returns the FIFO concatenation of all queued elements and leaves the queue empty |
| `EngineProfiler.EventTid` | vllm/entrypoints/openai/profiler.py:43 | counter → 4, external → 5, internal → 6; any other type has no thread (`KeyError`) |
| `EngineProfiler.CounterEmits` | vllm/entrypoints/openai/profiler.py:97-106 | when enabled one counter event (pid 1, tid 4, name "engine", the given ts and counter); nothing when disabled |
| `EngineProfiler.StartStep` | vllm/entrypoints/openai/profiler.py:69-84 | disabled: no effect. Enabled: a counter event first if `args` holds `'counter'`; then for a known type one open span (pid 1, its tid, `dur` none, ts = start, args without `'counter'`) pushed; for an unknown type `KeyError` and no push |
| `EngineProfiler.EndStep` | vllm/entrypoints/openai/profiler.py:86-95 | disabled: no effect. Empty stack: disables and queues nothing. Otherwise pops the most recent span and queues it with `dur = ts - start` |
| `EngineProfiler.DisabledRunIsInert` | vllm/entrypoints/openai/profiler.py:69-106 | every call on a disabled profiler leaves the state unchanged and queues nothing |
| `EngineProfiler.UnmatchedEndDisablesForGood` | vllm/entrypoints/openai/profiler.py:89-92 | an end with an empty stack disables the profiler; it and every later call queue nothing |
| `EngineProfiler.StartThenEnd` | vllm/entrypoints/openai/profiler.py:69-95 | a start followed by an end restores the stack and queues the counter event (if any), then the span with `dur = end - start` |
| `EngineProfiler.NestedSpansCloseInnerFirst` | vllm/entrypoints/openai/profiler.py:84-95 | ends pair with starts last-in first-out: the inner span is queued first, each with its own duration |
| `EngineProfiler.CacheBalance` | vllm/entrypoints/openai/profiler.py:84-95 | while the profiler stays enabled, stack length + ends = initial length + starts of known type |
| `EngineProfiler.QueuedEventsAreFinished` | vllm/entrypoints/openai/profiler.py:94-106 | every queued complete event has a duration; every queued counter event has tid 4 and name "engine" |
| `EngineProfiler.AsyncProfiler.constructor` | vllm/entrypoints/openai/profiler.py:48-49 | the profiler starts with the given `enabled` flag and an empty stack |
| `EngineProfiler.AsyncProfiler.DumpWithSep` | vllm/entrypoints/openai/profiler.py:62-64 | queues exactly one element, the serialised entry followed by ',' |
| `EngineProfiler.AsyncProfiler.RecordCounterSync` | vllm/entrypoints/openai/profiler.py:97-106 | queues what `CounterEmits` says |
| `EngineProfiler.AsyncProfiler.StartSync` | vllm/entrypoints/openai/profiler.py:69-84 | the new flag, stack, queue and outcome are those of `StartStep` |
| `EngineProfiler.AsyncProfiler.EndSync` | vllm/entrypoints/openai/profiler.py:86-95 | the new flag, stack and queue are those of `EndStep` |
| `WorkerProfiler.EventTid` | vllm/worker/profiler.py:45 | counter → 1, external → 2, internal → 3; any other type has no thread (`KeyError`) |
| `WorkerProfiler.SecondsToMicros` | vllm/worker/profiler.py:60-61 | `_s_to_us` turns whole seconds into an exact multiple of 10^6 microseconds, from which the seconds are recovered |
| `WorkerProfiler.CounterRecord` | vllm/worker/profiler.py:67-75 | the counter event is exactly pid 1, tid 1 (the counter thread), name "utils", the given ts and the counter as args |
| `WorkerProfiler.RecordEventEmits` | vllm/worker/profiler.py:77-101 | disabled: nothing queued. Enabled: a counter event at the start time first if `args` holds `'counter'`; an unknown type raises before the block; a block that raises queues that counter event (if any) and nothing else; otherwise the last element is the one complete event (pid 1, its tid, ts = start in µs, dur = elapsed µs, args without `'counter'`) |
| `WorkerProfiler.Profiler.constructor` | vllm/worker/profiler.py:48-52 | the profiler keeps the given `enabled` flag and the shared queue |
| `WorkerProfiler.Profiler.DumpWithSep` | vllm/worker/profiler.py:63-65 | queues exactly one element, the serialised entry followed by ',' |
| `WorkerProfiler.Profiler.DumpCounter` | vllm/worker/profiler.py:67-75 | queues the serialised counter record |
| `WorkerProfiler.Profiler.RecordEvent` | vllm/worker/profiler.py:77-101 | builds the event on entry, fills `dur` on exit and queues exactly what `RecordEventEmits` says, with its outcome |
| `Gptq.FloorDiv` | vllm/model_executor/quantization_utils/gptq.py:24 | Python `//`: the quotient rounded toward negative infinity, for either sign of divisor |
| `Gptq.NewGptqConfig` | vllm/model_executor/quantization_utils/gptq.py:14-28 | succeeds exactly for `weight_bits = 4`, storing the three arguments unchanged with `pack_factor = 8`; 0 fails at the division, any other width with the unsupported-bits error |
| `Gptq.Repr` | vllm/model_executor/quantization_utils/gptq.py:30-33 | the printed form starts with `GPTQConfig(weight_bits=` and ends with `)` |
| `Gptq.ReprRoundTrip` | vllm/model_executor/quantization_utils/gptq.py:30-33 | the three fields can be read back from `__repr__`, so distinct settings print differently |
| `Gptq.FromConfig` | vllm/model_executor/quantization_utils/gptq.py:51-56 | the first missing key of "bits", "group_size", "desc_act" is reported; for three present values of the right types the result is exactly the constructor's on them, in that order (so `ZeroDivision` for bits 0 and `UnsupportedWeightBits` for any other width but 4) |
| `Gptq.GetName` | vllm/model_executor/quantization_utils/gptq.py:36-37 | the method's name is "gptq" |
| `Gptq.GetMinCapability` | vllm/model_executor/quantization_utils/gptq.py:44-45 | the minimum compute capability is 70 |
| `Gptq.GetConfigFilenames` | vllm/model_executor/quantization_utils/gptq.py:48-49 | the config is read from `["quantize_config.json"]` |
| `Gptq.GetPackedTensors` | vllm/model_executor/quantization_utils/gptq.py:59-60 | the packed tensors are exactly qweight and qzeros, each packed along dimension 1 |
| `Gptq.GetColParallelTensorNames` | vllm/model_executor/quantization_utils/gptq.py:67-68 | three distinct names: qweight, qzeros and scales |
| `Gptq.GetTransposedTensorNames` | vllm/model_executor/quantization_utils/gptq.py:63-64 | the transposed tensors are exactly the column-parallel ones, in the same order |
| `Gptq.GetRowParallelTensorNames` | vllm/model_executor/quantization_utils/gptq.py:71-72 | the row-parallel tensors are the column-parallel ones followed by `g_idx` |
| `Gptq.TensorTables` | vllm/model_executor/quantization_utils/gptq.py:58-72 | every packed tensor is column-parallel, every column-parallel tensor is row-parallel, and `g_idx` is row-parallel only |

## Left out

- HTTP: the FastAPI routes, httpx clients, the timeout and connection limits, uvicorn and argparse, and relaying the completion's body, headers and status. These are network I/O and library calls. The worker count is a parameter.
- Parsing a worker's metrics response: a poll answer is a `PollResult`. A missing `"utilization"` field, a bad body and a network error are all `Failed`.
- The polls run one after another, as in the code. Concurrent requests sharing the registry are not modelled, since the model is sequential.
- Floating point: utilization is a `real`. Timestamps are integers, so the worker profiler's readings are whole seconds and sub-second precision is not modelled.
- The profilers' background writers (`FileWriter.run`, `AsyncFileWriter.run`, `_start_file_writer_in_background`), file creation and writes, the `asyncio.to_thread` wrappers and the async `record_event`. These are threads and file I/O.
- Environment variables, `get_vllm_instance_id` and the trace file names: `enabled` is a constructor parameter.
- `get_timestamp_us` and `time.time()`: the readings are parameters.
- `json.dumps`: each profiler is given it as an abstract function `dumps`.
- `AsyncFileWriter._drain_event_queue` is the same loop as `FileWriter._drain_event_queue`, so both are modelled by `TraceEvents.DrainEventQueue`.
- The engine profiler's `event_cache` is a class attribute shared by all instances in the code. The model keeps it in one profiler object, so sharing between several engine profilers is not modelled.
- `del args['counter']` changes the caller's dictionary in place, and the open span keeps a reference to that same dictionary (vllm/entrypoints/openai/profiler.py:82, vllm/worker/profiler.py:92). The model builds new argument values, so neither the deletion seen by the caller nor a change the caller makes to the dictionary between start and end (which would show in the queued event) is modelled.
- Logging: `logger.info` in the engine profiler's `__init__` (vllm/entrypoints/openai/profiler.py:50) and `logger.warning` on an unmatched end (line 90) are output only and are not modelled.
- `get_supported_act_dtypes` returns torch dtypes and is not modelled.
- `get_from_keys` lives in `vllm/model_executor/quantization_utils/base.py`, which is not part of this model. It is taken to be a lookup that fails when the key is missing.
- `Gptq.FromConfig`: values of the wrong JSON type are rejected with `WrongType`. The code passes them to the constructor unchecked: a float `4.0` would pass the width check there; `False` fails earlier, at `32 // False` (a zero division), and `True` fails the width check. JSON numbers here are integers.
