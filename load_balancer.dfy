/** The routing core of the completion load balancer: a fixed registry of
    backend workers, the per-request refresh of their KV-cache utilization,
    the choice of the least utilized worker, and the URLs it forwards to.
    HTTP traffic is abstracted: a poll of all workers is a sequence of
    results, one per worker, in registry order. */
module LoadBalancer {

  import opened Wrappers
  import opened Decimal

  /** One backend server and the utilization it last reported. */
  datatype Worker = Worker(url: string, utilization: real)

  /** The answer of one worker's `/device/kv_cache_utilization` endpoint:
      the value under `"utilization"`, or a failure (no connection, an error
      status, a body without that field). */
  datatype PollResult = Reported(utilization: real) | Failed

  /** Why a completion request could not be routed. `PollFailed(k)`: the poll
      of worker `k` (0-based) raised, aborting the request; `NoWorkersAvailable`:
      `min` over an empty registry. */
  datatype RouteError = PollFailed(worker: nat) | NoWorkersAvailable

  /** The address of worker `i` (1-based): the port is "808" followed by the
      decimal digits of `i`. */
  function WorkerUrl(i: nat): (url: string)
    ensures "http://localhost:808" <= url
    ensures |url| > 20 && AllDigits(url[20..]) && url[20..] == NatToString(i)
  {
    "http://localhost:808" + NatToString(i)
  }

  /** The registry built at start-up, `Worker(WorkerUrl(i), 0.0)` for `i` in
      `range(1, numWorkers + 1)`, written as the list is built: one worker
      appended per index. */
  function InitialRegistry(numWorkers: int): (ws: seq<Worker>)
    ensures |ws| == if numWorkers > 0 then numWorkers else 0
    ensures forall i :: 0 <= i < |ws| ==> ws[i] == Worker(WorkerUrl(i + 1), 0.0)
    decreases numWorkers
  {
    if numWorkers <= 0 then [] else InitialRegistry(numWorkers - 1) + [Worker(WorkerUrl(numWorkers), 0.0)]
  }

  /** The registry as the array the refresh updates in place. */
  method NewRegistry(numWorkers: int) returns (workers: array<Worker>)
    ensures fresh(workers)
    ensures workers[..] == InitialRegistry(numWorkers)
  {
    var ws := InitialRegistry(numWorkers);
    workers := new Worker[|ws|](i requires 0 <= i < |ws| => ws[i]);
  }

  /** No two workers of the initial registry share an address. */
  lemma InitialUrlsDistinct(numWorkers: int, i: nat, j: nat)
    requires i < j < |InitialRegistry(numWorkers)|
    ensures InitialRegistry(numWorkers)[i].url != InitialRegistry(numWorkers)[j].url
  {
    var ws := InitialRegistry(numWorkers);
    var prefix := "http://localhost:808";
    if ws[i].url == ws[j].url {
      assert NatToString(i + 1) == ws[i].url[|prefix|..];
      assert NatToString(j + 1) == ws[j].url[|prefix|..];
      NatToStringInjective(i + 1, j + 1);
    }
  }

  /** From the tenth worker on, every port ("808" and two or more digits)
      is above the largest TCP port 65535: worker 10 listens on "80810". */
  lemma TenthWorkerUrl()
    ensures InitialRegistry(10)[9].url == "http://localhost:80810"
  {
    assert NatToString(10) == NatToString(1) + [DigitChar(0)];
    assert NatToString(10) == "10";
  }

  /** Index of the first failed poll, or `|poll|` when every poll answered. */
  function FirstFailure(poll: seq<PollResult>): (k: nat)
    ensures k <= |poll|
    ensures forall j :: 0 <= j < k ==> poll[j].Reported?
    ensures k < |poll| ==> poll[k].Failed?
  {
    if poll == [] || poll[0].Failed? then 0 else 1 + FirstFailure(poll[1..])
  }

  /** The registry after one pass of the refresh loop: workers are updated in
      order and the pass stops at the first failed poll, the rest of the
      registry keeping its previous readings. */
  function Refreshed(ws: seq<Worker>, poll: seq<PollResult>): (r: seq<Worker>)
    requires |poll| == |ws|
    ensures |r| == |ws|
    ensures forall j :: 0 <= j < |r| ==> r[j].url == ws[j].url
  {
    if ws == [] then []
    else match poll[0]
      case Failed => ws
      case Reported(u) => [ws[0].(utilization := u)] + Refreshed(ws[1..], poll[1..])
  }

  /** What the refresh does to each worker: the workers before the first
      failed poll take their reported values, the others keep theirs; no
      worker changes address and the registry keeps its length and order. */
  lemma {:induction false} RefreshedAt(ws: seq<Worker>, poll: seq<PollResult>)
    requires |poll| == |ws|
    ensures |Refreshed(ws, poll)| == |ws|
    ensures forall j :: 0 <= j < FirstFailure(poll) ==>
              Refreshed(ws, poll)[j] == Worker(ws[j].url, poll[j].utilization)
    ensures forall j :: FirstFailure(poll) <= j < |ws| ==> Refreshed(ws, poll)[j] == ws[j]
  {
    if ws != [] && poll[0].Reported? {
      RefreshedAt(ws[1..], poll[1..]);
      assert FirstFailure(poll) == 1 + FirstFailure(poll[1..]);
      var r := Refreshed(ws, poll);
      assert r == [ws[0].(utilization := poll[0].utilization)] + Refreshed(ws[1..], poll[1..]);
      forall j | 1 <= j < |ws|
        ensures r[j] == Refreshed(ws[1..], poll[1..])[j - 1]
      {
      }
    }
  }

  /** Stale-on-failure: when the poll of worker `k` fails, every worker from
      `k` on keeps the reading it had. */
  lemma RefreshKeepsStaleReadings(ws: seq<Worker>, poll: seq<PollResult>, k: nat)
    requires |poll| == |ws| && k < |ws| && poll[k].Failed?
    ensures |Refreshed(ws, poll)| == |ws|
    ensures forall j :: k <= j < |ws| ==> Refreshed(ws, poll)[j] == ws[j]
  {
    RefreshedAt(ws, poll);
  }

  /** A refresh in which every worker answers stores every reported value. */
  lemma RefreshStoresAllReadings(ws: seq<Worker>, poll: seq<PollResult>)
    requires |poll| == |ws|
    requires forall j :: 0 <= j < |poll| ==> poll[j].Reported?
    ensures |Refreshed(ws, poll)| == |ws|
    ensures forall j :: 0 <= j < |ws| ==>
              Refreshed(ws, poll)[j].url == ws[j].url &&
              Refreshed(ws, poll)[j].utilization == poll[j].utilization
  {
    RefreshedAt(ws, poll);
  }

  /** The refresh loop over the registry array, in place: the utilization
      of each worker is overwritten with its reported value, in list order,
      and the first failed poll aborts the loop (`Err(PollFailed(k))`). */
  method Refresh(workers: array<Worker>, poll: seq<PollResult>) returns (r: Result<(), RouteError>)
    requires |poll| == workers.Length
    modifies workers
    ensures workers[..] == Refreshed(old(workers[..]), poll)
    ensures r.Ok? <==> FirstFailure(poll) == |poll|
    ensures r.Err? ==> r.error == PollFailed(FirstFailure(poll))
  {
    RefreshedAt(workers[..], poll);
    ghost var target := Refreshed(workers[..], poll);
    var i := 0;
    while i < workers.Length
      invariant 0 <= i <= workers.Length
      invariant forall j :: 0 <= j < i ==> poll[j].Reported?
      invariant forall j :: 0 <= j < i ==>
                  workers[j] == Worker(old(workers[j]).url, poll[j].utilization)
      invariant forall j :: i <= j < workers.Length ==> workers[j] == old(workers[j])
    {
      match poll[i]
      case Failed =>
        assert FirstFailure(poll) == i;
        assert workers[..] == target;
        return Err(PollFailed(i));
      case Reported(u) =>
        workers[i] := workers[i].(utilization := u);
      i := i + 1;
    }
    assert FirstFailure(poll) == |poll|;
    assert workers[..] == target;
    r := Ok(());
  }

  /** Python's `min(workers, key=...)`: scan left to right and replace the
      current best only by a strictly smaller utilization, so the first of
      several equal minima wins. */
  function FirstLeastIndex(ws: seq<Worker>): (k: nat)
    requires |ws| > 0
    ensures k < |ws|
    ensures forall j :: 0 <= j < |ws| ==> ws[k].utilization <= ws[j].utilization
    ensures forall j :: 0 <= j < k ==> ws[k].utilization < ws[j].utilization
    decreases |ws|
  {
    if |ws| == 1 then 0
    else
      var k := FirstLeastIndex(ws[..|ws| - 1]);
      if ws[|ws| - 1].utilization < ws[k].utilization then |ws| - 1 else k
  }

  /** The selection policy: the index of the worker with the least
      utilization, the earliest on a tie; `None` on an empty registry, where
      `min` raises. */
  function Select(ws: seq<Worker>): (r: Option<nat>)
    ensures r.None? <==> |ws| == 0
    ensures r.Some? ==> r.value < |ws|
    ensures r.Some? ==> forall j :: 0 <= j < |ws| ==> ws[r.value].utilization <= ws[j].utilization
    ensures r.Some? ==> forall j :: 0 <= j < r.value ==> ws[r.value].utilization < ws[j].utilization
  {
    if |ws| == 0 then None else Some(FirstLeastIndex(ws))
  }

  /** The two conditions on `Select` determine it: a least utilized worker
      with no equally low worker before it is the one selected. */
  lemma SelectIsFirstMinimum(ws: seq<Worker>, k: nat)
    requires k < |ws|
    requires forall j :: 0 <= j < |ws| ==> ws[k].utilization <= ws[j].utilization
    requires forall j :: 0 <= j < k ==> ws[k].utilization < ws[j].utilization
    ensures Select(ws) == Some(k)
  {
  }

  /** The completion endpoint of a worker. */
  function ForwardUrl(w: Worker): (url: string)
    ensures |url| == |w.url| + 15
    ensures url[..|w.url|] == w.url && url[|w.url|..] == "/v1/completions"
  {
    w.url + "/v1/completions"
  }

  /** The model listing is always fetched from the first worker; indexing
      an empty registry raises. */
  function ModelsUrl(ws: seq<Worker>): (r: Option<string>)
    ensures r.Some? <==> |ws| > 0
    ensures r.Some? ==> |r.value| == |ws[0].url| + 10
    ensures r.Some? ==> r.value[..|ws[0].url|] == ws[0].url && r.value[|ws[0].url|..] == "/v1/models"
  {
    if |ws| == 0 then None else Some(ws[0].url + "/v1/models")
  }

  /** One completion request up to the forward: refresh the registry in
      place, select the least utilized worker and build its completion URL. */
  method RouteCompletion(workers: array<Worker>, poll: seq<PollResult>) returns (r: Result<string, RouteError>)
    requires |poll| == workers.Length
    modifies workers
    ensures workers[..] == Refreshed(old(workers[..]), poll)
    ensures FirstFailure(poll) < |poll| ==> r == Err(PollFailed(FirstFailure(poll)))
    ensures FirstFailure(poll) == |poll| && workers.Length == 0 ==> r == Err(NoWorkersAvailable)
    ensures FirstFailure(poll) == |poll| && workers.Length > 0 ==>
              r == Ok(ForwardUrl(workers[Select(workers[..]).value]))
  {
    var refreshed := Refresh(workers, poll);
    if refreshed.Err? {
      return Err(refreshed.error);
    }
    var best := Select(workers[..]);
    if best.None? {
      return Err(NoWorkersAvailable);
    }
    r := Ok(ForwardUrl(workers[best.value]));
  }

  /** Two consecutive requests over three workers: readings 0.8, 0.2, 0.5
      route to the second worker; once the second reports 0.9 the next
      request routes to the third. */
  lemma RoutingScenario()
    ensures var ws := Refreshed(InitialRegistry(3), [Reported(0.8), Reported(0.2), Reported(0.5)]);
            Select(ws) == Some(1) &&
            Select(Refreshed(ws, [Reported(0.8), Reported(0.9), Reported(0.5)])) == Some(2)
  {
    var ws0 := InitialRegistry(3);
    var ws := Refreshed(ws0, [Reported(0.8), Reported(0.2), Reported(0.5)]);
    RefreshStoresAllReadings(ws0, [Reported(0.8), Reported(0.2), Reported(0.5)]);
    SelectIsFirstMinimum(ws, 1);
    var ws2 := Refreshed(ws, [Reported(0.8), Reported(0.9), Reported(0.5)]);
    RefreshStoresAllReadings(ws, [Reported(0.8), Reported(0.9), Reported(0.5)]);
    SelectIsFirstMinimum(ws2, 2);
  }
}
