/** The older calculator's attempt simulator: a run of attempts at one
    rung, each costing the same precomputed attempt cost, with the chance
    read from the piecewise rule at the current failstack. The random rolls
    are an input, one per attempt, each in [0, 100). */
module EnchantSimulation {
  import opened Common
  import opened EnchantData
  import opened EnchantChance
  import opened EnchantCost

  /** The simulator's inputs (the number of attempts is the number of rolls);
      `addFSAfterFail` makes each failure add a failstack point. */
  datatype SimRequest = SimRequest(
    item: Item,
    level: Level,
    startingFS: nat,
    useCron: bool,
    addFSAfterFail: bool,
    prices: Prices)

  datatype LogEntry = LogEntry(
    attempt: nat,
    failstack: nat,
    successChance: real,
    success: bool,
    cost: real)

  datatype Simulation = Simulation(
    successes: nat,
    failures: nat,
    totalCost: real,
    log: seq<LogEntry>)

  /** The cost of one attempt, computed once for the whole run. */
  function BaseCost(q: SimRequest): real
  {
    AttemptCostOf(q.item, q.level, q.useCron, q.prices)
  }

  /** The attempt numbered `attempt`, made at failstack `fs` with `roll`. */
  function Entry(q: SimRequest, fs: nat, roll: real, attempt: nat): LogEntry
  {
    var chance := SuccessChance(q.item, q.level, fs);
    LogEntry(attempt, fs, chance, roll < chance, BaseCost(q))
  }

  /** A success restarts at the starting failstack; a failure adds a point
      only when the option is on. */
  function NextFailstack(q: SimRequest, e: LogEntry): nat
  {
    if e.success then q.startingFS
    else if q.addFSAfterFail then e.failstack + 1
    else e.failstack
  }

  /** The failstack of the attempt that follows `log`. */
  function FailstackAfter(q: SimRequest, log: seq<LogEntry>): nat
  {
    if log == [] then q.startingFS else NextFailstack(q, log[|log| - 1])
  }

  /** The attempt log of a run with the given rolls. */
  function Log(q: SimRequest, rolls: seq<real>): (log: seq<LogEntry>)
    ensures |log| == |rolls|
  {
    if rolls == [] then []
    else
      var prev := Log(q, rolls[..|rolls| - 1]);
      prev + [Entry(q, FailstackAfter(q, prev), rolls[|rolls| - 1], |rolls|)]
  }

  function Successes(log: seq<LogEntry>): nat
  {
    if log == [] then 0
    else Successes(log[..|log| - 1]) + (if log[|log| - 1].success then 1 else 0)
  }

  function Failures(log: seq<LogEntry>): nat
  {
    if log == [] then 0
    else Failures(log[..|log| - 1]) + (if log[|log| - 1].success then 0 else 1)
  }

  /** The simulator: every attempt costs the same, so the total is the
      number of attempts times one attempt's cost. */
  method RunSimulation(q: SimRequest, rolls: seq<real>) returns (res: Simulation)
    ensures res.log == Log(q, rolls)
    ensures res.successes == Successes(res.log) && res.failures == Failures(res.log)
    ensures res.totalCost == Mul(|rolls| as real, BaseCost(q))
  {
    var baseAttemptCost := CalculateAttemptCost(q.item, q.level, q.useCron, q.prices);
    var currentFS := q.startingFS;
    var successes, failures := 0, 0;
    var totalCost := 0.0;
    var log: seq<LogEntry> := [];
    for i := 0 to |rolls|
      invariant log == Log(q, rolls[..i])
      invariant currentFS == FailstackAfter(q, log)
      invariant successes == Successes(log) && failures == Failures(log)
      invariant totalCost == Mul(i as real, baseAttemptCost)
    {
      LogStep(q, rolls, i);
      var e := Attempt(q, currentFS, rolls[i], i + 1, baseAttemptCost);
      MulStep(i, baseAttemptCost);
      totalCost := totalCost + baseAttemptCost;
      log := log + [e];
      if e.success {
        successes := successes + 1;
        currentFS := q.startingFS;
      } else {
        failures := failures + 1;
        if q.addFSAfterFail {
          currentFS := currentFS + 1;
        }
      }
    }
    assert rolls[..|rolls|] == rolls;
    res := Simulation(successes, failures, totalCost, log);
  }

  /** One attempt: the chance at the current failstack and the roll
      against it. */
  method Attempt(q: SimRequest, currentFS: nat, roll: real, attempt: nat, cost: real) returns (e: LogEntry)
    requires cost == BaseCost(q)
    ensures e == Entry(q, currentFS, roll, attempt)
  {
    var successChance := SuccessChance(q.item, q.level, currentFS);
    var success := roll < successChance;
    e := LogEntry(attempt, currentFS, successChance, success, cost);
  }

  /** The log of one more roll is the log so far and one more entry. */
  lemma LogStep(q: SimRequest, rolls: seq<real>, i: nat)
    requires i < |rolls|
    ensures Log(q, rolls[..i + 1]) == Log(q, rolls[..i]) + [Entry(q, FailstackAfter(q, Log(q, rolls[..i])), rolls[i], i + 1)]
  {
    assert rolls[..i + 1][..i] == rolls[..i];
  }

  // ----- Properties of the simulator -----

  /** Every attempt is either a success or a failure. */
  lemma {:induction false} SuccessesPlusFailures(log: seq<LogEntry>)
    ensures Successes(log) + Failures(log) == |log|
  {
    if log != [] {
      SuccessesPlusFailures(log[..|log| - 1]);
    }
  }

  /** The counters of a run add up to the number of rolls. */
  lemma RunCounts(q: SimRequest, rolls: seq<real>)
    ensures Successes(Log(q, rolls)) + Failures(Log(q, rolls)) == |rolls|
  {
    SuccessesPlusFailures(Log(q, rolls));
  }

  /** What the log records about attempt `i`. */
  predicate EntryRecords(q: SimRequest, rolls: seq<real>, i: nat, e: LogEntry)
    requires i < |rolls|
  {
    && e.attempt == i + 1
    && e.cost == BaseCost(q)
    && e.successChance == SuccessChance(q.item, q.level, e.failstack)
    && (e.success <==> rolls[i] < e.successChance)
  }

  /** Each log line numbers its attempt, holds the chance at its failstack,
      and is a success exactly when the roll is below that chance. */
  lemma {:induction false} LogRecordsAttempts(q: SimRequest, rolls: seq<real>)
    ensures forall i :: 0 <= i < |rolls| ==> EntryRecords(q, rolls, i, Log(q, rolls)[i])
  {
    if rolls != [] {
      var n := |rolls|;
      var init := rolls[..n - 1];
      LogRecordsAttempts(q, init);
      forall i | 0 <= i < n
        ensures EntryRecords(q, rolls, i, Log(q, rolls)[i])
      {
        if i < n - 1 {
          assert Log(q, rolls)[i] == Log(q, init)[i];
          assert EntryRecords(q, init, i, Log(q, init)[i]);
          assert init[i] == rolls[i];
        }
      }
    }
  }

  /** The first attempt is made at the starting failstack, and each later
      one at the failstack its predecessor left. */
  lemma {:induction false} FailstackChain(q: SimRequest, rolls: seq<real>)
    ensures |rolls| > 0 ==> Log(q, rolls)[0].failstack == q.startingFS
    ensures forall i :: 0 < i < |rolls| ==> Log(q, rolls)[i].failstack == NextFailstack(q, Log(q, rolls)[i - 1])
  {
    if rolls != [] {
      var n := |rolls|;
      var init := rolls[..n - 1];
      FailstackChain(q, init);
      var log := Log(q, rolls);
      assert log[..n - 1] == Log(q, init);
      forall i | 0 < i < n
        ensures log[i].failstack == NextFailstack(q, log[i - 1])
      {
        if i < n - 1 {
          assert log[i] == Log(q, init)[i] && log[i - 1] == Log(q, init)[i - 1];
        }
      }
    }
  }

  /** The failstack never falls below where the run started, and without
      the option it never moves at all. */
  lemma {:induction false} FailstackFromStart(q: SimRequest, rolls: seq<real>)
    ensures FailstackAfter(q, Log(q, rolls)) >= q.startingFS
    ensures forall i :: 0 <= i < |rolls| ==> Log(q, rolls)[i].failstack >= q.startingFS
    ensures !q.addFSAfterFail ==> FailstackAfter(q, Log(q, rolls)) == q.startingFS
    ensures !q.addFSAfterFail ==> forall i :: 0 <= i < |rolls| ==> Log(q, rolls)[i].failstack == q.startingFS
  {
    if rolls != [] {
      var n := |rolls|;
      var init := rolls[..n - 1];
      FailstackFromStart(q, init);
      var log := Log(q, rolls);
      forall i | 0 <= i < n - 1
        ensures log[i] == Log(q, init)[i]
      {
      }
    }
  }
}
