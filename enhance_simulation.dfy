/** The live calculator's attempt simulator: a run of attempts at one rung,
    each costing the same precomputed attempt cost, with the success chance
    read at the current failstack and optionally altered by a prayer. The
    random rolls are an input, one per attempt, each in [0, 100). */
module EnhanceSimulation {
  import opened Common
  import opened EnhanceData
  import opened EnhanceChance
  import opened EnhanceCost

  /** The optional prayer to a streamer that alters the chance. */
  datatype Prayer = NoPrayer | Rapolas | Biceptimus

  /** The chance after the prayer: seventy percent more, capped at 90, or
      seventy percent less, never below 0.1. */
  function PrayedChance(prayer: Prayer, sc: real): (c: real)
    requires 0.0 < sc <= ChanceCap
    ensures 0.0 < c <= ChanceCap
    ensures prayer == NoPrayer ==> c == sc
  {
    match prayer
    case NoPrayer => sc
    case Rapolas => Min(sc * 1.7, ChanceCap)
    case Biceptimus => Max(sc * 0.3, 0.1)
  }

  /** The simulator's inputs (the number of attempts is the number of rolls). */
  datatype SimRequest = SimRequest(
    item: Item,
    level: Level,
    startingFS: nat,
    useCron: bool,
    useMemFrags: bool,
    prayer: Prayer,
    costume: bool,
    prices: Prices)

  /** One line of the attempt log; `originalChance` is the chance before the
      prayer. */
  datatype LogEntry = LogEntry(
    attempt: nat,
    failstack: nat,
    successChance: real,
    originalChance: real,
    success: bool,
    cost: real)

  datatype Simulation = Simulation(
    successes: nat,
    failures: nat,
    totalCost: real,
    materialsCost: real,
    cronCost: real,
    memFragsCost: real,
    log: seq<LogEntry>)

  /** The cost of one attempt, computed once for the whole run. */
  function BaseCost(q: SimRequest): AttemptCost
  {
    AttemptCostOf(q.item, q.level, q.useCron, q.useMemFrags, q.costume, q.prices)
  }

  /** The attempt numbered `attempt`, made at failstack `fs` with `roll`. */
  function Entry(q: SimRequest, fs: nat, roll: real, attempt: nat): LogEntry
  {
    var original := SuccessChance(q.item, q.level, fs);
    var chance := PrayedChance(q.prayer, original);
    LogEntry(attempt, fs, chance, original, roll < chance, BaseCost(q).totalCost)
  }

  /** A success restarts at the starting failstack; a failure adds a point
      only when cron stones are used. */
  function NextFailstack(q: SimRequest, e: LogEntry): nat
  {
    if e.success then q.startingFS
    else if q.useCron then e.failstack + 1
    else e.failstack
  }

  /** The failstack of the attempt that follows `log`. */
  function FailstackAfter(q: SimRequest, log: seq<LogEntry>): nat
  {
    if log == [] then q.startingFS else NextFailstack(q, log[|log| - 1])
  }

  /** The attempt log of a run with the given rolls. */
  function Log(q: SimRequest, rolls: seq<real>): (log: seq<LogEntry>)
    ensures |log| == |rolls|
  {
    if rolls == [] then []
    else
      var prev := Log(q, rolls[..|rolls| - 1]);
      prev + [Entry(q, FailstackAfter(q, prev), rolls[|rolls| - 1], |rolls|)]
  }

  function Successes(log: seq<LogEntry>): nat
  {
    if log == [] then 0
    else Successes(log[..|log| - 1]) + (if log[|log| - 1].success then 1 else 0)
  }

  function Failures(log: seq<LogEntry>): nat
  {
    if log == [] then 0
    else Failures(log[..|log| - 1]) + (if log[|log| - 1].success then 0 else 1)
  }

  /** The simulator. Every attempt costs the same, so each total is the
      number of attempts times the matching part of one attempt's cost. */
  method RunSimulation(q: SimRequest, rolls: seq<real>) returns (res: Simulation)
    ensures res.log == Log(q, rolls)
    ensures res.successes == Successes(res.log) && res.failures == Failures(res.log)
    ensures res.totalCost == Mul(|rolls| as real, BaseCost(q).totalCost)
    ensures res.materialsCost == Mul(|rolls| as real, BaseCost(q).materialsCost)
    ensures res.cronCost == Mul(|rolls| as real, BaseCost(q).cronCost)
    ensures res.memFragsCost == Mul(|rolls| as real, BaseCost(q).memFragsCost)
  {
    var base := CalculateAttemptCost(q.item, q.level, q.useCron, q.useMemFrags, q.costume, q.prices);
    var currentFS := q.startingFS;
    var successes, failures := 0, 0;
    var spent := Spent(0.0, 0.0, 0.0, 0.0);
    var log: seq<LogEntry> := [];
    for i := 0 to |rolls|
      invariant log == Log(q, rolls[..i])
      invariant currentFS == FailstackAfter(q, log)
      invariant successes == Successes(log) && failures == Failures(log)
      invariant spent == SpentOn(i, base)
    {
      LogStep(q, rolls, i);
      var e := Attempt(q, currentFS, rolls[i], i + 1, base.totalCost);
      spent := Spend(spent, i, base);
      log := log + [e];
      if e.success {
        successes := successes + 1;
        currentFS := q.startingFS;
      } else {
        failures := failures + 1;
        if q.useCron {
          currentFS := currentFS + 1;
        }
      }
    }
    assert rolls[..|rolls|] == rolls;
    res := Simulation(successes, failures, spent.totalCost, spent.materialsCost, spent.cronCost, spent.memFragsCost, log);
  }

  /** One attempt: the chance at the current failstack, the prayer, and the
      roll against the altered chance. */
  method Attempt(q: SimRequest, currentFS: nat, roll: real, attempt: nat, cost: real) returns (e: LogEntry)
    requires cost == BaseCost(q).totalCost
    ensures e == Entry(q, currentFS, roll, attempt)
  {
    var successChance := SuccessChance(q.item, q.level, currentFS);
    var originalChance := successChance;
    if q.prayer == Rapolas {
      successChance := Min(successChance * 1.7, 90.0);
    } else if q.prayer == Biceptimus {
      successChance := Max(successChance * 0.3, 0.1);
    }
    var success := roll < successChance;
    e := LogEntry(attempt, currentFS, successChance, originalChance, success, cost);
  }

  /** The silver spent so far, by part. */
  datatype Spent = Spent(totalCost: real, materialsCost: real, cronCost: real, memFragsCost: real)

  function SpentOn(n: nat, c: AttemptCost): Spent
  {
    Spent(Mul(n as real, c.totalCost), Mul(n as real, c.materialsCost), Mul(n as real, c.cronCost), Mul(n as real, c.memFragsCost))
  }

  /** Adds one attempt's cost to what `i` attempts spent. */
  method Spend(spent: Spent, i: nat, c: AttemptCost) returns (spent': Spent)
    requires spent == SpentOn(i, c)
    ensures spent' == SpentOn(i + 1, c)
  {
    MulStep(i, c.totalCost);
    MulStep(i, c.materialsCost);
    MulStep(i, c.cronCost);
    MulStep(i, c.memFragsCost);
    spent' := Spent(spent.totalCost + c.totalCost, spent.materialsCost + c.materialsCost,
                    spent.cronCost + c.cronCost, spent.memFragsCost + c.memFragsCost);
  }

  /** The log of one more roll is the log so far and one more entry. */
  lemma LogStep(q: SimRequest, rolls: seq<real>, i: nat)
    requires i < |rolls|
    ensures Log(q, rolls[..i + 1]) == Log(q, rolls[..i]) + [Entry(q, FailstackAfter(q, Log(q, rolls[..i])), rolls[i], i + 1)]
  {
    assert rolls[..i + 1][..i] == rolls[..i];
  }

  // ----- Properties of the simulator -----

  /** Praying to MrRapolas never lowers the chance. */
  lemma RapolasNeverLowers(sc: real)
    requires 0.0 < sc <= ChanceCap
    ensures PrayedChance(Rapolas, sc) >= sc
    ensures PrayedChance(Rapolas, sc) == ChanceCap <==> sc * 1.7 >= ChanceCap
  {
  }

  /** Praying to BiceptimusPrime lowers the chance exactly when it is above
      the 0.1 floor; a chance below the floor is raised to it. */
  lemma BiceptimusLowersAboveFloor(sc: real)
    requires 0.0 < sc <= ChanceCap
    ensures PrayedChance(Biceptimus, sc) < sc <==> sc > 0.1
    ensures PrayedChance(Biceptimus, sc) >= 0.1
  {
  }

  /** Every attempt is either a success or a failure. */
  lemma {:induction false} SuccessesPlusFailures(log: seq<LogEntry>)
    ensures Successes(log) + Failures(log) == |log|
  {
    if log != [] {
      SuccessesPlusFailures(log[..|log| - 1]);
    }
  }

  /** The counters of a run add up to the number of rolls. */
  lemma RunCounts(q: SimRequest, rolls: seq<real>)
    ensures Successes(Log(q, rolls)) + Failures(Log(q, rolls)) == |rolls|
  {
    SuccessesPlusFailures(Log(q, rolls));
  }

  /** What the log records about attempt `i`. */
  predicate EntryRecords(q: SimRequest, rolls: seq<real>, i: nat, e: LogEntry)
    requires i < |rolls|
  {
    && e.attempt == i + 1
    && e.cost == BaseCost(q).totalCost
    && e.originalChance == SuccessChance(q.item, q.level, e.failstack)
    && e.successChance == PrayedChance(q.prayer, e.originalChance)
    && (e.success <==> rolls[i] < e.successChance)
  }

  /** Each log line numbers its attempt, holds the chance at its failstack
      before and after the prayer, and is a success exactly when the roll is
      below the altered chance. */
  lemma {:induction false} LogRecordsAttempts(q: SimRequest, rolls: seq<real>)
    ensures forall i :: 0 <= i < |rolls| ==> EntryRecords(q, rolls, i, Log(q, rolls)[i])
  {
    if rolls != [] {
      var n := |rolls|;
      var init := rolls[..n - 1];
      LogRecordsAttempts(q, init);
      forall i | 0 <= i < n
        ensures EntryRecords(q, rolls, i, Log(q, rolls)[i])
      {
        if i < n - 1 {
          assert Log(q, rolls)[i] == Log(q, init)[i];
          assert EntryRecords(q, init, i, Log(q, init)[i]);
          assert init[i] == rolls[i];
        }
      }
    }
  }

  /** The first attempt is made at the starting failstack, and each later
      one at the failstack its predecessor left. */
  lemma {:induction false} FailstackChain(q: SimRequest, rolls: seq<real>)
    ensures |rolls| > 0 ==> Log(q, rolls)[0].failstack == q.startingFS
    ensures forall i :: 0 < i < |rolls| ==> Log(q, rolls)[i].failstack == NextFailstack(q, Log(q, rolls)[i - 1])
  {
    if rolls != [] {
      var n := |rolls|;
      var init := rolls[..n - 1];
      FailstackChain(q, init);
      var log := Log(q, rolls);
      assert log[..n - 1] == Log(q, init);
      forall i | 0 < i < n
        ensures log[i].failstack == NextFailstack(q, log[i - 1])
      {
        if i < n - 1 {
          assert log[i] == Log(q, init)[i] && log[i - 1] == Log(q, init)[i - 1];
        }
      }
    }
  }

  /** The failstack never falls below where the run started, and without
      cron stones it never moves at all. */
  lemma {:induction false} FailstackFromStart(q: SimRequest, rolls: seq<real>)
    ensures FailstackAfter(q, Log(q, rolls)) >= q.startingFS
    ensures forall i :: 0 <= i < |rolls| ==> Log(q, rolls)[i].failstack >= q.startingFS
    ensures !q.useCron ==> FailstackAfter(q, Log(q, rolls)) == q.startingFS
    ensures !q.useCron ==> forall i :: 0 <= i < |rolls| ==> Log(q, rolls)[i].failstack == q.startingFS
  {
    if rolls != [] {
      var n := |rolls|;
      var init := rolls[..n - 1];
      FailstackFromStart(q, init);
      var log := Log(q, rolls);
      forall i | 0 <= i < n - 1
        ensures log[i] == Log(q, init)[i]
      {
      }
    }
  }
}
