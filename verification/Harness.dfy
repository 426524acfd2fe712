/** The load harness: tasks under a counting semaphore that update two shared counters under a
    lock, in every interleaving, the counter updates themselves split into read and write. */
module Harness {
  import opened Prelude

  datatype Pc =
    | Start | Waiting                                    // before the semaphore
    | Entering | Locked | Adding(seen: int) | Recording  // counting in
    | Processing
    | Leaving | Relocked | Subtracting(was: int)         // counting out
    | Releasing | Finished

  datatype State = State(tasks: seq<Pc>, free: int, holder: Option<nat>, inFlight: int, maxInFlight: int)

  function Initial(n: nat, concurrency: nat): State {
    State(seq(n, i => Start), concurrency, None, 0, 0)
  }

  /** Whether task `i` can move. */
  predicate Enabled(s: State, i: nat) {
    i < |s.tasks| &&
    match s.tasks[i]
    case Waiting => s.free > 0
    case Entering => s.holder.None?
    case Leaving => s.holder.None?
    case Finished => false
    case _ => true
  }

  /** The next step of task `i`; nothing happens while it is blocked. */
  function Step(s: State, i: nat): (t: State)
    ensures |t.tasks| == |s.tasks|
  {
    if !Enabled(s, i) then s
    else
      match s.tasks[i]
      case Start => s.(tasks := s.tasks[i := Waiting])
      case Waiting => s.(tasks := s.tasks[i := Entering], free := s.free - 1)
      case Entering => s.(tasks := s.tasks[i := Locked], holder := Some(i))
      case Locked => s.(tasks := s.tasks[i := Adding(s.inFlight)])
      case Adding(seen) => s.(tasks := s.tasks[i := Recording], inFlight := seen + 1)
      case Recording =>
        s.(tasks := s.tasks[i := Processing], holder := None,
           maxInFlight := if s.inFlight > s.maxInFlight then s.inFlight else s.maxInFlight)
      case Processing => s.(tasks := s.tasks[i := Leaving])
      case Leaving => s.(tasks := s.tasks[i := Relocked], holder := Some(i))
      case Relocked => s.(tasks := s.tasks[i := Subtracting(s.inFlight)])
      case Subtracting(was) => s.(tasks := s.tasks[i := Releasing], holder := None, inFlight := was - 1)
      case Releasing => s.(tasks := s.tasks[i := Finished], free := s.free + 1)
      case Finished => s
  }

  function Run(s: State, schedule: seq<nat>): (t: State)
    ensures |t.tasks| == |s.tasks|
    decreases |schedule|
  {
    if schedule == [] then s else Run(Step(s, schedule[0]), schedule[1..])
  }

  /** The largest number in flight at any moment of the run. */
  function Peak(s: State, schedule: seq<nat>): int
    decreases |schedule|
  {
    if schedule == [] then s.inFlight
    else
      var rest := Peak(Step(s, schedule[0]), schedule[1..]);
      if s.inFlight > rest then s.inFlight else rest
  }

  // ----- counting tasks -----

  /** Counted in and not yet out. */
  predicate Counted(p: Pc) { p in {Recording, Processing, Leaving, Relocked} || p.Subtracting? }

  predicate HasPermit(p: Pc) { Counted(p) || p in {Entering, Locked, Releasing} || p.Adding? }

  predicate HasLock(p: Pc) { p in {Locked, Recording, Relocked} || p.Adding? || p.Subtracting? }

  function Count(p: Pc -> bool, tasks: seq<Pc>): nat {
    if tasks == [] then 0 else (if p(tasks[0]) then 1 else 0) + Count(p, tasks[1..])
  }

  lemma {:induction false} CountUpdate(p: Pc -> bool, tasks: seq<Pc>, i: nat, x: Pc)
    requires i < |tasks|
    ensures Count(p, tasks[i := x]) == Count(p, tasks) - (if p(tasks[i]) then 1 else 0) + (if p(x) then 1 else 0)
  {
    if i == 0 {
      assert tasks[0 := x][1..] == tasks[1..];
    } else {
      assert tasks[i := x][1..] == tasks[1..][i - 1 := x];
      CountUpdate(p, tasks[1..], i - 1, x);
    }
  }

  lemma {:induction false} CountImplies(p: Pc -> bool, q: Pc -> bool, tasks: seq<Pc>)
    requires forall x :: p(x) ==> q(x)
    ensures Count(p, tasks) <= Count(q, tasks)
  {
    if tasks != [] { CountImplies(p, q, tasks[1..]); }
  }

  lemma {:induction false} CountNone(p: Pc -> bool, tasks: seq<Pc>)
    requires forall i :: 0 <= i < |tasks| ==> !p(tasks[i])
    ensures Count(p, tasks) == 0
  {
    if tasks != [] { CountNone(p, tasks[1..]); }
  }

  lemma {:induction false} CountSome(p: Pc -> bool, tasks: seq<Pc>) returns (i: nat)
    requires Count(p, tasks) > 0
    ensures i < |tasks| && p(tasks[i])
  {
    if p(tasks[0]) { i := 0; } else { var j := CountSome(p, tasks[1..]); i := j + 1; }
  }

  // ----- the invariant -----

  ghost predicate TaskOk(s: State, i: nat)
    requires i < |s.tasks|
  {
    && (HasLock(s.tasks[i]) <==> s.holder == Some(i))
    && (s.tasks[i].Adding? ==> s.tasks[i].seen == s.inFlight)
    && (s.tasks[i].Subtracting? ==> s.tasks[i].was == s.inFlight)
  }

  ghost predicate Inv(s: State, concurrency: nat) {
    && s.inFlight == Count(Counted, s.tasks)
    && s.free + Count(HasPermit, s.tasks) == concurrency && 0 <= s.free
    && (forall i :: 0 <= i < |s.tasks| ==> TaskOk(s, i))
    && (s.holder.Some? ==> s.holder.value < |s.tasks| && HasLock(s.tasks[s.holder.value]))
    && 0 <= s.maxInFlight <= concurrency
    && (s.inFlight <= s.maxInFlight || (s.holder.Some? && s.tasks[s.holder.value] == Recording))
  }

  lemma InitialInv(n: nat, concurrency: nat)
    ensures Inv(Initial(n, concurrency), concurrency)
  {
    CountNone(Counted, Initial(n, concurrency).tasks);
    CountNone(HasPermit, Initial(n, concurrency).tasks);
  }

  /** No interleaving lets two tasks update the counters at once, lose an update, or exceed the
      semaphore. */
  lemma StepKeepsInv(s: State, concurrency: nat, i: nat)
    requires Inv(s, concurrency)
    ensures Inv(Step(s, i), concurrency)
  {
    var t := Step(s, i);
    if Enabled(s, i) {
      assert TaskOk(s, i);
      CountUpdate(Counted, s.tasks, i, t.tasks[i]);
      CountUpdate(HasPermit, s.tasks, i, t.tasks[i]);
      CountImplies(Counted, HasPermit, s.tasks);
      forall j | 0 <= j < |t.tasks| ensures TaskOk(t, j) { assert TaskOk(s, j); }
    }
  }

  lemma {:induction false} RunKeepsInv(s: State, concurrency: nat, schedule: seq<nat>)
    requires Inv(s, concurrency)
    ensures Inv(Run(s, schedule), concurrency)
    decreases |schedule|
  {
    if schedule != [] {
      StepKeepsInv(s, concurrency, schedule[0]);
      RunKeepsInv(Step(s, schedule[0]), concurrency, schedule[1..]);
    }
  }

  /** In every interleaving the counter equals the number of tasks between their two updates, and
      never exceeds the configured concurrency; no more than that many hold a permit. */
  lemma InFlightIsBounded(n: nat, concurrency: nat, schedule: seq<nat>)
    ensures var s := Run(Initial(n, concurrency), schedule);
            && s.inFlight == Count(Counted, s.tasks) <= concurrency
            && Count(HasPermit, s.tasks) <= concurrency
            && s.maxInFlight <= concurrency
  {
    InitialInv(n, concurrency);
    RunKeepsInv(Initial(n, concurrency), concurrency, schedule);
    CountImplies(Counted, HasPermit, Run(Initial(n, concurrency), schedule).tasks);
  }

  // ----- the recorded maximum -----

  /** The maximum as it will read once the lock is free. */
  function Recorded(s: State): int { if s.inFlight > s.maxInFlight then s.inFlight else s.maxInFlight }

  lemma RecordedStep(s: State, concurrency: nat, i: nat)
    requires Inv(s, concurrency)
    ensures var t := Step(s, i);
            Recorded(t) == if t.inFlight > Recorded(s) then t.inFlight else Recorded(s)
  {
    if Enabled(s, i) { assert TaskOk(s, i); }
  }

  lemma {:induction false} RecordedIsPeak(s: State, concurrency: nat, schedule: seq<nat>)
    requires Inv(s, concurrency)
    ensures var peak := Peak(s, schedule);
            Recorded(Run(s, schedule)) == if peak > s.maxInFlight then peak else s.maxInFlight
    decreases |schedule|
  {
    if schedule != [] {
      StepKeepsInv(s, concurrency, schedule[0]);
      RecordedStep(s, concurrency, schedule[0]);
      RecordedIsPeak(Step(s, schedule[0]), concurrency, schedule[1..]);
    }
  }

  /** Whenever no task is recording, max_in_flight is exactly the largest number that was ever in
      flight. */
  lemma MaxIsPeak(n: nat, concurrency: nat, schedule: seq<nat>)
    requires forall i :: 0 <= i < n ==> Run(Initial(n, concurrency), schedule).tasks[i] != Recording
    ensures Run(Initial(n, concurrency), schedule).maxInFlight == Peak(Initial(n, concurrency), schedule)
  {
    var s := Initial(n, concurrency);
    InitialInv(n, concurrency);
    RunKeepsInv(s, concurrency, schedule);
    RecordedIsPeak(s, concurrency, schedule);
    PeakIsNatural(s, schedule);
  }

  lemma {:induction false} PeakIsNatural(s: State, schedule: seq<nat>)
    ensures s.inFlight <= Peak(s, schedule)
    decreases |schedule|
  {
    if schedule != [] { PeakIsNatural(Step(s, schedule[0]), schedule[1..]); }
  }

  // ----- progress and the end -----

  function Distance(p: Pc): nat {
    match p
    case Start => 11
    case Waiting => 10
    case Entering => 9
    case Locked => 8
    case Adding(_) => 7
    case Recording => 6
    case Processing => 5
    case Leaving => 4
    case Relocked => 3
    case Subtracting(_) => 2
    case Releasing => 1
    case Finished => 0
  }

  function TotalDistance(tasks: seq<Pc>): nat {
    if tasks == [] then 0 else Distance(tasks[0]) + TotalDistance(tasks[1..])
  }

  lemma {:induction false} DistanceUpdate(tasks: seq<Pc>, i: nat, x: Pc)
    requires i < |tasks|
    ensures TotalDistance(tasks[i := x]) == TotalDistance(tasks) - Distance(tasks[i]) + Distance(x)
  {
    if i == 0 {
      assert tasks[0 := x][1..] == tasks[1..];
    } else {
      assert tasks[i := x][1..] == tasks[1..][i - 1 := x];
      DistanceUpdate(tasks[1..], i - 1, x);
    }
  }

  /** Every step of an enabled task brings the harness closer to its end. */
  lemma StepAdvances(s: State, i: nat)
    requires Enabled(s, i)
    ensures TotalDistance(Step(s, i).tasks) == TotalDistance(s.tasks) - 1
  {
    DistanceUpdate(s.tasks, i, Step(s, i).tasks[i]);
  }

  ghost predicate AllFinished(s: State) { forall i :: 0 <= i < |s.tasks| ==> s.tasks[i] == Finished }

  /** There is no deadlock: with at least one permit, until all tasks are finished some task can
      move. */
  lemma SomeTaskCanMove(s: State, concurrency: nat) returns (i: nat)
    requires Inv(s, concurrency) && concurrency >= 1 && !AllFinished(s)
    ensures Enabled(s, i)
  {
    if s.holder.Some? {
      i := s.holder.value;
      assert TaskOk(s, i);
    } else {
      var k :| 0 <= k < |s.tasks| && s.tasks[k] != Finished;
      i := k;
      if s.tasks[k] == Waiting && s.free == 0 {
        i := CountSome(HasPermit, s.tasks);
        assert TaskOk(s, i);
      }
    }
  }

  /** A run that only ever schedules tasks that can move. */
  ghost predicate Fair(s: State, schedule: seq<nat>)
    decreases |schedule|
  {
    schedule == [] || (Enabled(s, schedule[0]) && Fair(Step(s, schedule[0]), schedule[1..]))
  }

  /** Such a run is never longer than the remaining distance, and when nothing can move any more
      everything is done. */
  lemma {:induction false} MaximalRunsFinish(s: State, concurrency: nat, schedule: seq<nat>)
    requires Inv(s, concurrency) && concurrency >= 1 && Fair(s, schedule)
    ensures |schedule| <= TotalDistance(s.tasks)
    ensures (forall i :: !Enabled(Run(s, schedule), i)) ==> AllFinished(Run(s, schedule))
    decreases |schedule|
  {
    if schedule != [] {
      StepAdvances(s, schedule[0]);
      StepKeepsInv(s, concurrency, schedule[0]);
      MaximalRunsFinish(Step(s, schedule[0]), concurrency, schedule[1..]);
    } else if !AllFinished(s) {
      var i := SomeTaskCanMove(s, concurrency);
    }
  }

  /** When all tasks are done nothing is in flight, every permit is back and the lock is free. */
  lemma DoneMeansIdle(s: State, concurrency: nat)
    requires Inv(s, concurrency) && AllFinished(s)
    ensures s.inFlight == 0 && s.free == concurrency && s.holder.None?
  {
    CountNone(Counted, s.tasks);
    CountNone(HasPermit, s.tasks);
  }

  /** The harness at run time: shared counters, semaphore and lock, and where each task stands. */
  class LoadRun {
    var tasks: seq<Pc>
    var free: int
    var holder: Option<nat>
    var inFlight: int
    var maxInFlight: int

    function View(): State
      reads this
    {
      State(tasks, free, holder, inFlight, maxInFlight)
    }

    constructor (n: nat, concurrency: nat)
      ensures View() == Initial(n, concurrency)
    {
      tasks, free, holder, inFlight, maxInFlight := seq(n, i => Start), concurrency, None, 0, 0;
    }

    /** Lets task `i` run up to its next await. */
    method Advance(i: nat)
      modifies this
      ensures View() == Step(old(View()), i)
    {
      if !Enabled(View(), i) { return; }
      match tasks[i] {
        case Start => tasks := tasks[i := Waiting];
        case Waiting => free, tasks := free - 1, tasks[i := Entering];
        case Entering => holder, tasks := Some(i), tasks[i := Locked];
        case Locked => tasks := tasks[i := Adding(inFlight)];
        case Adding(seen) => inFlight, tasks := seen + 1, tasks[i := Recording];
        case Recording =>
          if inFlight > maxInFlight { maxInFlight := inFlight; }
          holder, tasks := None, tasks[i := Processing];
        case Processing => tasks := tasks[i := Leaving];
        case Leaving => holder, tasks := Some(i), tasks[i := Relocked];
        case Relocked => tasks := tasks[i := Subtracting(inFlight)];
        case Subtracting(was) => inFlight, holder, tasks := was - 1, None, tasks[i := Releasing];
        case Releasing => free, tasks := free + 1, tasks[i := Finished];
        case Finished =>
      }
    }

    /** Gathers the tasks under the scheduler's choices. */
    method Gather(schedule: seq<nat>)
      modifies this
      ensures View() == Run(old(View()), schedule)
    {
      var rest := schedule;
      while rest != []
        invariant Run(View(), rest) == Run(old(View()), schedule)
        decreases |rest|
      {
        Advance(rest[0]);
        rest := rest[1..];
      }
    }
  }
}
