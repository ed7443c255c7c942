/** Request admission: a bounded queue in front of a bounded number of
    concurrent requests. `RequestScheduler` holds the counters and its methods
    are the stretches of code that run without giving up control; the second
    half interleaves any number of requests out of those stretches. */
module Scheduler {
  import opened Common

  datatype Counters = Counters(
    active: int,
    pending: int,
    shuttingDown: bool,
    concurrentLimit: int,
    queueLimit: int)

  const UNLIMITED := -1

  function AtLeastZero(n: int): int { if n < 0 then 0 else n }

  predicate CanAcquire(c: Counters) {
    c.concurrentLimit == UNLIMITED || c.active < c.concurrentLimit
  }

  predicate CanReserve(c: Counters) { !c.shuttingDown && c.pending < c.queueLimit }

  function Reserved(c: Counters): Counters { c.(pending := c.pending + 1) }

  function Unreserved(c: Counters): Counters { c.(pending := AtLeastZero(c.pending - 1)) }

  function Acquired(c: Counters): Counters { c.(active := c.active + 1) }

  function Released(c: Counters): Counters { c.(active := AtLeastZero(c.active - 1)) }

  class RequestScheduler {
    var active: int
    var pending: int
    var shuttingDown: bool
    var concurrentLimit: int
    var queueLimit: int

    function Abs(): Counters
      reads this
    {
      Counters(active, pending, shuttingDown, concurrentLimit, queueLimit)
    }

    constructor (concurrentLimit: int, queueLimit: int)
      ensures Abs() == Counters(0, 0, false, concurrentLimit, queueLimit)
    {
      active, pending, shuttingDown := 0, 0, false;
      this.concurrentLimit, this.queueLimit := concurrentLimit, queueLimit;
    }

    method MarkShuttingDown()
      modifies this`shuttingDown
      ensures shuttingDown
    {
      shuttingDown := true;
    }

    /** False: the queue is full or the server is shutting down. */
    method ReservePending() returns (admitted: bool)
      modifies this`pending
      ensures admitted == old(CanReserve(Abs()))
      ensures admitted <==> !shuttingDown && old(pending) < queueLimit
      ensures Abs() == if admitted then Reserved(old(Abs())) else old(Abs())
    {
      if shuttingDown { return false; }
      if pending >= queueLimit { return false; }
      pending := pending + 1;
      admitted := true;
    }

    method ReleasePending()
      modifies this`pending
      ensures Abs() == Unreserved(old(Abs()))
    {
      pending := AtLeastZero(pending - 1);
    }

    /** One turn of the waiting loop; false: the caller has to sleep. */
    method TryAcquireConcurrent() returns (acquired: bool)
      modifies this`active
      ensures acquired == old(CanAcquire(Abs()))
      ensures acquired <==> concurrentLimit == UNLIMITED || old(active) < concurrentLimit
      ensures Abs() == if acquired then Acquired(old(Abs())) else old(Abs())
    {
      var limit := concurrentLimit;
      if limit == UNLIMITED || active < limit {
        active := active + 1;
        return true;
      }
      acquired := false;
    }

    /** The caller goes on to wake every sleeper. */
    method ReleaseConcurrent()
      modifies this`active
      ensures Abs() == Released(old(Abs()))
    {
      active := AtLeastZero(active - 1);
    }
  }

  // ---- Any number of requests ------------------------------------------

  /** Where a request is. `Registered` is tracked and asks to be admitted,
      `Trying` waits for the lock to look for a concurrency slot, `Asleep` waits
      for one, `Working` holds one, `Releasing` has just given it back,
      `Unwinding` was cancelled while waiting, and `Parting` has nothing left but
      to be tracked no more: so does a request that is turned away. */
  datatype Phase =
    | New
    | Registered
    | Trying
    | Asleep(notified: bool)
    | Working
    | Releasing
    | Unwinding
    | Parting
    | Finished

  predicate Admitted(p: Phase) { p.Trying? || p.Asleep? || p.Working? || p.Releasing? || p.Unwinding? }

  predicate Holds(p: Phase) { p.Working? }

  predicate Over(p: Phase) { p.Finished? }
  predicate Tracked(p: Phase) { !p.New? && !p.Finished? }

  /** The whole system. `stale` remembers that a limit was raised and nobody
      has been woken since; `peakConcurrent` and `peakQueue` are the largest
      limits ever in force (`uncapped`: one of them was unlimited); `tracked`
      are the requests the shutdown would cancel. */
  datatype System = System(
    counters: Counters,
    tasks: seq<Phase>,
    tracked: set<int>,
    stale: bool,
    uncapped: bool,
    peakConcurrent: int,
    peakQueue: int)

  function Initial(requests: nat, concurrentLimit: int, queueLimit: int): System {
    System(Counters(0, 0, false, concurrentLimit, queueLimit), seq(requests, _ => New), {}, false,
           concurrentLimit == UNLIMITED, AtLeastZero(concurrentLimit), AtLeastZero(queueLimit))
  }

  /** What happens next: a request takes its next stretch of code, or the
      configuration or the shutdown intervenes. */
  datatype Action =
    | Register(task: nat)
    | Arrive(task: nat)
    | Acquire(task: nat)
    | Wake(task: nat)
    | Cancel(task: nat)
    | Leave(task: nat)
    | Retire(task: nat)
    | Unregister(task: nat)
    | SetLimits(concurrent: int, queue: int)
    | WakeForConfig
    | ShutDown
    | CancelAll(current: int)

  predicate OfTask(a: Action) {
    || a.Register? || a.Arrive? || a.Acquire? || a.Wake? || a.Cancel? || a.Leave? || a.Retire? || a.Unregister?
  }

  predicate Enabled(s: System, a: Action) {
    if !OfTask(a) then true
    else
      && a.task < |s.tasks|
      && var p := s.tasks[a.task];
      match a
      case Register(_) => p == New
      case Arrive(_) => p == Registered
      case Acquire(_) => p == Trying
      case Wake(_) => p == Asleep(true)
      case Cancel(_) => p == Registered || p == Trying || p.Asleep?
      case Leave(_) => p == Working
      case Unregister(_) => p == Parting
      case _ => p == Releasing || p == Unwinding
  }

  function Notified(p: Phase): Phase { if p.Asleep? then Asleep(true) else p }

  function NotifyAll(tasks: seq<Phase>): (r: seq<Phase>)
    ensures |r| == |tasks| && forall i :: 0 <= i < |tasks| ==> r[i] == Notified(tasks[i])
  {
    if tasks == [] then [] else [Notified(tasks[0])] + NotifyAll(tasks[1..])
  }

  function Step(s: System, a: Action): System
    requires Enabled(s, a)
  {
    var c := s.counters;
    match a
    case Register(i) => s.(tasks := s.tasks[i := Registered], tracked := s.tracked + {i})
    case Arrive(i) =>
      if CanReserve(c) then s.(counters := Reserved(c), tasks := s.tasks[i := Trying])
      else s.(tasks := s.tasks[i := Parting])
    case Acquire(i) =>
      if CanAcquire(c) then s.(counters := Acquired(c), tasks := s.tasks[i := Working])
      else s.(tasks := s.tasks[i := Asleep(false)])
    case Wake(i) => s.(tasks := s.tasks[i := Trying])
    case Cancel(i) => s.(tasks := s.tasks[i := if s.tasks[i] == Registered then Parting else Unwinding])
    case Leave(i) =>
      s.(counters := Released(c), tasks := NotifyAll(s.tasks[i := Releasing]), stale := false)
    case Retire(i) =>
      s.(counters := Unreserved(c), tasks := s.tasks[i := Parting])
    case Unregister(i) => s.(tasks := s.tasks[i := Finished], tracked := s.tracked - {i})
    case SetLimits(concurrent, queue) =>
      var d := c.(concurrentLimit := concurrent, queueLimit := queue);
      s.(counters := d,
         stale := s.stale || (!CanAcquire(c) && CanAcquire(d)),
         uncapped := s.uncapped || concurrent == UNLIMITED,
         peakConcurrent := Max(s.peakConcurrent, concurrent),
         peakQueue := Max(s.peakQueue, queue))
    case WakeForConfig => s.(tasks := NotifyAll(s.tasks), stale := false)
    case ShutDown => s.(counters := c.(shuttingDown := true))
    case CancelAll(current) => s.(tracked := s.tracked * {current})
  }

  /** The actions lead from `s` to `t`. */
  predicate Runs(s: System, actions: seq<Action>, t: System)
    decreases |actions|
  {
    if actions == [] then t == s
    else Enabled(s, actions[0]) && Runs(Step(s, actions[0]), actions[1..], t)
  }

  // ---- Conservation -----------------------------------------------------

  function Count(tasks: seq<Phase>, kind: Phase -> bool): nat {
    if tasks == [] then 0 else (if kind(tasks[0]) then 1 else 0) + Count(tasks[1..], kind)
  }

  lemma {:induction false} CountUpdate(tasks: seq<Phase>, i: nat, p: Phase, kind: Phase -> bool)
    requires i < |tasks|
    ensures Count(tasks[i := p], kind)
            == Count(tasks, kind) - (if kind(tasks[i]) then 1 else 0) + (if kind(p) then 1 else 0)
  {
    if i == 0 {
      assert tasks[0 := p][1..] == tasks[1..];
    } else {
      assert tasks[i := p][1..] == tasks[1..][i - 1 := p];
      CountUpdate(tasks[1..], i - 1, p, kind);
    }
  }

  lemma {:induction false} CountSame(a: seq<Phase>, b: seq<Phase>, kind: Phase -> bool)
    requires |a| == |b| && forall i :: 0 <= i < |a| ==> kind(a[i]) == kind(b[i])
    ensures Count(a, kind) == Count(b, kind)
  {
    if a != [] { CountSame(a[1..], b[1..], kind); }
  }

  lemma {:induction false} CountNone(tasks: seq<Phase>, kind: Phase -> bool)
    requires forall i :: 0 <= i < |tasks| ==> !kind(tasks[i])
    ensures Count(tasks, kind) == 0
  {
    if tasks != [] { CountNone(tasks[1..], kind); }
  }

  lemma {:induction false} CountSome(tasks: seq<Phase>, i: nat, kind: Phase -> bool)
    requires i < |tasks| && kind(tasks[i])
    ensures Count(tasks, kind) > 0
  {
    if i > 0 { CountSome(tasks[1..], i - 1, kind); }
  }

  lemma {:induction false} CountAtMost(tasks: seq<Phase>, less: Phase -> bool, more: Phase -> bool)
    requires forall p :: less(p) ==> more(p)
    ensures Count(tasks, less) <= Count(tasks, more)
  {
    if tasks != [] { CountAtMost(tasks[1..], less, more); }
  }

  /** The counters are exactly the requests admitted and the slots held, and
      never exceed the largest limit there ever was. */
  ghost predicate Conserved(s: System) {
    && s.counters.pending == Count(s.tasks, Admitted)
    && s.counters.active == Count(s.tasks, Holds)
    && (s.uncapped || s.counters.active <= s.peakConcurrent)
    && s.counters.pending <= s.peakQueue
    && (s.counters.concurrentLimit == UNLIMITED ==> s.uncapped)
    && s.counters.concurrentLimit <= s.peakConcurrent && s.counters.queueLimit <= s.peakQueue
    && 0 <= s.peakConcurrent && 0 <= s.peakQueue
    && forall i :: i in s.tracked ==> 0 <= i < |s.tasks| && Tracked(s.tasks[i])
  }

  /** A request is admitted exactly when fewer are than the queue holds and no
      shutdown has begun, and gets a slot exactly when fewer run than the limit. */
  lemma RoomIsGiven(s: System, i: nat)
    requires Conserved(s)
    ensures Enabled(s, Arrive(i)) ==>
      (Admitted(Step(s, Arrive(i)).tasks[i])
       <==> !s.counters.shuttingDown && Count(s.tasks, Admitted) < s.counters.queueLimit)
    ensures Enabled(s, Acquire(i)) ==>
      (Holds(Step(s, Acquire(i)).tasks[i])
       <==> s.counters.concurrentLimit == -1 || Count(s.tasks, Holds) < s.counters.concurrentLimit)
  {
    hide Count;
  }

  lemma StepConserves(s: System, a: Action)
    requires Conserved(s) && Enabled(s, a)
    ensures Conserved(Step(s, a))
  {
    hide Count, NotifyAll;
    if OfTask(a) {
      var i := a.task;
      var p := Step(s, a).tasks[i];
      CountUpdate(s.tasks, i, p, Admitted);
      CountUpdate(s.tasks, i, p, Holds);
      if Holds(s.tasks[i]) { CountSome(s.tasks, i, Holds); }
      if Admitted(s.tasks[i]) { CountSome(s.tasks, i, Admitted); }
      if a.Leave? {
        CountSame(s.tasks[i := Releasing], NotifyAll(s.tasks[i := Releasing]), Admitted);
        CountSame(s.tasks[i := Releasing], NotifyAll(s.tasks[i := Releasing]), Holds);
      }
    } else {
      CountSame(s.tasks, NotifyAll(s.tasks), Admitted);
      CountSame(s.tasks, NotifyAll(s.tasks), Holds);
    }
  }

  // ---- No lost wakeup ---------------------------------------------------

  predicate Sleeps(p: Phase) { p == Asleep(false) }

  /** Unless a limit was raised behind their backs, requests sleep without
      having been notified only while there is no slot for them. */
  predicate NoLostWakeup(s: System) {
    s.stale || forall i :: 0 <= i < |s.tasks| && Sleeps(s.tasks[i]) ==> !CanAcquire(s.counters)
  }

  lemma StepLosesNoWakeup(s: System, a: Action)
    requires NoLostWakeup(s) && Enabled(s, a)
    ensures NoLostWakeup(Step(s, a))
  {
    hide NotifyAll;
  }

  lemma InitialIsGood(requests: nat, concurrentLimit: int, queueLimit: int)
    ensures
      var s := Initial(requests, concurrentLimit, queueLimit);
      Conserved(s) && NoLostWakeup(s)
  {
    var s := Initial(requests, concurrentLimit, queueLimit);
    CountNone(s.tasks, Admitted);
    CountNone(s.tasks, Holds);
  }

  /** In every state any interleaving can reach: the counters are exact and
      bounded, what is tracked is alive, and no wakeup has been lost. */
  lemma {:induction false} RunsAreSafe(s: System, actions: seq<Action>, t: System)
    requires Conserved(s) && NoLostWakeup(s) && Runs(s, actions, t)
    ensures Conserved(t) && NoLostWakeup(t)
    decreases |actions|
  {
    hide Conserved, NoLostWakeup, Step, Enabled;
    if actions != [] {
      StepConserves(s, actions[0]);
      StepLosesNoWakeup(s, actions[0]);
      RunsAreSafe(Step(s, actions[0]), actions[1..], t);
    }
  }

  /** In reachable states the clamps to zero never act, and slots are held only
      by admitted requests. */
  lemma ClampsNeverAct(s: System, a: Action)
    requires Conserved(s) && Enabled(s, a)
    ensures a.Leave? ==> s.counters.active >= 1
    ensures a.Retire? ==> s.counters.pending >= 1
    ensures s.counters.active <= s.counters.pending
  {
    hide Count;
    if a.Leave? { CountSome(s.tasks, a.task, Holds); }
    if a.Retire? { CountSome(s.tasks, a.task, Admitted); }
    CountAtMost(s.tasks, Holds, Admitted);
  }

  lemma StepAfterShutdown(s: System, a: Action)
    requires Conserved(s) && Enabled(s, a) && s.counters.shuttingDown
    ensures Step(s, a).counters.shuttingDown && Step(s, a).counters.pending <= s.counters.pending
  {
    hide Count;
    ClampsNeverAct(s, a);
  }

  lemma {:induction false} RunAfterShutdown(s: System, actions: seq<Action>, t: System)
    requires Conserved(s) && s.counters.shuttingDown && Runs(s, actions, t)
    ensures t.counters.shuttingDown && t.counters.pending <= s.counters.pending
    decreases |actions|
  {
    hide Conserved, Enabled, Step;
    if actions != [] {
      StepAfterShutdown(s, actions[0]);
      StepConserves(s, actions[0]);
      RunAfterShutdown(Step(s, actions[0]), actions[1..], t);
    }
  }

  /** Once the shutdown has begun nobody is admitted any more, whatever happens. */
  lemma ShutdownAdmitsNobody(s: System, actions: seq<Action>, t: System)
    requires Conserved(s) && Runs(Step(s, ShutDown), actions, t)
    ensures t.counters.pending <= s.counters.pending
    ensures forall i: nat :: Enabled(t, Arrive(i)) ==> !Admitted(Step(t, Arrive(i)).tasks[i])
  {
    hide Conserved;
    StepConserves(s, ShutDown);
    RunAfterShutdown(Step(s, ShutDown), actions, t);
  }

  // ---- Every request ends ----------------------------------------------

  /** The moves a request makes by itself; being cancelled is not one. */
  predicate OwnMove(a: Action) { OfTask(a) && !a.Cancel? }

  ghost predicate Stuck(s: System) { forall a :: OwnMove(a) ==> !Enabled(s, a) }

  /** If no request can move, all are over, provided only that the limit lets
      somebody run and that raised limits were announced. No slot is leaked
      and nobody sleeps for ever. */
  lemma StuckMeansIdle(s: System)
    requires Conserved(s) && NoLostWakeup(s) && !s.stale
    requires s.counters.concurrentLimit >= 1 || s.counters.concurrentLimit == UNLIMITED
    requires Stuck(s)
    ensures forall i :: 0 <= i < |s.tasks| ==> Over(s.tasks[i])
    ensures s.counters.active == 0 && s.counters.pending == 0 && s.tracked == {}
  {
    hide Count;
    forall i | 0 <= i < |s.tasks| ensures Over(s.tasks[i]) || Sleeps(s.tasks[i]) {
      assert !Enabled(s, Register(i)) && !Enabled(s, Arrive(i)) && !Enabled(s, Acquire(i)) && !Enabled(s, Wake(i));
      assert !Enabled(s, Leave(i)) && !Enabled(s, Retire(i)) && !Enabled(s, Unregister(i));
    }
    CountNone(s.tasks, Holds);
    assert CanAcquire(s.counters);
    CountNone(s.tasks, Admitted);
    assert forall i :: i !in s.tracked;
  }

  /** How many stretches of code a request still has ahead of it, counted
      between two wakeups. */
  function Stage(p: Phase): nat {
    match p
    case New => 6
    case Registered => 5
    case Trying => 4
    case Asleep(_) => 4
    case Working => 3
    case Releasing => 2
    case Unwinding => 2
    case Parting => 1
    case Finished => 0
  }

  /** Within the waiting stage: a notified sleeper tries once more. */
  function Turn(p: Phase): nat {
    match p
    case Trying => 1
    case Asleep(notified) => if notified then 2 else 0
    case _ => 0
  }

  function Stages(tasks: seq<Phase>): nat { if tasks == [] then 0 else Stage(tasks[0]) + Stages(tasks[1..]) }

  function Turns(tasks: seq<Phase>): (n: nat)
    ensures n <= 2 * |tasks|
  {
    if tasks == [] then 0 else Turn(tasks[0]) + Turns(tasks[1..])
  }

  /** Every own move lowers this number; waking everybody is paid for by the
      stage that the leaving request completes. */
  function Remaining(tasks: seq<Phase>): nat { Stages(tasks) * (2 * |tasks| + 1) + Turns(tasks) }

  lemma {:induction false} StagesUpdate(tasks: seq<Phase>, i: nat, p: Phase)
    requires i < |tasks|
    ensures Stages(tasks[i := p]) == Stages(tasks) - Stage(tasks[i]) + Stage(p)
    ensures Turns(tasks[i := p]) == Turns(tasks) - Turn(tasks[i]) + Turn(p)
  {
    if i == 0 {
      assert tasks[0 := p][1..] == tasks[1..];
    } else {
      assert tasks[i := p][1..] == tasks[1..][i - 1 := p];
      StagesUpdate(tasks[1..], i - 1, p);
    }
  }

  lemma {:induction false} NotifyKeepsStages(tasks: seq<Phase>)
    ensures Stages(NotifyAll(tasks)) == Stages(tasks)
  {
    if tasks != [] {
      assert NotifyAll(tasks)[1..] == NotifyAll(tasks[1..]);
      NotifyKeepsStages(tasks[1..]);
    }
  }

  lemma OwnMoveProgresses(s: System, a: Action)
    requires OfTask(a) && Enabled(s, a)
    ensures |Step(s, a).tasks| == |s.tasks| && Remaining(Step(s, a).tasks) < Remaining(s.tasks)
  {
    hide Stages, Turns, NotifyAll;
    var i, t := a.task, Step(s, a);
    if a.Leave? {
      var mid := s.tasks[i := Releasing];
      StagesUpdate(s.tasks, i, Releasing);
      NotifyKeepsStages(mid);
      Less(Stages(s.tasks), Stages(t.tasks), Turns(s.tasks), Turns(t.tasks), |s.tasks|);
    } else {
      StagesUpdate(s.tasks, i, t.tasks[i]);
      if Stages(t.tasks) < Stages(s.tasks) {
        Less(Stages(s.tasks), Stages(t.tasks), Turns(s.tasks), Turns(t.tasks), |s.tasks|);
      }
    }
  }

  lemma Less(a: nat, b: nat, x: nat, y: nat, n: nat)
    requires b < a && y <= 2 * n
    ensures b * (2 * n + 1) + y < a * (2 * n + 1) + x
  {
    Monotone(b + 1, a, 2 * n + 1);
  }

  lemma {:induction false} Monotone(a: nat, b: nat, m: nat)
    requires a <= b
    ensures a * m <= b * m
    decreases b
  {
    if a < b { Monotone(a, b - 1, m); }
  }

  /** How many moves requests make, and how often everybody is woken for the
      configuration. */
  function Moves(actions: seq<Action>): nat {
    if actions == [] then 0 else (if OfTask(actions[0]) then 1 else 0) + Moves(actions[1..])
  }

  function Wakeups(actions: seq<Action>): nat {
    if actions == [] then 0 else (if actions[0].WakeForConfig? then 1 else 0) + Wakeups(actions[1..])
  }

  lemma InterventionKeepsStages(s: System, a: Action)
    requires !OfTask(a)
    ensures
      var t := Step(s, a);
      && |t.tasks| == |s.tasks|
      && Remaining(t.tasks) <= Remaining(s.tasks) + if a.WakeForConfig? then 2 * |s.tasks| else 0
  {
    hide Stages, Turns, NotifyAll;
    NotifyKeepsStages(s.tasks);
  }

  /** However requests are interleaved, cancelled, shut down, reconfigured and
      woken, their moves come to an end: only waking everybody lets them make
      more, and at most two each. */
  lemma {:induction false} RunsEnd(s: System, actions: seq<Action>, t: System)
    requires Runs(s, actions, t)
    ensures |t.tasks| == |s.tasks|
    ensures Moves(actions) + Remaining(t.tasks) <= Remaining(s.tasks) + 2 * |s.tasks| * Wakeups(actions)
    decreases |actions|
  {
    hide Remaining, Step, Enabled;
    if actions != [] {
      var a := actions[0];
      if OfTask(a) { OwnMoveProgresses(s, a); } else { InterventionKeepsStages(s, a); }
      RunsEnd(Step(s, a), actions[1..], t);
      if a.WakeForConfig? { Distribute(2 * |s.tasks|, Wakeups(actions[1..])); }
    }
  }

  lemma Distribute(m: nat, n: nat)
    ensures m * (n + 1) == m * n + m
  {}

  lemma {:induction false} AllNew(n: nat)
    ensures
      var tasks := seq(n, _ => New);
      Stages(tasks) == 6 * n && Turns(tasks) == 0
  {
    if n > 0 {
      assert seq(n, _ => New)[1..] == seq(n - 1, _ => New);
      AllNew(n - 1);
    }
  }

  /** `n` requests make at most 6n(2n+1) moves, and 2n more per wakeup for the
      configuration, whatever else happens. */
  lemma FreshRunsEnd(n: nat, concurrentLimit: int, queueLimit: int, actions: seq<Action>, t: System)
    requires Runs(Initial(n, concurrentLimit, queueLimit), actions, t)
    ensures Moves(actions) <= 6 * n * (2 * n + 1) + 2 * n * Wakeups(actions)
  {
    hide Runs;
    AllNew(n);
    RunsEnd(Initial(n, concurrentLimit, queueLimit), actions, t);
  }

  lemma {:induction false} FixedLimits(s: System, actions: seq<Action>, t: System)
    requires Runs(s, actions, t) && forall k :: 0 <= k < |actions| ==> !actions[k].SetLimits?
    ensures t.counters.concurrentLimit == s.counters.concurrentLimit && (!s.stale ==> !t.stale)
    ensures |t.tasks| == |s.tasks|
    decreases |actions|
  {
    hide NotifyAll;
    if actions != [] { FixedLimits(Step(s, actions[0]), actions[1..], t); }
  }

  /** With a fixed limit that lets somebody run, every way of letting requests
      arrive, run, fail and be cancelled, with a shutdown and its cancellations
      at any moment, ends with all slots given back once no request can move. */
  lemma EveryRequestEnds(n: nat, concurrentLimit: int, queueLimit: int, actions: seq<Action>, t: System)
    requires concurrentLimit >= 1 || concurrentLimit == UNLIMITED
    requires Runs(Initial(n, concurrentLimit, queueLimit), actions, t)
    requires forall k :: 0 <= k < |actions| ==> !actions[k].SetLimits?
    requires Stuck(t)
    ensures t.counters.active == 0 && t.counters.pending == 0 && t.tracked == {}
    ensures |t.tasks| == n && forall i :: 0 <= i < n ==> Over(t.tasks[i])
  {
    hide Runs, Conserved, NoLostWakeup, Stuck;
    var s := Initial(n, concurrentLimit, queueLimit);
    InitialIsGood(n, concurrentLimit, queueLimit);
    RunsAreSafe(s, actions, t);
    FixedLimits(s, actions, t);
    StuckMeansIdle(t);
  }

  // ---- Changing limits --------------------------------------------------

  /** Nobody sleeps beside a free slot without having been notified. */
  predicate NobodyOverlooked(s: System) {
    forall i :: 0 <= i < |s.tasks| && Sleeps(s.tasks[i]) ==> !CanAcquire(s.counters)
  }

  /** A change of limits overlooks nobody exactly when nobody sleeps, or the new
      limit is reached by those who run already. */
  lemma LimitChangeOverlooks(s: System, concurrent: int, queue: int)
    requires NobodyOverlooked(s)
    ensures NobodyOverlooked(Step(s, SetLimits(concurrent, queue))) <==>
      (forall i :: 0 <= i < |s.tasks| ==> !Sleeps(s.tasks[i]))
      || (concurrent != UNLIMITED && s.counters.active >= concurrent)
  {
    var t := Step(s, SetLimits(concurrent, queue));
    if i :| 0 <= i < |s.tasks| && Sleeps(s.tasks[i]) { assert t.tasks[i] == s.tasks[i]; }
  }

  /** Only a change of limits can overlook anybody. */
  lemma OnlyLimitsOverlook(s: System, a: Action)
    requires NobodyOverlooked(s) && Enabled(s, a) && !a.SetLimits?
    ensures NobodyOverlooked(Step(s, a))
  {
    hide NotifyAll;
  }

  /** Two requests under a concurrency limit of 1. */
  function Scene(active: int, pending: int, tasks: seq<Phase>, tracked: set<int>): System {
    System(Counters(active, pending, false, 1, 5), tasks, tracked, false, false, 1, 5)
  }

  /** Their state when the limit is raised to 2 while the second one sleeps. */
  const Overlooked := System(
    Counters(1, 2, false, 2, 5), [Working, Asleep(false)], {0, 1}, true, false, 2, 5)

  lemma SceneMoves()
    ensures
      var s, a := Initial(2, 1, 5), Scene(0, 0, [Registered, New], {0});
      var b, c := Scene(0, 1, [Trying, New], {0}), Scene(1, 1, [Working, New], {0});
      && Enabled(s, Register(0)) && Step(s, Register(0)) == a
      && Enabled(a, Arrive(0)) && Step(a, Arrive(0)) == b
      && Enabled(b, Acquire(0)) && Step(b, Acquire(0)) == c
  {
    assert Initial(2, 1, 5).tasks == [New, New];
  }

  lemma SceneGoesOn()
    ensures
      var c, d := Scene(1, 1, [Working, New], {0}), Scene(1, 1, [Working, Registered], {0, 1});
      var e, f := Scene(1, 2, [Working, Trying], {0, 1}), Scene(1, 2, [Working, Asleep(false)], {0, 1});
      && Enabled(c, Register(1)) && Step(c, Register(1)) == d
      && Enabled(d, Arrive(1)) && Step(d, Arrive(1)) == e
      && Enabled(e, Acquire(1)) && Step(e, Acquire(1)) == f
      && Enabled(f, SetLimits(2, 5)) && Step(f, SetLimits(2, 5)) == Overlooked
  {}

  lemma SceneRuns()
    ensures exists actions :: Runs(Initial(2, 1, 5), actions, Overlooked)
  {
    hide Runs, NotifyAll, Step, Initial, Enabled;
    SceneMoves();
    SceneGoesOn();
    NoMove(Overlooked);
    OneMore(Scene(1, 2, [Working, Asleep(false)], {0, 1}), SetLimits(2, 5), [], Overlooked);
    var r := [SetLimits(2, 5)] + [];
    OneMore(Scene(1, 2, [Working, Trying], {0, 1}), Acquire(1), r, Overlooked);
    r := [Acquire(1)] + r;
    OneMore(Scene(1, 1, [Working, Registered], {0, 1}), Arrive(1), r, Overlooked);
    r := [Arrive(1)] + r;
    OneMore(Scene(1, 1, [Working, New], {0}), Register(1), r, Overlooked);
    r := [Register(1)] + r;
    OneMore(Scene(0, 1, [Trying, New], {0}), Acquire(0), r, Overlooked);
    r := [Acquire(0)] + r;
    OneMore(Scene(0, 0, [Registered, New], {0}), Arrive(0), r, Overlooked);
    r := [Arrive(0)] + r;
    OneMore(Initial(2, 1, 5), Register(0), r, Overlooked);
  }

  /** Raising the limit without waking anybody is not enough: the state is
      reached, the second request sleeps beside a free slot and cannot move,
      and waking for the configuration lets it. */
  lemma RaisedLimitNeedsWakeup()
    ensures exists actions :: Runs(Initial(2, 1, 5), actions, Overlooked)
    ensures CanAcquire(Overlooked.counters) && !Enabled(Overlooked, Acquire(1)) && !Enabled(Overlooked, Wake(1))
    ensures Enabled(Step(Overlooked, WakeForConfig), Wake(1))
  {
    hide Runs;
    SceneRuns();
    assert NotifyAll(Overlooked.tasks)[1] == Asleep(true);
  }

  lemma NoMove(t: System)
    ensures Runs(t, [], t)
  {}

  lemma OneMore(s: System, a: Action, rest: seq<Action>, t: System)
    requires Enabled(s, a) && Runs(Step(s, a), rest, t)
    ensures Runs(s, [a] + rest, t)
  {
    assert ([a] + rest)[1..] == rest;
  }

  // ---- Requests the shutdown can cancel ---------------------------------

  /** The tasks in flight by request id. */
  class ActiveRequestTracker {
    var tasks: map<string, nat>

    constructor ()
      ensures tasks == map[]
    {
      tasks := map[];
    }

    method Register(id: string, task: nat)
      modifies this
      ensures tasks == old(tasks)[id := task]
    {
      tasks := tasks[id := task];
    }

    method Unregister(id: string)
      modifies this
      ensures tasks == old(tasks) - {id}
    {
      tasks := tasks - {id};
    }

    /** Cancels everybody else that is not done, once per request, and forgets
        them all; the caller's own entries stay. */
    method CancelAll(current: nat, done: set<nat>) returns (cancelled: set<string>)
      modifies this
      ensures forall id :: id in cancelled <==>
        id in old(tasks) && old(tasks)[id] != current && old(tasks)[id] !in done
      ensures forall id :: id in tasks <==> id in old(tasks) && old(tasks)[id] == current
      ensures forall id :: id in tasks ==> tasks[id] == current
    {
      cancelled := set id | id in tasks && tasks[id] != current && tasks[id] !in done;
      tasks := map id | id in tasks && tasks[id] == current :: tasks[id];
    }
  }
}
