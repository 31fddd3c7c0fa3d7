/** The two-party thread handshake: one owner submits jobs to one parked worker through a mutex, a
    condition variable and two flags. Every step of either party is a transition; waking up may
    happen at any time, as POSIX.1-2008 allows pthread_cond_wait to do. */
module Handshake {
  import opened Types

  type Job = nat

  datatype Party = Owner | Worker

  /** Where the worker stands in idle_loop. */
  datatype WorkerAt =
    | Absent            // not created
    | Locking           // top of the loop, about to take the mutex
    | Clearing          // holding it: searching = false
    | Announcing        // holding it: broadcast
    | Checking          // holding it: the wait predicate
    | Waiting           // in the wait set
    | Waking            // woken, about to take the mutex again
    | Deciding          // holding it: exit?
    | Taking            // holding it: take the job and release
    | Running(job: Job)
    | Gone

  /** What the owner does once `searching` is false. */
  datatype Purpose = ForSpawn | ForSubmit(job: Job) | ForWait | ForJoin

  /** Where the owner stands. */
  datatype OwnerAt =
    | Free                       // between calls
    | WLock(why: Purpose)        // thread_wait_for_search_finished, or the wait of thread_start_job
    | WCheck(why: Purpose)
    | WWait(why: Purpose)
    | WWake(why: Purpose)
    | Storing(job: Job)          // thread_start_job, holding the mutex
    | StoreUnlock
    | StoreBroadcast
    | JoinLock                   // thread_join after its drain
    | JoinStoring
    | JoinUnlock
    | JoinBroadcast
    | JoinThread                 // pthread_join

  datatype Call = Spawn(ok: bool) | Submit(job: Job) | Wait | Join

  /** The shared fields, both program counters, and the history of jobs. */
  datatype State = State(
    lock: Option<Party>,
    searching: bool,
    exit: bool,
    jobFn: Option<Job>,
    started: bool,
    worker: WorkerAt,
    owner: OwnerAt,
    submitted: seq<Job>,
    ran: seq<Job>,
    finished: nat)

  const START := State(None, false, false, None, false, Absent, Free, [], [], 0)

  // ----- the steps -----

  /** A broadcast empties the wait set. */
  function Woken(s: State): State {
    var w := if s.worker == Waiting then Waking else s.worker;
    var o := if s.owner.WWait? then WWake(s.owner.why) else s.owner;
    s.(worker := w, owner := o)
  }

  function WorkerStep(s: State): Option<State> {
    match s.worker
    case Absent => None
    case Locking => if s.lock == None then Some(s.(lock := Some(Worker), worker := Clearing)) else None
    case Clearing => Some(s.(searching := false, worker := Announcing))
    case Announcing => Some(Woken(s).(worker := Checking))
    case Checking =>
      if !s.searching && !s.exit then Some(s.(lock := None, worker := Waiting)) else Some(s.(worker := Deciding))
    case Waiting => None
    case Waking => if s.lock == None then Some(s.(lock := Some(Worker), worker := Checking)) else None
    case Deciding => if s.exit then Some(s.(lock := None, worker := Gone)) else Some(s.(worker := Taking))
    case Taking =>
      if s.jobFn.Some?
        then Some(s.(lock := None, jobFn := None, worker := Running(s.jobFn.value), ran := s.ran + [s.jobFn.value]))
      else Some(s.(lock := None, worker := Locking))
    case Running(job) => Some(s.(worker := Locking, finished := s.finished + 1))
    case Gone => None
  }

  function OwnerStep(s: State): Option<State> {
    match s.owner
    case Free => None
    case WLock(why) => if s.lock == None then Some(s.(lock := Some(Owner), owner := WCheck(why))) else None
    case WCheck(why) =>
      if s.searching then Some(s.(lock := None, owner := WWait(why)))
      else (match why
            case ForSubmit(job) => Some(s.(owner := Storing(job)))
            case ForJoin => Some(s.(lock := None, owner := JoinLock))
            case _ => Some(s.(lock := None, owner := Free)))
    case WWait(why) => None
    case WWake(why) => if s.lock == None then Some(s.(lock := Some(Owner), owner := WCheck(why))) else None
    case Storing(job) => Some(s.(jobFn := Some(job), searching := true, owner := StoreUnlock,
                                 submitted := s.submitted + [job]))
    case StoreUnlock => Some(s.(lock := None, owner := StoreBroadcast))
    case StoreBroadcast => Some(Woken(s).(owner := Free))
    case JoinLock => if s.lock == None then Some(s.(lock := Some(Owner), owner := JoinStoring)) else None
    case JoinStoring => Some(s.(exit := true, searching := true, owner := JoinUnlock))
    case JoinUnlock => Some(s.(lock := None, owner := JoinBroadcast))
    case JoinBroadcast => Some(Woken(s).(owner := JoinThread))
    case JoinThread => if s.worker == Gone then Some(s.(started := false, owner := Free)) else None
  }

  /** A spurious wakeup. */
  function Spurious(s: State, p: Party): Option<State> {
    match p
    case Worker => if s.worker == Waiting then Some(s.(worker := Waking)) else None
    case Owner => if s.owner.WWait? then Some(s.(owner := WWake(s.owner.why))) else None
  }

  /** The owner enters a call. Calls on a thread that is not started return at once; spawning a
      started thread is not a use the source allows. */
  function Enter(s: State, call: Call): Option<State> {
    if s.owner != Free then None else
      match call
      case Spawn(ok) =>
        if s.started then None
        else if !ok then Some(s.(searching := false, exit := false, jobFn := None, worker := Absent))
        else Some(s.(searching := true, exit := false, jobFn := None, started := true, worker := Locking,
                     owner := WLock(ForSpawn)))
      case Submit(job) => if s.started then Some(s.(owner := WLock(ForSubmit(job)))) else Some(s)
      case Wait => if s.started then Some(s.(owner := WLock(ForWait))) else Some(s)
      case Join => if s.started then Some(s.(owner := WLock(ForJoin))) else Some(s)
  }

  /** One transition of the protocol. */
  datatype Action = Works | Owns | Wakes(party: Party) | Calls(call: Call)

  function Step(s: State, a: Action): Option<State> {
    match a
    case Works => WorkerStep(s)
    case Owns => OwnerStep(s)
    case Wakes(p) => Spurious(s, p)
    case Calls(call) => Enter(s, call)
  }

  ghost predicate IsRun(run: seq<State>, actions: seq<Action>) {
    && |run| == |actions| + 1 && run[0] == START
    && forall i :: 0 <= i < |actions| ==> Step(run[i], actions[i]) == Some(run[i + 1])
  }

  // ----- what every reachable state satisfies -----

  predicate HoldsLock(w: WorkerAt) {
    w.Clearing? || w.Announcing? || w.Checking? || w.Deciding? || w.Taking?
  }

  predicate OwnerHolds(o: OwnerAt) {
    o.WCheck? || o.Storing? || o.StoreUnlock? || o.JoinStoring? || o.JoinUnlock?
  }

  predicate Joining(o: OwnerAt) {
    o.JoinUnlock? || o.JoinBroadcast? || o.JoinThread?
  }

  /** At or just past the worker's wait. */
  predicate AtWait(w: WorkerAt) {
    w == Waiting || w == Waking || w == Checking || w == Deciding
  }

  /** The mutex excludes. */
  predicate LockRight(s: State) {
    && (HoldsLock(s.worker) <==> s.lock == Some(Worker))
    && (OwnerHolds(s.owner) <==> s.lock == Some(Owner))
  }

  /** The flags say where the worker can be. */
  predicate FlagsRight(s: State) {
    && (!s.started ==> s.owner == Free && (s.worker == Absent || s.worker == Gone) && s.jobFn == None)
    && (s.started ==>
          && s.worker != Absent
          && (s.exit <==> Joining(s.owner)) && (s.worker == Gone ==> s.owner == JoinThread || s.owner == JoinBroadcast)
          && (!s.searching ==>
               s.worker == Announcing || s.worker == Checking || s.worker == Waiting || s.worker == Waking)
          && (s.worker == Announcing ==> !s.searching)
          && (s.worker == Deciding ==> s.searching) && (s.worker == Taking ==> s.jobFn.Some? && !s.exit)
          && (s.searching && AtWait(s.worker) ==> s.jobFn.Some? || s.exit)
          && (s.exit ==> s.searching && (AtWait(s.worker) || s.worker == Gone)))
    && (s.owner.Storing? || s.owner == JoinLock || s.owner == JoinStoring ==> !s.searching)
  }

  /** Each submitted job is waiting, running or done, in order, and only one of them is not done. */
  predicate JobsRight(s: State) {
    && s.submitted == s.ran + (if s.jobFn.Some? then [s.jobFn.value] else [])
    && |s.ran| == s.finished + (if s.worker.Running? then 1 else 0)
    && (s.worker.Running? ==> s.ran[|s.ran| - 1] == s.worker.job)
    && (s.jobFn.Some? ==> s.searching && !s.exit && (AtWait(s.worker) || s.worker == Taking))
  }

  /** No wakeup is lost: whoever waits for something that has happened is about to be woken. */
  predicate WakeupsComing(s: State) {
    && (s.worker == Waiting && (s.searching || s.exit) ==>
          s.owner == StoreUnlock || s.owner == StoreBroadcast || s.owner == JoinUnlock || s.owner == JoinBroadcast)
    && (s.owner.WWait? && !s.searching ==> s.worker == Announcing)
  }

  predicate Inv(s: State) {
    LockRight(s) && FlagsRight(s) && JobsRight(s) && WakeupsComing(s)
  }

  lemma InvWorker(s: State)
    requires Inv(s) && WorkerStep(s).Some?
    ensures Inv(WorkerStep(s).value)
  {
    var t := WorkerStep(s).value;
    assert s.worker == Taking ==> t.submitted == t.ran + [] && s.submitted == s.ran + [s.jobFn.value];
  }

  lemma InvOwner(s: State)
    requires Inv(s) && OwnerStep(s).Some?
    ensures Inv(OwnerStep(s).value)
  {
    OwnerJobs(s);
    match s.owner {
      case WLock(_) | WCheck(_) | WWake(_) => OwnerWaits(s);
      case Storing(_) | StoreUnlock | StoreBroadcast => OwnerStores(s);
      case _ => OwnerJoins(s);
    }
    hide *;
    InvOf(OwnerStep(s).value);
  }

  lemma InvOf(s: State)
    requires LockRight(s) && FlagsRight(s) && JobsRight(s) && WakeupsComing(s)
    ensures Inv(s)
  {
  }

  /** The owner's steps through its wait. */
  lemma OwnerWaits(s: State)
    requires Inv(s) && OwnerStep(s).Some? && (s.owner.WLock? || s.owner.WCheck? || s.owner.WWake?)
    ensures var t := OwnerStep(s).value; LockRight(t) && FlagsRight(t) && WakeupsComing(t)
  {
    hide JobsRight;
  }

  /** Through the hand-over of a job. */
  lemma OwnerStores(s: State)
    requires Inv(s) && OwnerStep(s).Some? && (s.owner.Storing? || s.owner.StoreUnlock? || s.owner.StoreBroadcast?)
    ensures var t := OwnerStep(s).value; LockRight(t) && FlagsRight(t) && WakeupsComing(t)
  {
  }

  /** Through a join. */
  lemma OwnerJoins(s: State)
    requires Inv(s) && OwnerStep(s).Some?
    requires s.owner == JoinLock || s.owner == JoinStoring || s.owner == JoinUnlock || s.owner == JoinBroadcast ||
             s.owner == JoinThread
    ensures var t := OwnerStep(s).value; LockRight(t) && FlagsRight(t) && WakeupsComing(t)
  {
  }

  lemma OwnerJobs(s: State)
    requires Inv(s) && OwnerStep(s).Some?
    ensures JobsRight(OwnerStep(s).value)
  {
    var t := OwnerStep(s).value;
    assert s.owner.Storing? ==> s.jobFn == None && s.submitted == s.ran + [] && t.submitted == s.ran + [s.owner.job];
  }

  lemma InvStep(s: State, a: Action)
    requires Inv(s) && Step(s, a).Some?
    ensures Inv(Step(s, a).value)
  {
    match a {
      case Works => InvWorker(s);
      case Owns => InvOwner(s);
      case Wakes(p) => InvSpurious(s, p);
      case Calls(call) => InvEnter(s, call);
    }
    hide Inv, WorkerStep, OwnerStep, Spurious, Enter;
  }

  lemma InvSpurious(s: State, p: Party)
    requires Inv(s) && Spurious(s, p).Some?
    ensures Inv(Spurious(s, p).value)
  {
  }

  lemma InvEnter(s: State, call: Call)
    requires Inv(s) && Enter(s, call).Some?
    ensures Inv(Enter(s, call).value)
  {
    if !s.started && call == Spawn(true) {
      InvSpawned(s);
    }
    hide JobsRight;
  }

  lemma InvSpawned(s: State)
    requires Inv(s) && Enter(s, Spawn(true)).Some?
    ensures Inv(Enter(s, Spawn(true)).value)
  {
  }

  lemma {:induction false} InvRun(run: seq<State>, actions: seq<Action>, i: nat)
    requires IsRun(run, actions) && i < |run|
    ensures Inv(run[i])
  {
    if i > 0 {
      InvRun(run, actions, i - 1);
      assert Step(run[i - 1], actions[i - 1]) == Some(run[i - 1 + 1]);
      InvStep(run[i - 1], actions[i - 1]);
    }
    hide Step, Inv;
  }

  // ----- what the invariant says -----

  /** Every job runs at most once and in the order it was submitted; at most the last is not
      finished. What has run, been submitted or finished stays so for the rest of the run. */
  lemma JobsOnce(run: seq<State>, actions: seq<Action>, i: nat, j: nat)
    requires IsRun(run, actions) && i <= j < |run|
    ensures var s := run[j];
            && s.ran <= s.submitted && |s.submitted| <= s.finished + 1
            && (s.worker.Running? ==>
                 |s.ran| > 0 && s.submitted == s.ran && s.worker.job == s.ran[|s.ran| - 1] && s.finished == |s.ran| - 1)
    ensures run[i].ran <= run[j].ran && run[i].submitted <= run[j].submitted && run[i].finished <= run[j].finished
  {
    hide *;
    InvRun(run, actions, j);
    JobsInOrder(run[j]);
    RanGrows(run, actions, i, j);
  }

  lemma JobsInOrder(s: State)
    requires Inv(s)
    ensures s.ran <= s.submitted && |s.submitted| <= s.finished + 1
    ensures s.worker.Running? ==>
            |s.ran| > 0 && s.submitted == s.ran && s.worker.job == s.ran[|s.ran| - 1] && s.finished == |s.ran| - 1
  {
  }

  /** The histories only grow. */
  lemma {:induction false} RanGrows(run: seq<State>, actions: seq<Action>, i: nat, j: nat)
    requires IsRun(run, actions) && i <= j < |run|
    ensures run[i].ran <= run[j].ran && run[i].submitted <= run[j].submitted && run[i].finished <= run[j].finished
  {
    if i < j {
      RanGrows(run, actions, i, j - 1);
      assert Step(run[j - 1], actions[j - 1]) == Some(run[j - 1 + 1]);
      hide *;
      StepGrows(run[j - 1], actions[j - 1]);
    }
  }

  lemma StepGrows(s: State, a: Action)
    requires Step(s, a).Some?
    ensures var t := Step(s, a).value; s.ran <= t.ran && s.submitted <= t.submitted && s.finished <= t.finished
  {
    match a {
      case Works => WorkerGrows(s);
      case Owns => OwnerGrows(s);
      case Wakes(p) => hide WorkerStep, OwnerStep, Enter;
      case Calls(call) => hide WorkerStep, OwnerStep, Spurious;
    }
    hide WorkerStep, OwnerStep;
  }

  lemma WorkerGrows(s: State)
    requires WorkerStep(s).Some?
    ensures var t := WorkerStep(s).value; s.ran <= t.ran && s.submitted <= t.submitted && s.finished <= t.finished
  {
  }

  lemma OwnerGrows(s: State)
    requires OwnerStep(s).Some?
    ensures var t := OwnerStep(s).value; s.ran <= t.ran && s.submitted <= t.submitted && s.finished <= t.finished
  {
  }

  /** When a call returns, everything submitted before has run and finished, and the worker is
      parked; after a join it is gone. */
  lemma CallReturns(run: seq<State>, actions: seq<Action>, i: nat)
    requires IsRun(run, actions) && Returns(run, actions, i)
    ensures var s, s' := run[i], run[i + 1];
            && (s.owner == WCheck(ForSpawn) || s.owner == WCheck(ForWait) ==>
                  s'.ran == s'.submitted && s'.finished == |s'.submitted| &&
                    (s'.worker == Waiting || s'.worker == Waking))
            && (s.owner == JoinThread ==>
                 s'.ran == s'.submitted && s'.finished == |s'.submitted| && s'.worker == Gone && !s'.started)
            && (s.owner == WCheck(ForSpawn) || s.owner == WCheck(ForWait) || s.owner == StoreBroadcast ||
                 s.owner == JoinThread)
  {
    InvRun(run, actions, i);
    assert Step(run[i], actions[i]) == Some(run[i + 1]);
    hide IsRun;
    ReturnRight(run[i]);
  }

  lemma ReturnRight(s: State)
    requires Inv(s) && s.owner != Free && OwnerStep(s).Some? && OwnerStep(s).value.owner == Free
    ensures var s' := OwnerStep(s).value;
            && (s.owner == WCheck(ForSpawn) || s.owner == WCheck(ForWait) ==>
                  s'.ran == s'.submitted && s'.finished == |s'.submitted| &&
                    (s'.worker == Waiting || s'.worker == Waking))
            && (s.owner == JoinThread ==>
                 s'.ran == s'.submitted && s'.finished == |s'.submitted| && s'.worker == Gone && !s'.started)
            && (s.owner == WCheck(ForSpawn) || s.owner == WCheck(ForWait) || s.owner == StoreBroadcast ||
                 s.owner == JoinThread)
  {
  }

  /** A job is handed over only when the one before it has finished. */
  lemma NoOverlap(run: seq<State>, actions: seq<Action>, i: nat)
    requires IsRun(run, actions) && i < |run| && run[i].owner.Storing?
    ensures run[i].finished == |run[i].submitted| && !run[i].worker.Running? && run[i].jobFn == None
  {
    InvRun(run, actions, i);
    hide IsRun;
  }

  /** Never are both blocked: inside a call, one of the two can step without a spurious wakeup. */
  lemma NoDeadlock(run: seq<State>, actions: seq<Action>, i: nat)
    requires IsRun(run, actions) && i < |run| && run[i].owner != Free
    ensures WorkerStep(run[i]).Some? || OwnerStep(run[i]).Some?
  {
    hide *;
    InvRun(run, actions, i);
    Unblocked(run[i]);
  }

  lemma Unblocked(s: State)
    requires Inv(s)
    ensures s.owner != Free ==> WorkerStep(s).Some? || OwnerStep(s).Some?
    ensures s.owner == Free && s.started ==>
              WorkerStep(s).Some? || (s.worker == Waiting && s.ran == s.submitted && s.finished == |s.submitted|)
  {
    match s.lock {
      case None =>
      case Some(p) => assert p == Owner || p == Worker;
    }
  }

  /** Between calls the worker stops only when it is parked with nothing left to run. */
  lemma RestMeansDone(run: seq<State>, actions: seq<Action>, i: nat)
    requires IsRun(run, actions) && i < |run| && run[i].owner == Free && WorkerStep(run[i]) == None && run[i].started
    ensures run[i].worker == Waiting && run[i].ran == run[i].submitted && run[i].finished == |run[i].submitted|
  {
    hide *;
    InvRun(run, actions, i);
    Unblocked(run[i]);
  }

  // ----- every call returns -----

  /** Steps the worker has before it parks or leaves. */
  function WorkerRank(s: State): nat {
    var work := s.jobFn.Some? || s.exit;
    match s.worker
    case Absent => 0
    case Gone => 0
    case Waiting => if work then 20 else 0
    case Waking => if work then 19 else 12
    case Checking => if work then 18 else 11
    case Deciding => 17
    case Taking => 16
    case Running(_) => 15
    case Locking => 14
    case Clearing => 13
    case Announcing => 12
  }

  /** Steps the owner has in its call, with the worker's steps its stores and broadcasts cause. */
  function OwnerRank(s: State): nat {
    match s.owner
    case Free => 0
    case WLock(why) => AfterWait(why) + if s.searching then 6 else 2
    case WWake(why) => AfterWait(why) + if s.searching then 6 else 2
    case WCheck(why) => AfterWait(why) + if s.searching then 5 else 1
    case WWait(why) => AfterWait(why) + if s.searching then 4 else 3
    case Storing(_) => 40
    case StoreUnlock => 15
    case StoreBroadcast => 14
    case JoinLock => 41
    case JoinStoring => 40
    case JoinUnlock => 16
    case JoinBroadcast => 15
    case JoinThread => 1
  }

  function AfterWait(why: Purpose): nat {
    match why
    case ForSubmit(_) => 41
    case ForJoin => 42
    case _ => 1
  }

  function Rank(s: State): nat {
    WorkerRank(s) + OwnerRank(s)
  }

  lemma RankWorker(s: State)
    requires Inv(s) && WorkerStep(s).Some?
    ensures Rank(WorkerStep(s).value) < Rank(s)
  {
  }

  lemma RankOwner(s: State)
    requires Inv(s) && OwnerStep(s).Some?
    ensures Rank(OwnerStep(s).value) < Rank(s)
  {
  }

  /** A spurious wakeup costs at most the twelve steps a woken worker takes back to its wait. */
  lemma RankWake(s: State, p: Party)
    requires Inv(s) && Spurious(s, p).Some?
    ensures Rank(Spurious(s, p).value) <= Rank(s) + 12
  {
  }

  /** How many of the actions from i to j are spurious wakeups. */
  function Wakeups(actions: seq<Action>, i: nat, j: nat): (n: nat)
    requires i <= j <= |actions|
    ensures n <= j - i
  {
    if i == j then 0 else Wakeups(actions, i, j - 1) + if actions[j - 1].Wakes? then 1 else 0
  }

  /** The steps of their own the two parties take from i to j. */
  function OwnSteps(actions: seq<Action>, i: nat, j: nat): nat
    requires i <= j <= |actions|
  {
    j - i - Wakeups(actions, i, j)
  }

  /** The owner enters no call from i to j. */
  ghost predicate NoCalls(actions: seq<Action>, i: nat, j: nat)
    requires j <= |actions|
  {
    forall k :: i <= k < j ==> !actions[k].Calls?
  }

  /** Until the next call is entered, the two parties together take a bounded number of their own
      steps, whatever the schedule and however often they are woken for nothing. */
  lemma {:induction false} StepsBounded(run: seq<State>, actions: seq<Action>, i: nat, j: nat)
    requires IsRun(run, actions) && i <= j < |run| && NoCalls(actions, i, j)
    ensures OwnSteps(actions, i, j) + Rank(run[j]) <= Rank(run[i]) + 12 * Wakeups(actions, i, j)
  {
    if i < j {
      StepsBounded(run, actions, i, j - 1);
      InvRun(run, actions, j - 1);
      assert Step(run[j - 1], actions[j - 1]) == Some(run[j - 1 + 1]);
      hide IsRun, Rank, Inv, WorkerStep, OwnerStep, Spurious;
      match actions[j - 1] {
        case Works => RankWorker(run[j - 1]);
        case Owns => RankOwner(run[j - 1]);
        case Wakes(p) => RankWake(run[j - 1], p);
      }
    }
  }

  /** The step at k ends a call. */
  ghost predicate Returns(run: seq<State>, actions: seq<Action>, k: nat)
    requires |run| == |actions| + 1
  {
    k < |actions| && actions[k] == Owns && run[k].owner != Free && run[k + 1].owner == Free
  }

  /** Every call returns. Take any stretch without a new call that begins inside one. If the two
      parties have taken 68 steps of their own, and 12 more for each spurious wakeup, or if they
      have come to a point where neither can take one, then the call has returned on the way. */
  lemma CallsReturn(run: seq<State>, actions: seq<Action>, i: nat, j: nat)
    requires IsRun(run, actions) && i <= j < |run| && NoCalls(actions, i, j) && run[i].owner != Free
    requires OwnSteps(actions, i, j) >= 68 + 12 * Wakeups(actions, i, j) ||
             (WorkerStep(run[j]) == None && OwnerStep(run[j]) == None)
    ensures exists k :: i <= k < j && Returns(run, actions, k)
    ensures OwnSteps(actions, i, j) <= 68 + 12 * Wakeups(actions, i, j)
  {
    hide *;
    StepsBounded(run, actions, i, j);
    RankBound(run[i]);
    RankBound(run[j]);
    if run[j].owner != Free {
      NoDeadlock(run, actions, j);
    }
    ReturnBetween(run, actions, i, j);
  }

  /** A call open at i and over at j has returned between. */
  lemma {:induction false} ReturnBetween(run: seq<State>, actions: seq<Action>, i: nat, j: nat)
    requires IsRun(run, actions) && i <= j < |run| && NoCalls(actions, i, j) && run[i].owner != Free &&
             run[j].owner == Free
    ensures exists k :: i <= k < j && Returns(run, actions, k)
  {
    if run[j - 1].owner == Free {
      ReturnBetween(run, actions, i, j - 1);
    } else {
      assert Step(run[j - 1], actions[j - 1]) == Some(run[j - 1 + 1]);
      OnlyOwnerReturns(run[j - 1], actions[j - 1]);
      assert Returns(run, actions, j - 1);
    }
  }

  lemma OnlyOwnerReturns(s: State, a: Action)
    requires s.owner != Free && Step(s, a).Some? && Step(s, a).value.owner == Free
    ensures a == Owns
  {
  }

  lemma RankBound(s: State)
    ensures Rank(s) <= 68 && (Rank(s) == 0 ==> s.owner == Free)
  {
  }
}
