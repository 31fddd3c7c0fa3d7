/** What each call of the handshake does between its entry and its return, and what becomes of every
    job a caller ever submits, said of the calls entered. */
module HandshakeCalls {
  import opened Types
  import opened Handshake

  // ----- the jobs the calls hand over -----

  /** The jobs of the first n actions' submit calls, those on a thread that was not started apart. */
  ghost function Entered(run: seq<State>, actions: seq<Action>, n: nat): seq<Job>
    requires n <= |actions| <= |run|
  {
    if n == 0 then []
    else
      var jobs := Entered(run, actions, n - 1);
      var a := actions[n - 1];
      if a.Calls? && a.call.Submit? && run[n - 1].started then jobs + [a.call.job] else jobs
  }

  /** The job of a submit call that has not stored it yet. */
  function Pending(o: OwnerAt): seq<Job> {
    match o
    case WLock(ForSubmit(job)) => [job]
    case WCheck(ForSubmit(job)) => [job]
    case WWait(ForSubmit(job)) => [job]
    case WWake(ForSubmit(job)) => [job]
    case Storing(job) => [job]
    case _ => []
  }

  lemma PendingStep(s: State, a: Action)
    requires Step(s, a).Some?
    ensures var t := Step(s, a).value;
            t.submitted + Pending(t.owner) ==
            s.submitted + Pending(s.owner)
            + (if a.Calls? && a.call.Submit? && s.started then [a.call.job] else [])
  {
    match a {
      case Works => PendingWorker(s);
      case Owns => PendingOwner(s);
      case Wakes(p) => assert Step(s, a).value.submitted == s.submitted; hide WorkerStep, OwnerStep;
      case Calls(call) => hide WorkerStep, OwnerStep, Spurious;
    }
    hide WorkerStep, OwnerStep;
  }

  lemma PendingWorker(s: State)
    requires WorkerStep(s).Some?
    ensures WorkerStep(s).value.submitted == s.submitted && Pending(WorkerStep(s).value.owner) == Pending(s.owner)
  {
  }

  lemma PendingOwner(s: State)
    requires OwnerStep(s).Some?
    ensures var t := OwnerStep(s).value; t.submitted + Pending(t.owner) == s.submitted + Pending(s.owner)
  {
    if s.owner.Storing? {
      var t := OwnerStep(s).value;
      assert t.submitted == s.submitted + [s.owner.job] && Pending(t.owner) == [];
      hide OwnerStep, Pending;
    } else {
      PendingKept(s);
      hide OwnerStep, Pending;
    }
  }

  lemma PendingKept(s: State)
    requires OwnerStep(s).Some? && !s.owner.Storing?
    ensures OwnerStep(s).value.submitted == s.submitted && Pending(OwnerStep(s).value.owner) == Pending(s.owner)
  {
  }

  /** In every run the jobs handed over are those the calls brought, in order, but for the one whose
      call has not come to its store yet. */
  lemma {:induction false} EnteredAre(run: seq<State>, actions: seq<Action>, n: nat)
    requires IsRun(run, actions) && n < |run|
    ensures Entered(run, actions, n) == run[n].submitted + Pending(run[n].owner)
  {
    if n > 0 {
      EnteredAre(run, actions, n - 1);
      assert Step(run[n - 1], actions[n - 1]) == Some(run[n - 1 + 1]);
      hide IsRun, Step, Pending;
      PendingStep(run[n - 1], actions[n - 1]);
    }
  }

  lemma {:induction false} EnteredQuiet(run: seq<State>, actions: seq<Action>, i: nat, j: nat)
    requires i <= j <= |actions| <= |run| && NoCalls(actions, i, j)
    ensures Entered(run, actions, i) == Entered(run, actions, j)
  {
    if i < j {
      EnteredQuiet(run, actions, i, j - 1);
      assert !actions[j - 1].Calls?;
    }
  }

  // ----- from a call's entry to its return -----

  /** Where the owner is in this call. */
  predicate Serves(o: OwnerAt, call: Call) {
    match call
    case Spawn(_) => At(o, ForSpawn)
    case Submit(job) => At(o, ForSubmit(job)) || o == Storing(job) || o == StoreUnlock || o == StoreBroadcast
    case Wait => At(o, ForWait)
    case Join => At(o, ForJoin) || o.JoinLock? || o.JoinStoring? || o.JoinUnlock? || o.JoinBroadcast? || o.JoinThread?
  }

  predicate At(o: OwnerAt, why: Purpose) {
    o == WLock(why) || o == WCheck(why) || o == WWait(why) || o == WWake(why)
  }

  /** A call on a thread that is not started returns at once and changes nothing; a spawn that
      fails leaves it not started. */
  lemma ReturnsAtOnce(run: seq<State>, actions: seq<Action>, i: nat, call: Call)
    requires IsRun(run, actions) && i < |actions| && actions[i] == Calls(call) && run[i + 1].owner == Free
    ensures !run[i + 1].started && if call.Spawn? then !call.ok && run[i + 1].submitted == run[i].submitted
                                   else run[i + 1] == run[i]
  {
    RunStep(run, actions, i);
    hide IsRun;
  }

  lemma StepServes(s: State, a: Action, call: Call)
    requires Step(s, a).Some? && !a.Calls? && Serves(s.owner, call) && s.started
    ensures var t := Step(s, a).value;
            if t.owner == Free then a == Owns && (t.started <==> !call.Join?) else t.started && Serves(t.owner, call)
  {
    match a {
      case Works => WorkerServes(s, call);
      case Owns => OwnerServes(s, call);
      case Wakes(p) => hide WorkerStep, OwnerStep, Enter;
    }
    hide WorkerStep, OwnerStep;
  }

  lemma WorkerServes(s: State, call: Call)
    requires WorkerStep(s).Some? && Serves(s.owner, call)
    ensures var t := WorkerStep(s).value; t.started == s.started && Serves(t.owner, call) && t.owner != Free
  {
  }

  lemma OwnerServes(s: State, call: Call)
    requires OwnerStep(s).Some? && Serves(s.owner, call) && s.started
    ensures var t := OwnerStep(s).value;
            if t.owner == Free then (t.started <==> !call.Join?) else t.started && Serves(t.owner, call)
  {
  }

  /** The owner stays in the call it entered until that call returns. */
  lemma {:induction false} StaysServing(run: seq<State>, actions: seq<Action>, i: nat, k: nat, call: Call)
    requires IsRun(run, actions) && i <= k < |run| && NoCalls(actions, i, k)
    requires run[i].started && Serves(run[i].owner, call)
    requires forall j :: i <= j <= k ==> run[j].owner != Free
    ensures run[k].started && Serves(run[k].owner, call)
    decreases k - i
  {
    if i < k {
      StaysServing(run, actions, i, k - 1, call);
      assert Step(run[k - 1], actions[k - 1]) == Some(run[k - 1 + 1]);
      assert !actions[k - 1].Calls?;
      hide IsRun, Step;
      StepServes(run[k - 1], actions[k - 1], call);
    }
  }

  /** The call entered at i is the one that returns at k. */
  ghost predicate Answers(run: seq<State>, actions: seq<Action>, i: nat, k: nat, call: Call)
    requires |run| == |actions| + 1
  {
    && i < k < |actions| && actions[i] == Calls(call) && NoCalls(actions, i + 1, k + 1)
    && (forall j :: i < j <= k ==> run[j].owner != Free) && run[k + 1].owner == Free
  }

  /** All that was ever submitted has run and finished. */
  ghost predicate AllRun(run: seq<State>, actions: seq<Action>, n: nat)
    requires n < |run| == |actions| + 1
  {
    run[n].ran == Entered(run, actions, n) && run[n].finished == |run[n].ran|
  }

  /** What a call has done when it returns. A spawn leaves the thread started and parked, nothing
      running; a submit has handed over its job, the last of all, and left the worker awake or about
      to run it; a wait and a join come back only when every job ever submitted has run, the join
      with the worker gone. */
  lemma CallDoes(run: seq<State>, actions: seq<Action>, i: nat, k: nat, call: Call)
    requires IsRun(run, actions) && Answers(run, actions, i, k, call)
    ensures var s := run[k + 1];
            && s.submitted == Entered(run, actions, k + 1)
            && match call
               case Spawn(ok) => ok && s.started && AllRun(run, actions, k + 1) && Parked(s.worker)
               case Submit(job) =>
                 && s.started && Entered(run, actions, k + 1) == Entered(run, actions, i) + [job]
                 && (WorkerStep(s) == None ==> AllRun(run, actions, k + 1))
               case Wait => s.started && AllRun(run, actions, k + 1) && Parked(s.worker)
               case Join => !s.started && AllRun(run, actions, k + 1) && s.worker == Gone
  {
    hide *;
    IsRunSize(run, actions);
    AnswersIs(run, actions, i, k, call);
    RunStep(run, actions, i);
    RunStep(run, actions, k);
    EnterReturns(run[i], call);
    StaysServing(run, actions, i + 1, k, call);
    StepServes(run[k], actions[k], call);
    EnteredAre(run, actions, k + 1);
    EnteredStep(run, actions, i);
    EnteredQuiet(run, actions, i + 1, k + 1);
    FreePending(run[k + 1].owner);
    AllRunIs(run, actions, k + 1);
    InvRun(run, actions, k);
    ReturnDone(run[k], call);
    if call.Submit? && WorkerStep(run[k + 1]) == None {
      RestMeansDone(run, actions, k + 1);
    }
  }

  predicate Parked(w: WorkerAt) {
    w == Waiting || w == Waking
  }

  lemma RunStep(run: seq<State>, actions: seq<Action>, i: nat)
    requires IsRun(run, actions) && i < |actions|
    ensures |run| == |actions| + 1 && Step(run[i], actions[i]) == Some(run[i + 1])
  {
    hide Step;
  }

  lemma AnswersIs(run: seq<State>, actions: seq<Action>, i: nat, k: nat, call: Call)
    requires |run| == |actions| + 1 && Answers(run, actions, i, k, call)
    ensures i < k < |actions| && actions[i] == Calls(call) && !actions[k].Calls?
    ensures NoCalls(actions, i + 1, k + 1) && NoCalls(actions, i + 1, k)
    ensures Step(run[i], actions[i]) == Enter(run[i], call)
    ensures actions[k] == Owns ==> Step(run[k], actions[k]) == OwnerStep(run[k])
    ensures (forall j :: i < j <= k ==> run[j].owner != Free) && run[k + 1].owner == Free
  {
    hide Enter, OwnerStep;
  }

  /** A call that does not return at once is inside itself. */
  lemma EnterReturns(s: State, call: Call)
    requires Enter(s, call).Some? && Enter(s, call).value.owner != Free
    ensures var t := Enter(s, call).value; t.started && Serves(t.owner, call)
    ensures if call.Spawn? then call.ok else s.started
  {
  }

  lemma EnteredStep(run: seq<State>, actions: seq<Action>, i: nat)
    requires i < |actions| <= |run|
    ensures Entered(run, actions, i + 1) == Entered(run, actions, i) +
            if actions[i].Calls? && actions[i].call.Submit? && run[i].started then [actions[i].call.job] else []
  {
  }

  lemma FreePending(o: OwnerAt)
    ensures o == Free ==> Pending(o) == []
  {
  }

  lemma AllRunIs(run: seq<State>, actions: seq<Action>, n: nat)
    requires n < |run| == |actions| + 1
    ensures AllRun(run, actions, n) <==>
              run[n].ran == Entered(run, actions, n) && run[n].finished == |run[n].ran|
  {
  }

  lemma ReturnDone(s: State, call: Call)
    requires Inv(s) && Serves(s.owner, call) && OwnerStep(s).Some? && OwnerStep(s).value.owner == Free
    ensures var t := OwnerStep(s).value;
            && (call.Spawn? || call.Wait? ==> t.ran == t.submitted && t.finished == |t.ran| && Parked(t.worker))
            && (call.Join? ==> t.ran == t.submitted && t.finished == |t.ran| && t.worker == Gone)
  {
  }

  /** So every job a caller hands to a started thread runs: from any point of any run, however the
      parties are scheduled and woken, once they have taken 68 steps of their own and 12 more for
      each wakeup without a new call, or can take none, all jobs entered have run once each, in
      order, and finished. */
  lemma JobsRun(run: seq<State>, actions: seq<Action>, i: nat, j: nat)
    requires IsRun(run, actions) && i <= j < |run| && NoCalls(actions, i, j)
    requires OwnSteps(actions, i, j) >= 68 + 12 * Wakeups(actions, i, j) ||
             (WorkerStep(run[j]) == None && OwnerStep(run[j]) == None)
    ensures AllRun(run, actions, j) && run[j].owner == Free
  {
    hide *;
    StepsBounded(run, actions, i, j);
    RankBound(run[i]);
    RankBound(run[j]);
    InvRun(run, actions, j);
    EnteredAre(run, actions, j);
    FreePending(run[j].owner);
    if run[j].owner != Free {
      NoDeadlock(run, actions, j);
    }
    IsRunSize(run, actions);
    AllRunIs(run, actions, j);
    RestsDone(run[j]);
  }

  lemma IsRunSize(run: seq<State>, actions: seq<Action>)
    requires IsRun(run, actions)
    ensures |run| == |actions| + 1
  {
  }

  /** A state with no rank left, or where neither party can step, has run everything. */
  lemma RestsDone(s: State)
    requires Inv(s) && s.owner == Free && (Rank(s) == 0 || WorkerStep(s) == None)
    ensures s.ran == s.submitted && s.finished == |s.ran|
  {
    Unblocked(s);
    assert Rank(s) == 0 ==> WorkerStep(s) == None;
  }
}
