/**
 What the pool can always still do: as long as the flag is not set, every waiting task can run.
 "Can" means that some continuation does it in which the condition variable wakes no worker
 spuriously.
 */
module PoolProgress {
  import opened Wire
  import opened ThreadPool
  import opened PoolTheorems
  import opened Shutdown

  // ----- No wake-up is lost while the flag is not set

  predicate Awake(w: Worker) {
    !w.InGap? && !w.Blocked? && !w.Leaving? && !w.Exited?
  }

  predicate SomeAwake(p: Pool) {
    exists i :: 0 <= i < |p.workers| && Awake(p.workers[i])
  }

  // A Submit call has enqueued its task and not yet notified.
  predicate Notifying(k: Client) {
    k.SubmitUnlock? || k.SubmitNotify?
  }

  predicate SomeNotifying(p: Pool) {
    exists c :: 0 <= c < |p.clients| && Notifying(p.clients[c])
  }

  ghost predicate WakeOk(p: Pool) {
    && |p.workers| > 0
    && (forall i :: 0 <= i < |p.workers| && p.workers[i].InGap? ==> p.shared.queue == [])
    && (!p.shared.stopping ==> forall i :: 0 <= i < |p.workers| ==> !p.workers[i].Leaving? && !p.workers[i].Exited?)
    && (!p.shared.stopping && p.shared.queue != [] ==> SomeAwake(p) || SomeNotifying(p))
  }

  lemma WorkerWakes(s: Shared, i: nat, w: Worker)
    requires WorkerStep(s, i, w).Some? && (w.InGap? ==> s.queue == [])
    ensures var r := WorkerStep(s, i, w).value;
            && (r.pc.InGap? ==> r.shared.queue == [])
            && (r.shared.queue != [] ==> s.queue != [])
            && (!s.stopping && !w.Leaving? ==> !r.pc.Leaving? && !r.pc.Exited?)
            && (!s.stopping && !w.Leaving? && r.shared.queue != [] ==> Awake(r.pc))
            && (r.shared.queue == s.queue || WorkerHoldsLock(w))
  {
  }

  lemma WakeKeptByWorker(p: Pool, i: nat)
    requires WakeOk(p) && LockOk(p) && Next(p, Work(i)).Some?
    ensures WakeOk(Next(p, Work(i)).value)
  {
    hide WorkerStep, AfterWorker, Awake;
    var q := Next(p, Work(i)).value;
    WorkerLocal(p.shared, i, p.workers[i]);
    WorkerWakes(p.shared, i, p.workers[i]);
    assert !q.shared.stopping && q.shared.queue != [] ==> Awake(q.workers[i]);
  }

  lemma ClientWakes(s: Shared, ws: seq<Worker>, c: nat, k: Client, choice: nat)
    requires ClientStep(s, ws, c, k, choice).Some?
    ensures var r := ClientStep(s, ws, c, k, choice).value;
            && (r.shared.queue == s.queue || r.shared.queue == [] || Notifying(r.pc))
            && (r.shared.queue == s.queue || ClientHoldsLock(k))
            && (Notifying(k) && !Notifying(r.pc) ==> k.SubmitNotify? && r.shared.queue == s.queue)
  {
  }

  // Whoever notify_one finds asleep is awake afterwards; if it finds nobody, nobody slept.
  lemma NotifyOneHelps(p: Pool, c: nat, choice: nat)
    requires WakeOk(p) && !p.shared.stopping && p.shared.queue != []
    requires c < |p.clients| && p.clients[c].SubmitNotify? && MayNotify(p.workers, choice)
    ensures exists i :: 0 <= i < |p.workers| && Awake(Notified(p.workers, p.clients[c], choice)[i])
  {
    var ws := Notified(p.workers, p.clients[c], choice);
    if choice < |p.workers| && p.workers[choice].Blocked? {
      assert Awake(ws[choice]);
    } else {
      assert Awake(ws[0]);
    }
  }

  lemma AwakeStays(before: seq<Worker>, after: seq<Worker>, i: nat)
    requires Waking(before, after) && i < |before|
    ensures Awake(before[i]) ==> Awake(after[i])
    ensures after[i].InGap? ==> before[i].InGap?
    ensures after[i].Leaving? || after[i].Exited? ==> before[i].Leaving? || before[i].Exited?
  {
  }

  lemma WakeKeptByClient(p: Pool, c: nat, choice: nat)
    requires WakeOk(p) && LockOk(p) && Next(p, Call(c, choice)).Some?
    ensures WakeOk(Next(p, Call(c, choice)).value)
  {
    hide ClientStep, AfterClient, Notified, Awake, Notifying;
    var q := Next(p, Call(c, choice)).value;
    var k := p.clients[c];
    ClientLocal(p.shared, p.workers, c, k, choice);
    ClientWakes(p.shared, p.workers, c, k, choice);
    NotifiedWakes(p.workers, k, choice);
    forall i | 0 <= i < |p.workers|
      ensures Awake(p.workers[i]) ==> Awake(q.workers[i])
      ensures q.workers[i].InGap? ==> p.workers[i].InGap?
      ensures q.workers[i].Leaving? || q.workers[i].Exited? ==> p.workers[i].Leaving? || p.workers[i].Exited?
    {
      AwakeStays(p.workers, q.workers, i);
    }
    if !q.shared.stopping && q.shared.queue != [] {
      if q.shared.queue != p.shared.queue {
        assert Notifying(q.clients[c]);
      } else if k.SubmitNotify? {
        NotifyStep(p.shared, p.workers, c, choice);
        NotifyOneHelps(p, c, choice);
      } else if d :| 0 <= d < |p.clients| && Notifying(p.clients[d]) {
        assert Notifying(q.clients[d]);
      }
    }
  }

  lemma NotifyStep(s: Shared, ws: seq<Worker>, c: nat, choice: nat)
    requires ClientStep(s, ws, c, SubmitNotify, choice).Some?
    ensures MayNotify(ws, choice)
  {
  }

  lemma WakeKept(p: Pool, a: Action)
    requires WakeOk(p) && LockOk(p) && Next(p, a).Some?
    ensures WakeOk(Next(p, a).value)
  {
    hide LockOk, WorkerStep, ClientStep, AfterWorker, AfterClient, Notified;
    match a
    case Work(i) => WakeKeptByWorker(p, i);
    case Call(c, choice) => WakeKeptByClient(p, c, choice);
    case SpuriousWake(i) => assert Awake(Next(p, a).value.workers[i]);
    case BeginSubmit(c) => WakeKeptByBegin(p, c, Next(p, a).value);
    case BeginShutdown(c) => WakeKeptByBegin(p, c, Next(p, a).value);
  }

  lemma WakeKeptByBegin(p: Pool, c: nat, q: Pool)
    requires WakeOk(p) && c < |p.clients| == |q.clients| && p.clients[c].Idle?
    requires q.workers == p.workers && q.shared == p.shared && q.clients == p.clients[c := q.clients[c]]
    ensures WakeOk(q)
  {
    if d :| 0 <= d < |p.clients| && Notifying(p.clients[d]) {
      assert Notifying(q.clients[d]);
    }
  }

  ghost predicate Good(p: Pool) {
    Inv(p) && WakeOk(p)
  }

  lemma GoodKept(p: Pool, a: Action)
    requires Good(p) && Next(p, a).Some?
    ensures Good(Next(p, a).value)
  {
    hide Next, WakeOk, LockOk, ActiveOk, OrderOk, TasksOk, StopOk, BegunOk;
    InvKept(p, a);
    WakeKept(p, a);
  }

  lemma {:induction false} GoodHolds(p: Pool, s: Schedule)
    requires Good(p) && Exec(p, s).Some?
    ensures Good(Exec(p, s).value)
  {
    hide Next, Good;
    match s
    case Start =>
    case Then(past, a) =>
      GoodHolds(p, past);
      GoodKept(Exec(p, past).value, a);
  }

  lemma ReachableGood(requested: nat, hardware: nat, clients: nat, s: Schedule, p: Pool)
    requires Reachable(requested, hardware, clients, s, p)
    ensures Good(p)
  {
    var p0 := Initial(WorkerCount(requested, hardware), clients);
    InitialInv(WorkerCount(requested, hardware), clients);
    assert WakeOk(p0);
    GoodHolds(p0, s);
  }

  // ----- Whose turn it is

  // Steps of a worker until it takes a task, when there is one and the flag is not set.
  function TurnsLeft(w: Worker): nat {
    match w
    case Popping => 1
    case Deciding => 2
    case Testing => 3
    case Acquiring => 4
    case AtLoop => 5
    case Blocked => 5
    case Ran(_) => 6
    case InGap => 6
    case Running(_) => 7
    case Counted(_) => 8
    case Carrying(_) => 9
    case Releasing(_) => 10
    case Leaving => 0
    case Exited => 0
  }

  // Steps of a Submit call from taking the lock to its return.
  function CallsLeft(k: Client): nat {
    match k
    case SubmitNotify => 1
    case SubmitReject => 1
    case SubmitUnlock => 2
    case SubmitPush(_) => 3
    case SubmitRecheck(_) => 4
    case _ => 0
  }

  function Total<T>(f: T -> nat, s: seq<T>): nat {
    if s == [] then 0 else Total(f, s[..|s| - 1]) + f(s[|s| - 1])
  }

  lemma {:induction false} TotalUpdate<T>(f: T -> nat, s: seq<T>, i: nat, x: T)
    requires i < |s|
    ensures Total(f, s[i := x]) + f(s[i]) == Total(f, s) + f(x)
  {
    var n := |s| - 1;
    if i == n {
      assert s[i := x][..n] == s[..n];
    } else {
      assert s[i := x][..n] == s[..n][i := x];
      TotalUpdate(f, s[..n], i, x);
    }
  }

  function Turns(p: Pool): nat {
    Total(TurnsLeft, p.workers) + Total(CallsLeft, p.clients)
  }

  // A step towards the next task being taken.
  ghost predicate Closer(p: Pool, q: Pool) {
    && !q.shared.stopping
    && p.history.pushed <= q.history.pushed
    && (|q.history.popped| == |p.history.popped| + 1
        || (|q.history.popped| == |p.history.popped| && Turns(q) < Turns(p)))
  }

  lemma WorkerTurn(s: Shared, i: nat, w: Worker)
    requires !s.stopping && s.queue != [] && Awake(w) && (WorkerHoldsLock(w) || s.lock == None)
    ensures WorkerStep(s, i, w).Some?
    ensures w.Popping? || TurnsLeft(WorkerStep(s, i, w).value.pc) < TurnsLeft(w)
  {
  }

  lemma WorkIsCloser(p: Pool, i: nat)
    requires BegunOk(p) && !p.shared.stopping && p.shared.queue != [] && i < |p.workers| && Awake(p.workers[i])
    requires WorkerHoldsLock(p.workers[i]) || p.shared.lock == None
    ensures Next(p, Work(i)).Some? && Closer(p, Next(p, Work(i)).value)
  {
    hide WorkerStep, AfterWorker, TurnsLeft, Total, InHand;
    var w := p.workers[i];
    WorkerTurn(p.shared, i, w);
    WorkerLocal(p.shared, i, w);
    WorkerFrame(p.shared, p.history, i, w);
    WorkerTasks(p.shared, p.history, i, w);
    TotalUpdate(TurnsLeft, p.workers, i, WorkerStep(p.shared, i, w).value.pc);
  }

  lemma HolderTurn(s: Shared, ws: seq<Worker>, c: nat, k: Client)
    requires !s.stopping && ClientHoldsLock(k) && !IsStopper(k)
    ensures ClientStep(s, ws, c, k, 0).Some? && Notified(ws, k, 0) == ws && !k.StopExchange?
    ensures CallsLeft(ClientStep(s, ws, c, k, 0).value.pc) < CallsLeft(k)
  {
  }

  lemma HolderIsCloser(p: Pool, c: nat)
    requires StopOk(p) && !p.shared.stopping && c < |p.clients| && ClientHoldsLock(p.clients[c])
    ensures Next(p, Call(c, 0)).Some? && Closer(p, Next(p, Call(c, 0)).value)
  {
    hide ClientStep, AfterClient, Notified, CallsLeft, Total, ClientHoldsLock, StopperOk;
    var k := p.clients[c];
    HolderTurn(p.shared, p.workers, c, k);
    ClientLocal(p.shared, p.workers, c, k, 0);
    ClientTasks(p.shared, p.history, p.workers, c, k, 0);
    TotalUpdate(CallsLeft, p.clients, c, ClientStep(p.shared, p.workers, c, k, 0).value.pc);
  }

  lemma NotifyIsCloser(p: Pool, c: nat, i: nat)
    requires !p.shared.stopping && c < |p.clients| && p.clients[c].SubmitNotify?
    requires i < |p.workers| && p.workers[i].Blocked?
    ensures Next(p, Call(c, i)).Some? && Closer(p, Next(p, Call(c, i)).value)
  {
    hide Total;
    TotalUpdate(TurnsLeft, p.workers, i, Acquiring);
    TotalUpdate(CallsLeft, p.clients, c, Idle);
    assert Next(p, Call(c, i)).value.workers == p.workers[i := Acquiring];
  }

  // Whoever holds the lock can move; if nobody does, a worker that is awake can; if all sleep, the
  // call that enqueued a task has yet to notify.
  lemma SomeoneServes(p: Pool) returns (a: Action)
    requires Good(p) && !p.shared.stopping && p.shared.queue != []
    ensures !a.SpuriousWake? && Next(p, a).Some? && Closer(p, Next(p, a).value)
  {
    hide Next, Closer, ActiveOk, OrderOk, TasksOk, BegunOk, StopOk;
    match p.shared.lock
    case Some(WorkerThread(i)) =>
      WorkIsCloser(p, i);
      a := Work(i);
    case Some(ClientThread(c)) =>
      HolderIsCloser(p, c);
      a := Call(c, 0);
    case None =>
      if i :| 0 <= i < |p.workers| && Awake(p.workers[i]) {
        WorkIsCloser(p, i);
        a := Work(i);
      } else {
        var c :| 0 <= c < |p.clients| && Notifying(p.clients[c]);
        assert !ClientHoldsLock(p.clients[c]);
        assert !Awake(p.workers[0]);
        NotifyIsCloser(p, c, 0);
        a := Call(c, 0);
      }
  }

  // ----- Every waiting task can run

  lemma HandAdvances(p: Pool, i: nat, t: Task)
    requires BegunOk(p) && i < |p.workers| && InHand(p.workers[i]) == Some(t)
    ensures Next(p, Work(i)).Some?
    ensures var q := Next(p, Work(i)).value;
            if p.workers[i].Running? then t in q.history.finished
            else |q.workers| == |p.workers| && InHand(q.workers[i]) == Some(t)
                 && TurnsLeft(q.workers[i]) < TurnsLeft(p.workers[i])
  {
  }

  lemma {:induction false} FinishInHand(p: Pool, i: nat, t: Task) returns (later: Schedule)
    requires Good(p) && i < |p.workers| && InHand(p.workers[i]) == Some(t)
    ensures NoSpuriousWake(later) && Exec(p, later).Some?
    ensures t in Exec(p, later).value.history.finished
    decreases TurnsLeft(p.workers[i])
  {
    hide Next, TurnsLeft, InHand, LockOk, ActiveOk, OrderOk, TasksOk, StopOk, WakeOk, BegunOk;
    HandAdvances(p, i, t);
    var first := Then(Start, Work(i));
    assert Exec(p, Start) == Some(p) && NoSpuriousWake(first);
    later := first;
    if !p.workers[i].Running? {
      GoodKept(p, Work(i));
      var rest := FinishInHand(Next(p, Work(i)).value, i, t);
      ExecContinue(p, first, rest);
      later := Continue(first, rest);
    }
  }

  lemma {:induction false} HeldBySomeone(ws: seq<Worker>, t: Task) returns (i: nat)
    requires Held(ws)[t] > 0
    ensures i < |ws| && InHand(ws[i]) == Some(t)
  {
    var n := |ws| - 1;
    if InHand(ws[n]) == Some(t) {
      i := n;
    } else {
      i := HeldBySomeone(ws[..n], t);
    }
  }

  lemma FinishPopped(p: Pool, t: Task) returns (later: Schedule)
    requires Good(p) && t in p.history.popped
    ensures NoSpuriousWake(later) && Exec(p, later).Some?
    ensures t in Exec(p, later).value.history.finished
  {
    hide LockOk, ActiveOk, TasksOk, StopOk, WakeOk, BegunOk, Next;
    assert multiset(p.history.popped)[t] > 0;
    if t in p.history.finished {
      later := Start;
    } else {
      assert multiset(p.history.finished)[t] == 0;
      var i := HeldBySomeone(p.workers, t);
      later := FinishInHand(p, i, t);
    }
  }

  lemma Waiting(p: Pool)
    requires Good(p) && !p.shared.stopping
    ensures p.history.pushed == p.history.popped + p.shared.queue
  {
    hide LockOk, ActiveOk, TasksOk, BegunOk, WakeOk, Held, StopperOk;
    var popped, queue := p.history.popped, p.shared.queue;
    assert p.history.discarded == [];
    assert popped + [] + queue == popped + queue;
  }

  lemma {:induction false} Serve(p: Pool, m: nat) returns (later: Schedule)
    requires Good(p) && !p.shared.stopping && m < |p.history.pushed|
    ensures NoSpuriousWake(later) && Exec(p, later).Some?
    ensures p.history.pushed[m] in Exec(p, later).value.history.finished
    decreases m + 1 - |p.history.popped|, Turns(p)
  {
    hide Next, Good, Turns;
    Waiting(p);
    var t := p.history.pushed[m];
    if m < |p.history.popped| {
      assert t == p.history.popped[m];
      later := FinishPopped(p, t);
    } else {
      var a := SomeoneServes(p);
      var first := Then(Start, a);
      assert Exec(p, Start) == Some(p) && NoSpuriousWake(first);
      GoodKept(p, a);
      var rest := Serve(Next(p, a).value, m);
      ExecContinue(p, first, rest);
      later := Continue(first, rest);
    }
  }

  /** As long as the flag is not set, every task in the queue can still be run to its end. */
  lemma QueuedTaskCanRun(requested: nat, hardware: nat, clients: nat, s: Schedule, p: Pool, t: Task)
    returns (later: Schedule)
    requires Reachable(requested, hardware, clients, s, p) && !p.shared.stopping && t in p.shared.queue
    ensures NoSpuriousWake(later) && Exec(p, later).Some?
    ensures t in Exec(p, later).value.history.finished
  {
    hide Exec, Good;
    ReachableGood(requested, hardware, clients, s, p);
    Waiting(p);
    var j :| 0 <= j < |p.shared.queue| && p.shared.queue[j] == t;
    later := Serve(p, |p.history.popped| + j);
  }
}
