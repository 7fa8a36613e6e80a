/**
 Submit and the queue: which tasks are enqueued, and that a worker inside the lock takes the first.
 */
module Submission {
  import opened Wire
  import opened ThreadPool
  import opened PoolTheorems
  import opened Shutdown
  import opened PoolProgress

  // ----- Submit

  // Steps until the holder of the lock releases it.
  function HolderLeft(p: Pool): nat {
    match p.shared.lock
    case None => 0
    case Some(WorkerThread(i)) =>
      if i >= |p.workers| then 0 else
        (match p.workers[i]
         case Testing => 4
         case Deciding => 3
         case Popping => 2
         case _ => 1)
    case Some(ClientThread(c)) =>
      if c >= |p.clients| then 0 else
        (match p.clients[c]
         case SubmitRecheck(_) => 3
         case SubmitPush(_) => 2
         case _ => 1)
  }

  lemma WorkReleases(p: Pool, i: nat)
    requires BegunOk(p) && i < |p.workers| && p.shared.lock == Some(WorkerThread(i)) && WorkerHoldsLock(p.workers[i])
    ensures Next(p, Work(i)).Some?
    ensures var q := Next(p, Work(i)).value;
            HolderLeft(q) < HolderLeft(p) && q.clients == p.clients && q.shared.stopping == p.shared.stopping
  {
  }

  lemma CallReleases(p: Pool, c: nat)
    requires !p.shared.stopping && c < |p.clients| && p.shared.lock == Some(ClientThread(c))
    requires ClientHoldsLock(p.clients[c]) && !IsStopper(p.clients[c])
    ensures Next(p, Call(c, 0)).Some?
    ensures var q := Next(p, Call(c, 0)).value;
            && HolderLeft(q) < HolderLeft(p) && !q.shared.stopping
            && |q.clients| == |p.clients| && q.clients == p.clients[c := q.clients[c]]
  {
  }

  // The lock can be released while client c waits for it.
  lemma {:induction false} FreeLock(p: Pool, c: nat) returns (later: Schedule)
    requires Good(p) && !p.shared.stopping && c < |p.clients| && p.clients[c].SubmitLock?
    ensures NoSpuriousWake(later) && Exec(p, later).Some?
    ensures var q := Exec(p, later).value;
            && Good(q) && !q.shared.stopping && q.shared.lock == None
            && |q.clients| == |p.clients| && q.clients[c] == p.clients[c]
    decreases HolderLeft(p)
  {
    hide Next, HolderLeft, ActiveOk, OrderOk, TasksOk, BegunOk, WakeOk;
    later := Start;
    if p.shared.lock.Some? {
      var a;
      match p.shared.lock.value {
        case WorkerThread(i) =>
          WorkReleases(p, i);
          a := Work(i);
        case ClientThread(d) =>
          assert !IsStopper(p.clients[d]);
          CallReleases(p, d);
          a := Call(d, 0);
      }
      var first := Then(Start, a);
      assert Exec(p, Start) == Some(p) && NoSpuriousWake(first);
      GoodKept(p, a);
      var rest := FreeLock(Next(p, a).value, c);
      ExecContinue(p, first, rest);
      later := Continue(first, rest);
    }
  }

  // With the lock free, three steps enqueue the task.
  lemma Enqueue(p: Pool, c: nat, t: Task) returns (later: Schedule)
    requires !p.shared.stopping && p.shared.lock == None && c < |p.clients| && p.clients[c] == SubmitLock(t)
    ensures NoSpuriousWake(later) && Exec(p, later).Some?
    ensures var q := Exec(p, later).value;
            !q.shared.stopping && q.history.pushed == p.history.pushed + [t]
  {
    var locked := Then(Start, Call(c, 0));
    assert Exec(p, Start) == Some(p);
    assert Exec(p, locked).value.clients[c] == SubmitRecheck(t);
    var checked := Then(locked, Call(c, 0));
    assert Exec(p, checked).value.clients[c] == SubmitPush(t);
    assert NoSpuriousWake(locked) && NoSpuriousWake(checked);
    later := Then(checked, Call(c, 0));
  }

  lemma Begun(p: Pool, c: nat)
    requires c < |p.clients| && p.clients[c].Idle?
    ensures Next(p, BeginSubmit(c)).Some?
    ensures var q := Next(p, BeginSubmit(c)).value;
            && q.workers == p.workers && q.shared == p.shared && q.history.pushed == p.history.pushed
            && |q.clients| == |p.clients| && q.clients[c] == SubmitCheck(p.history.nextTask)
  {
  }

  lemma Checked(p: Pool, c: nat, t: Task)
    requires c < |p.clients| && p.clients[c] == SubmitCheck(t)
    ensures Next(p, Call(c, 0)).Some?
    ensures var q := Next(p, Call(c, 0)).value;
            && q.shared == p.shared && |q.clients| == |p.clients|
            && q.clients[c] == if p.shared.stopping then Idle else SubmitLock(t)
  {
  }

  lemma CanEnqueue(p: Pool, c: nat, t: Task) returns (later: Schedule)
    requires Good(p) && !p.shared.stopping && c < |p.clients| && p.clients[c] == SubmitCheck(t)
    ensures NoSpuriousWake(later) && Exec(p, later).Some?
    ensures var q := Exec(p, later).value;
            Good(q) && !q.shared.stopping && t in q.history.pushed
  {
    hide Next, Good;
    Checked(p, c, t);
    GoodKept(p, Call(c, 0));
    var first := Then(Start, Call(c, 0));
    assert Exec(p, Start) == Some(p) && NoSpuriousWake(first);
    var q := Next(p, Call(c, 0)).value;
    var freed := FreeLock(q, c);
    var pushed := Enqueue(Exec(q, freed).value, c, t);
    ExecContinue(q, freed, pushed);
    ExecContinue(p, first, Continue(freed, pushed));
    later := Continue(first, Continue(freed, pushed));
    GoodHolds(p, later);
  }

  /** A Submit call begun before the flag is set can have its task enqueued and run to its end. */
  lemma SubmittedTaskCanRun(requested: nat, hardware: nat, clients: nat, s: Schedule, p: Pool, c: nat)
    returns (later: Schedule)
    requires Reachable(requested, hardware, clients, s, p) && !p.shared.stopping
    requires c < |p.clients| && p.clients[c].Idle?
    ensures Next(p, BeginSubmit(c)).Some? && NoSpuriousWake(later)
    ensures var q := Exec(Next(p, BeginSubmit(c)).value, later);
            q.Some? && p.history.nextTask in q.value.history.pushed && p.history.nextTask in q.value.history.finished
  {
    hide Next, Good;
    ReachableGood(requested, hardware, clients, s, p);
    Begun(p, c);
    GoodKept(p, BeginSubmit(c));
    var q, t := Next(p, BeginSubmit(c)).value, p.history.nextTask;
    var pushed := CanEnqueue(q, c, t);
    var r := Exec(q, pushed).value;
    var m :| 0 <= m < |r.history.pushed| && r.history.pushed[m] == t;
    var rest := Serve(r, m);
    ExecContinue(q, pushed, rest);
    later := Continue(pushed, rest);
    PushedStays(r, rest, t);
  }

  lemma {:induction false} PushedStays(p: Pool, s: Schedule, t: Task)
    requires t in p.history.pushed && Exec(p, s).Some?
    ensures t in Exec(p, s).value.history.pushed
  {
    hide WorkerStep, ClientStep, Notified;
    match s
    case Start =>
    case Then(past, a) => PushedStays(p, past, t);
  }

  // Task t was submitted after the flag was set: its call, if still there, is at its first test.
  ghost predicate Barred(p: Pool, t: Task) {
    && p.shared.stopping && t < p.history.nextTask && t !in p.history.pushed
    && forall c :: 0 <= c < |p.clients| && Pending(p.clients[c]) == Some(t) ==> p.clients[c].SubmitCheck?
  }

  lemma BarredClient(s: Shared, ws: seq<Worker>, c: nat, k: Client, choice: nat)
    requires s.stopping && ClientStep(s, ws, c, k, choice).Some?
    ensures k.SubmitCheck? ==> Pending(ClientStep(s, ws, c, k, choice).value.pc) == None
  {
  }

  lemma BarredKept(p: Pool, t: Task, a: Action)
    requires Barred(p, t) && Next(p, a).Some?
    ensures Barred(Next(p, a).value, t)
  {
    hide WorkerStep, ClientStep, AfterWorker, AfterClient, Notified;
    match a
    case Work(i) =>
      WorkerLocal(p.shared, i, p.workers[i]);
      WorkerFrame(p.shared, p.history, i, p.workers[i]);
    case Call(c, choice) =>
      ClientLocal(p.shared, p.workers, c, p.clients[c], choice);
      ClientTasks(p.shared, p.history, p.workers, c, p.clients[c], choice);
      BarredClient(p.shared, p.workers, c, p.clients[c], choice);
    case _ =>
  }

  lemma {:induction false} BarredForever(p: Pool, t: Task, s: Schedule)
    requires Barred(p, t) && Exec(p, s).Some?
    ensures Barred(Exec(p, s).value, t)
  {
    hide Next, Barred;
    match s
    case Start =>
    case Then(past, a) =>
      BarredForever(p, t, past);
      BarredKept(Exec(p, past).value, t, a);
  }

  lemma BeginsBarred(p: Pool, c: nat)
    requires Good(p) && p.shared.stopping && c < |p.clients| && p.clients[c].Idle?
    ensures Next(p, BeginSubmit(c)).Some? && Barred(Next(p, BeginSubmit(c)).value, p.history.nextTask)
  {
    hide LockOk, ActiveOk, OrderOk, StopOk, BegunOk, WakeOk;
    forall d | 0 <= d < |p.clients|
      ensures Pending(p.clients[d]) != Some(p.history.nextTask)
    {
      assert PendingOk(p, d);
    }
  }

  ghost predicate MayEnqueue(p: Pool, t: Task) {
    exists s :: Exec(p, s).Some? && t in Exec(p, s).value.history.pushed
  }

  /** The task of a Submit call can be enqueued exactly when the flag was not set at its begin; if
      it was, the call's first step returns, without waiting for the lock. */
  lemma SubmitAcceptedIff(requested: nat, hardware: nat, clients: nat, s: Schedule, p: Pool, c: nat)
    requires Reachable(requested, hardware, clients, s, p) && c < |p.clients| && p.clients[c].Idle?
    ensures Next(p, BeginSubmit(c)).Some?
    ensures MayEnqueue(Next(p, BeginSubmit(c)).value, p.history.nextTask) <==> !p.shared.stopping
    ensures p.shared.stopping ==>
              var q := Next(Next(p, BeginSubmit(c)).value, Call(c, 0));
              q.Some? && q.value.clients[c] == Idle
  {
    hide Next, Good, Barred;
    ReachableGood(requested, hardware, clients, s, p);
    Begun(p, c);
    var q, t := Next(p, BeginSubmit(c)).value, p.history.nextTask;
    Checked(q, c, t);
    if p.shared.stopping {
      BeginsBarred(p, c);
      forall later | Exec(q, later).Some?
        ensures t !in Exec(q, later).value.history.pushed
      {
        BarredForever(q, t, later);
        BarredMeans(Exec(q, later).value, t);
      }
    } else {
      GoodKept(p, BeginSubmit(c));
      var later := CanEnqueue(q, c, t);
    }
  }

  lemma BarredMeans(p: Pool, t: Task)
    requires Barred(p, t)
    ensures t !in p.history.pushed
  {
  }

  // ----- The front of the queue

  // Worker i, inside the lock with tasks waiting, has not taken the front one yet.
  ghost predicate AboutToTake(p: Pool, i: nat, popped: seq<Task>, queue: seq<Task>) {
    && i < |p.workers| && (p.workers[i].Testing? || p.workers[i].Deciding? || p.workers[i].Popping?)
    && p.shared.lock == Some(WorkerThread(i))
    && p.history.popped == popped && p.shared.queue == queue
  }

  ghost predicate TakesFront(p: Pool, i: nat, popped: seq<Task>, queue: seq<Task>)
    requires queue != []
  {
    AboutToTake(p, i, popped, queue) || popped + [queue[0]] <= p.history.popped
  }

  lemma TakerGoesOn(s: Shared, h: History, i: nat, w: Worker)
    requires (w.Testing? || w.Deciding? || w.Popping?) && s.queue != [] && i < |h.begun|
    ensures WorkerStep(s, i, w).Some?
    ensures var r, g := WorkerStep(s, i, w).value, AfterWorker(h, s, i, w);
            if w.Popping? then g.popped == h.popped + [s.queue[0]]
            else (r.pc.Deciding? || r.pc.Popping?) && r.shared == s && g == h
  {
  }

  lemma TakerKept(p: Pool, i: nat, a: Action)
    requires LockOk(p) && p.shared.queue != [] && AboutToTake(p, i, p.history.popped, p.shared.queue)
    requires Next(p, a).Some?
    ensures TakesFront(Next(p, a).value, i, p.history.popped, p.shared.queue)
  {
    hide WorkerStep, ClientStep, AfterWorker, AfterClient, Notified;
    match a
    case Work(j) =>
      WorkerLocal(p.shared, j, p.workers[j]);
      WorkerWakes(p.shared, j, p.workers[j]);
      if j == i {
        TakerGoesOn(p.shared, p.history, i, p.workers[i]);
      } else {
        WorkerTasks(p.shared, p.history, j, p.workers[j]);
      }
    case Call(c, choice) =>
      ClientLocal(p.shared, p.workers, c, p.clients[c], choice);
      ClientWakes(p.shared, p.workers, c, p.clients[c], choice);
      ClientTasks(p.shared, p.history, p.workers, c, p.clients[c], choice);
      NotifiedWakes(p.workers, p.clients[c], choice);
    case _ =>
  }

  lemma PoppedStays(p: Pool, a: Action)
    requires Next(p, a).Some?
    ensures p.history.popped <= Next(p, a).value.history.popped
  {
    hide WorkerStep, ClientStep, Notified;
  }

  lemma {:induction false} TakerHolds(p: Pool, i: nat, s: Schedule)
    requires Good(p) && p.shared.queue != [] && AboutToTake(p, i, p.history.popped, p.shared.queue)
    requires Exec(p, s).Some?
    ensures TakesFront(Exec(p, s).value, i, p.history.popped, p.shared.queue)
  {
    hide Next, AboutToTake, WakeOk, ActiveOk, OrderOk, TasksOk, StopOk, BegunOk, LockOk;
    match s
    case Start =>
    case Then(past, a) =>
      TakerHolds(p, i, past);
      GoodHolds(p, past);
      var q := Exec(p, past).value;
      PoppedStays(q, a);
      if AboutToTake(q, i, p.history.popped, p.shared.queue) {
        SameTaking(q, i, p.history.popped, p.shared.queue);
        TakerKept(q, i, a);
      }
  }

  lemma SameTaking(p: Pool, i: nat, popped: seq<Task>, queue: seq<Task>)
    requires AboutToTake(p, i, popped, queue)
    ensures p.history.popped == popped && p.shared.queue == queue
  {
  }

  /** A worker that evaluates the wait predicate while tasks wait takes the front one, whether or
      not the flag is or becomes set: until it has, it stays there with the queue unchanged, and
      three steps of its own are enough. */
  lemma FrontIsTaken(requested: nat, hardware: nat, clients: nat, s: Schedule, p: Pool, i: nat, later: Schedule)
    requires Reachable(requested, hardware, clients, s, p)
    requires i < |p.workers| && p.workers[i].Testing? && p.shared.queue != [] && Exec(p, later).Some?
    ensures TakesFront(Exec(p, later).value, i, p.history.popped, p.shared.queue)
    ensures var q := Exec(p, Then(Then(Then(Start, Work(i)), Work(i)), Work(i)));
            q.Some? && q.value.workers[i] == Releasing(Some(p.shared.queue[0]))
  {
    hide Good;
    ReachableGood(requested, hardware, clients, s, p);
    InsideLock(p, i);
    TakerHolds(p, i, later);
    assert Exec(p, Start) == Some(p);
    var once := Then(Start, Work(i));
    assert Exec(p, once) == Some(p.(workers := p.workers[i := Deciding]));
    assert p.workers[i := Deciding][i := Popping] == p.workers[i := Popping];
    var twice := Then(once, Work(i));
    assert Exec(p, twice) == Some(p.(workers := p.workers[i := Popping]));
  }

  lemma InsideLock(p: Pool, i: nat)
    requires Good(p) && i < |p.workers| && WorkerHoldsLock(p.workers[i])
    ensures p.shared.lock == Some(WorkerThread(i)) && |p.history.begun| == |p.workers|
  {
  }

  /** notify_one wakes exactly one sleeping worker, any of them, or none if none sleeps. */
  lemma NotifyOne(p: Pool, c: nat, choice: nat)
    requires c < |p.clients| && p.clients[c].SubmitNotify?
    ensures SomeBlocked(p) ==>
              && (Next(p, Call(c, choice)).Some? <==> choice < |p.workers| && p.workers[choice].Blocked?)
              && (Next(p, Call(c, choice)).Some? ==>
                    Next(p, Call(c, choice)).value.workers == p.workers[choice := Acquiring])
    ensures !SomeBlocked(p) ==>
              Next(p, Call(c, choice)).Some? && Next(p, Call(c, choice)).value.workers == p.workers
  {
    hide AfterClient;
  }
}
