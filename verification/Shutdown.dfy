/**
 Whether the Shutdown call that set the flag returns. The flag is set and the notification sent
 without the queue lock, so a worker that has tested the wait predicate but not yet blocked misses
 both; the theorems say exactly when that matters.
 */
module Shutdown {
  import opened Wire
  import opened ThreadPool
  import opened PoolTheorems

  // ----- The wake-up that can be missed

  predicate SomeBlocked(p: Pool) {
    exists i :: 0 <= i < |p.workers| && p.workers[i].Blocked?
  }

  predicate SomeInGap(p: Pool) {
    exists i :: 0 <= i < |p.workers| && p.workers[i].InGap?
  }

  ghost predicate NobodySleeps(p: Pool) {
    p.shared.stopping && forall i :: 0 <= i < |p.workers| ==> !p.workers[i].InGap? && !p.workers[i].Blocked?
  }

  lemma {:induction false} NobodyFallsAsleep(p: Pool, s: Schedule)
    requires NobodySleeps(p) && Exec(p, s).Some?
    ensures NobodySleeps(Exec(p, s).value)
  {
    match s
    case Start =>
    case Then(past, a) => NobodyFallsAsleep(p, past);
  }

  // Some continuation leaves a worker blocked.
  ghost predicate MayBlock(p: Pool) {
    exists s :: Exec(p, s).Some? && SomeBlocked(Exec(p, s).value)
  }

  lemma GapBlocks(p: Pool, i: nat)
    requires Inv(p) && i < |p.workers| && p.workers[i].InGap?
    ensures MayBlock(p)
  {
    var s := Then(Start, Work(i));
    assert Exec(p, Start) == Some(p);
    assert Exec(p, s).value.workers[i].Blocked?;
  }

  lemma NotifyAll(p: Pool, c: nat, choice: nat)
    requires StopOk(p) && c < |p.clients| && p.clients[c].StopNotify?
    ensures Next(p, Call(c, choice)).Some?
    ensures var q := Next(p, Call(c, choice)).value;
            && q.shared.stopping && |q.workers| == |p.workers|
            && |q.clients| == |p.clients| && q.clients[c] == StopJoin(0)
            && forall i :: 0 <= i < |q.workers| ==> q.workers[i] == Woken(p.workers[i])
  {
  }

  /** After the stopping call's notify_all, a worker can still end up blocked exactly when some
      worker was between testing the wait predicate and blocking when the notification came. */
  lemma MissedWakeup(p: Pool, c: nat, choice: nat)
    requires Inv(p) && c < |p.clients| && p.clients[c].StopNotify?
    ensures Next(p, Call(c, choice)).Some?
    ensures MayBlock(Next(p, Call(c, choice)).value) <==> SomeInGap(p)
  {
    hide Next, LockOk, ActiveOk, OrderOk, TasksOk, StopOk, BegunOk;
    NotifyAll(p, c, choice);
    InvKept(p, Call(c, choice));
    var q := Next(p, Call(c, choice)).value;
    if SomeInGap(p) {
      var i :| 0 <= i < |p.workers| && p.workers[i].InGap?;
      GapBlocks(q, i);
    } else {
      forall s | Exec(q, s).Some?
        ensures !SomeBlocked(Exec(q, s).value)
      {
        NobodyFallsAsleep(q, s);
      }
    }
  }

  // ----- A worker nobody wakes

  // Nobody is left to wake worker j: no call is about to notify, and the stopping call, if any,
  // waits to join it.
  ghost predicate Stuck(p: Pool, j: nat) {
    && j < |p.workers| && p.workers[j].Blocked? && p.shared.stopping && !p.history.stopped
    && forall c :: 0 <= c < |p.clients| ==> WontWake(p.clients[c], j)
  }

  predicate WontWake(k: Client, j: nat) {
    match k
    case SubmitPush(_) => false
    case SubmitUnlock => false
    case SubmitNotify => false
    case StopJoin(next) => next <= j
    case _ => !IsStopper(k)
  }

  predicate NoSpuriousWake(s: Schedule) {
    s.Start? || (NoSpuriousWake(s.past) && !s.action.SpuriousWake?)
  }

  lemma ClientWontWake(s: Shared, ws: seq<Worker>, c: nat, k: Client, choice: nat, j: nat)
    requires WontWake(k, j) && s.stopping && j < |ws| && ws[j].Blocked?
    requires ClientStep(s, ws, c, k, choice).Some?
    ensures WontWake(ClientStep(s, ws, c, k, choice).value.pc, j) && Notified(ws, k, choice) == ws
    ensures !k.StopUnlock?
  {
  }

  lemma StuckKept(p: Pool, j: nat, a: Action)
    requires Stuck(p, j) && !a.SpuriousWake? && Next(p, a).Some?
    ensures Stuck(Next(p, a).value, j)
  {
    hide ClientStep, WontWake, Notified;
    match a
    case Work(i) => WorkerLocal(p.shared, i, p.workers[i]);
    case Call(c, choice) =>
      ClientLocal(p.shared, p.workers, c, p.clients[c], choice);
      ClientWontWake(p.shared, p.workers, c, p.clients[c], choice, j);
    case BeginSubmit(_) => BeginningWontWake(p.history.nextTask, j);
    case BeginShutdown(_) => BeginningWontWake(p.history.nextTask, j);
    case SpuriousWake(_) =>
  }

  lemma BeginningWontWake(t: Task, j: nat)
    ensures WontWake(SubmitCheck(t), j) && WontWake(StopExchange, j)
  {
  }

  lemma {:induction false} StuckForever(p: Pool, j: nat, s: Schedule)
    requires Stuck(p, j) && NoSpuriousWake(s) && Exec(p, s).Some?
    ensures Stuck(Exec(p, s).value, j)
  {
    hide Next, Stuck;
    match s
    case Start =>
    case Then(past, a) =>
      StuckForever(p, j, past);
      StuckKept(Exec(p, past).value, j, a);
  }

  // ----- When the stopping call can return

  // Steps a worker still takes once the flag is set, if it does not sleep.
  function WorkerLeft(w: Worker): nat {
    match w
    case Exited => 0
    case AtLoop => 1
    case Leaving => 1
    case Ran(_) => 2
    case Running(_) => 3
    case Counted(_) => 4
    case Carrying(_) => 5
    case Releasing(_) => 6
    case Popping => 7
    case Deciding => 8
    case Testing => 9
    case Acquiring => 10
    case InGap => 11
    case Blocked => 11
  }

  // Steps until a client releases the lock, or until the stopping call, joining n workers, returns.
  function ClientLeft(n: nat, k: Client): nat {
    match k
    case SubmitRecheck(_) => 2
    case SubmitPush(_) => 2
    case SubmitReject => 1
    case SubmitUnlock => 1
    case StopJoin(next) => if next <= n then n - next + 4 else 4
    case StopLock => 3
    case StopClear => 2
    case StopUnlock => 1
    case _ => 0
  }

  function WorkersLeft(ws: seq<Worker>): nat {
    if ws == [] then 0 else WorkersLeft(ws[..|ws| - 1]) + WorkerLeft(ws[|ws| - 1])
  }

  function ClientsLeft(n: nat, ks: seq<Client>): nat {
    if ks == [] then 0 else ClientsLeft(n, ks[..|ks| - 1]) + ClientLeft(n, ks[|ks| - 1])
  }

  function Rank(p: Pool): nat {
    WorkersLeft(p.workers) + ClientsLeft(|p.workers|, p.clients)
  }

  lemma {:induction false} WorkersLeftUpdate(ws: seq<Worker>, i: nat, w: Worker)
    requires i < |ws|
    ensures WorkersLeft(ws[i := w]) + WorkerLeft(ws[i]) == WorkersLeft(ws) + WorkerLeft(w)
  {
    hide WorkerLeft;
    var n := |ws| - 1;
    if i == n {
      assert ws[i := w][..n] == ws[..n];
    } else {
      assert ws[i := w][..n] == ws[..n][i := w];
      WorkersLeftUpdate(ws[..n], i, w);
    }
  }

  lemma {:induction false} ClientsLeftUpdate(n: nat, ks: seq<Client>, c: nat, k: Client)
    requires c < |ks|
    ensures ClientsLeft(n, ks[c := k]) + ClientLeft(n, ks[c]) == ClientsLeft(n, ks) + ClientLeft(n, k)
  {
    hide ClientLeft;
    var m := |ks| - 1;
    if c == m {
      assert ks[c := k][..m] == ks[..m];
    } else {
      assert ks[c := k][..m] == ks[..m][c := k];
      ClientsLeftUpdate(n, ks[..m], c, k);
    }
  }

  lemma WorkerAdvances(s: Shared, i: nat, w: Worker)
    requires s.stopping && !w.InGap? && !w.Blocked? && !w.Exited?
    requires WorkerHoldsLock(w) || s.lock == None
    ensures WorkerStep(s, i, w).Some? && WorkerLeft(WorkerStep(s, i, w).value.pc) < WorkerLeft(w)
  {
  }

  lemma ClientAdvances(s: Shared, ws: seq<Worker>, c: nat, k: Client)
    requires s.stopping
    requires ClientHoldsLock(k)
          || (s.lock == None && AllExited(ws) && (k.StopLock? || (k.StopJoin? && k.next <= |ws|)))
    ensures ClientStep(s, ws, c, k, 0).Some? && Notified(ws, k, 0) == ws
    ensures ClientLeft(|ws|, ClientStep(s, ws, c, k, 0).value.pc) < ClientLeft(|ws|, k)
  {
  }

  lemma WorkLowersRank(p: Pool, i: nat)
    requires BegunOk(p) && NobodySleeps(p) && i < |p.workers| && !p.workers[i].Exited?
    requires WorkerHoldsLock(p.workers[i]) || p.shared.lock == None
    ensures Next(p, Work(i)).Some? && Rank(Next(p, Work(i)).value) < Rank(p)
  {
    hide WorkerStep, AfterWorker, WorkerLeft, WorkersLeft, ClientsLeft;
    WorkerAdvances(p.shared, i, p.workers[i]);
    WorkersLeftUpdate(p.workers, i, WorkerStep(p.shared, i, p.workers[i]).value.pc);
  }

  lemma CallLowersRank(p: Pool, c: nat)
    requires p.shared.stopping && c < |p.clients| && StopperOk(p.workers, p.history.cleared, p.clients[c])
    requires ClientHoldsLock(p.clients[c])
          || (p.shared.lock == None && AllExited(p.workers) && (p.clients[c].StopLock? || p.clients[c].StopJoin?))
    ensures Next(p, Call(c, 0)).Some? && Rank(Next(p, Call(c, 0)).value) < Rank(p)
  {
    hide ClientStep, AfterClient, Notified, ClientLeft, WorkersLeft, ClientsLeft;
    ClientAdvances(p.shared, p.workers, c, p.clients[c]);
    ClientsLeftUpdate(|p.workers|, p.clients, c, ClientStep(p.shared, p.workers, c, p.clients[c], 0).value.pc);
  }

  // Client c is the stopping call, past its notification, or that call has returned.
  ghost predicate Stopping(p: Pool, c: nat) {
    c < |p.clients| && (p.history.stopped || (IsStopper(p.clients[c]) && !p.clients[c].StopNotify?))
  }

  // Whoever holds the lock can move; if nobody does, a worker can; if all have left, the stopper.
  lemma SomeoneAdvances(p: Pool, c: nat) returns (a: Action)
    requires Inv(p) && NobodySleeps(p) && Stopping(p, c) && !p.history.stopped
    ensures !a.SpuriousWake? && Next(p, a).Some? && Rank(Next(p, a).value) < Rank(p)
  {
    hide Next, Rank, ActiveOk, OrderOk, TasksOk, BegunOk, StopperOk;
    match p.shared.lock
    case Some(WorkerThread(i)) =>
      WorkLowersRank(p, i);
      a := Work(i);
    case Some(ClientThread(d)) =>
      CallLowersRank(p, d);
      a := Call(d, 0);
    case None =>
      if i :| 0 <= i < |p.workers| && !p.workers[i].Exited? {
        WorkLowersRank(p, i);
        a := Work(i);
      } else {
        CallLowersRank(p, c);
        a := Call(c, 0);
      }
  }

  lemma StopperGoesOn(s: Shared, ws: seq<Worker>, c: nat, k: Client, choice: nat)
    requires IsStopper(k) && !k.StopNotify? && ClientStep(s, ws, c, k, choice).Some?
    ensures var next := ClientStep(s, ws, c, k, choice).value.pc;
            k.StopUnlock? || (IsStopper(next) && !next.StopNotify?)
  {
  }

  lemma StillStopping(p: Pool, c: nat, a: Action)
    requires Stopping(p, c) && Next(p, a).Some?
    ensures Stopping(Next(p, a).value, c)
  {
    hide WorkerStep, ClientStep, AfterWorker, AfterClient, Notified;
    match a
    case Work(i) => WorkerFrame(p.shared, p.history, i, p.workers[i]);
    case Call(d, choice) =>
      ClientStops(p.shared, p.history, p.workers, d, p.clients[d], choice);
      if d == c && !p.history.stopped {
        StopperGoesOn(p.shared, p.workers, c, p.clients[c], choice);
      }
    case _ =>
  }

  lemma {:induction false} StoppingHolds(p: Pool, c: nat, s: Schedule)
    requires Stopping(p, c) && Exec(p, s).Some?
    ensures Stopping(Exec(p, s).value, c)
  {
    hide Next, Stopping;
    match s
    case Start =>
    case Then(past, a) =>
      StoppingHolds(p, c, past);
      StillStopping(Exec(p, past).value, c, a);
  }

  function Continue(first: Schedule, rest: Schedule): Schedule {
    match rest
    case Start => first
    case Then(past, a) => Then(Continue(first, past), a)
  }

  lemma {:induction false} ExecContinue(p: Pool, first: Schedule, rest: Schedule)
    requires Exec(p, first).Some?
    ensures Exec(p, Continue(first, rest)) == Exec(Exec(p, first).value, rest)
    ensures NoSpuriousWake(first) && NoSpuriousWake(rest) ==> NoSpuriousWake(Continue(first, rest))
  {
    hide Next;
    if rest.Then? {
      ExecContinue(p, first, rest.past);
    }
  }

  /** If no worker sleeps, the stopping call can still return. */
  lemma {:induction false} CanReturn(p: Pool, c: nat) returns (later: Schedule)
    requires Inv(p) && NobodySleeps(p) && Stopping(p, c)
    ensures NoSpuriousWake(later) && Exec(p, later).Some? && Exec(p, later).value.history.stopped
    decreases Rank(p)
  {
    hide Next, Rank, Inv, NobodySleeps, Stopping;
    if p.history.stopped {
      later := Start;
    } else {
      var a := SomeoneAdvances(p, c);
      var q := Next(p, a).value;
      var first := Then(Start, a);
      assert Exec(p, Start) == Some(p) && NoSpuriousWake(first);
      InvKept(p, a);
      NobodyFallsAsleep(p, first);
      StillStopping(p, c, a);
      var rest := CanReturn(q, c);
      ExecContinue(p, first, rest);
      later := Continue(first, rest);
    }
  }

  // ----- When it can fail to return

  // The stopping call will not return, unless the condition variable wakes a worker spuriously.
  ghost predicate Hangs(p: Pool) {
    forall later :: NoSpuriousWake(later) && Exec(p, later).Some? ==> !Exec(p, later).value.history.stopped
  }

  ghost predicate MayHang(p: Pool) {
    exists s :: NoSpuriousWake(s) && Exec(p, s).Some? && Hangs(Exec(p, s).value)
  }

  lemma StuckHangs(p: Pool, j: nat)
    requires Stuck(p, j)
    ensures Hangs(p)
  {
    forall later | NoSpuriousWake(later) && Exec(p, later).Some?
      ensures !Exec(p, later).value.history.stopped
    {
      StuckForever(p, j, later);
    }
  }

  // Letting the first n clients deliver their pending notifications.
  function Drain(ks: seq<Client>, n: nat): Schedule
    requires n <= |ks|
  {
    if n == 0 then Start
    else if ks[n - 1].SubmitNotify? then Then(Drain(ks, n - 1), Call(n - 1, 0))
    else Drain(ks, n - 1)
  }

  function Drained(ks: seq<Client>, n: nat): (r: seq<Client>)
    requires n <= |ks|
    ensures |r| == |ks|
  {
    seq(|ks|, c requires 0 <= c < |ks| => if c < n && ks[c].SubmitNotify? then Idle else ks[c])
  }

  // While nobody is blocked, a notification has no effect.
  lemma {:induction false} DrainRuns(p: Pool, n: nat)
    requires n <= |p.clients| && !SomeBlocked(p)
    ensures NoSpuriousWake(Drain(p.clients, n))
    ensures Exec(p, Drain(p.clients, n)) == Some(p.(clients := Drained(p.clients, n)))
  {
    if n == 0 {
      assert Drained(p.clients, 0) == p.clients;
    } else {
      DrainRuns(p, n - 1);
      if p.clients[n - 1].SubmitNotify? {
        NotifyInVain(p.(clients := Drained(p.clients, n - 1)), n - 1);
        assert Drained(p.clients, n) == Drained(p.clients, n - 1)[n - 1 := Idle];
      } else {
        assert Drained(p.clients, n) == Drained(p.clients, n - 1);
      }
    }
  }

  lemma NotifyInVain(p: Pool, c: nat)
    requires c < |p.clients| && p.clients[c].SubmitNotify? && !SomeBlocked(p)
    ensures Next(p, Call(c, 0)) == Some(p.(clients := p.clients[c := Idle]))
  {
    assert Notified(p.workers, SubmitNotify, 0) == p.workers;
  }

  // The worker in the gap holds the lock, so no call is between its push and its notification.
  lemma DrainedWontWake(p: Pool, c: nat, j: nat)
    requires LockOk(p) && StopOk(p) && j < |p.workers| && p.workers[j].InGap?
    requires c < |p.clients| && p.clients[c] == StopJoin(0)
    ensures forall d :: 0 <= d < |p.clients| ==> WontWake(Drained(p.clients, |p.clients|)[d], j)
  {
    forall d | 0 <= d < |p.clients|
      ensures WontWake(Drained(p.clients, |p.clients|)[d], j)
    {
      assert !ClientHoldsLock(p.clients[d]);
    }
  }

  lemma GapHangs(p: Pool, c: nat, j: nat)
    requires Inv(p) && !SomeBlocked(p) && j < |p.workers| && p.workers[j].InGap?
    requires c < |p.clients| && p.clients[c] == StopJoin(0)
    ensures MayHang(p)
  {
    var n := |p.clients|;
    DrainRuns(p, n);
    DrainedWontWake(p, c, j);
    var drained := p.(clients := Drained(p.clients, n));
    var s := Then(Drain(p.clients, n), Work(j));
    assert Exec(p, s) == Next(drained, Work(j));
    StuckHangs(Exec(p, s).value, j);
  }

  lemma NoGapNoHang(p: Pool, c: nat)
    requires Inv(p) && NobodySleeps(p) && Stopping(p, c)
    ensures !MayHang(p)
  {
    hide Next, Inv, NobodySleeps, Stopping;
    forall s | NoSpuriousWake(s) && Exec(p, s).Some?
      ensures !Hangs(Exec(p, s).value)
    {
      InvHolds(p, s);
      NobodyFallsAsleep(p, s);
      StoppingHolds(p, c, s);
      var later := CanReturn(Exec(p, s).value, c);
    }
  }

  /** The stopping call can come to hang after its notify_all exactly when some worker was between
      testing the wait predicate and blocking at that moment; otherwise every continuation can
      still be extended to one in which it returns. */
  lemma ShutdownMayHangIff(p: Pool, c: nat, choice: nat)
    requires Inv(p) && c < |p.clients| && p.clients[c].StopNotify?
    ensures Next(p, Call(c, choice)).Some?
    ensures MayHang(Next(p, Call(c, choice)).value) <==> SomeInGap(p)
  {
    hide Next, Inv, StopOk;
    assert StopOk(p) by { InvParts(p); }
    NotifyAll(p, c, choice);
    InvKept(p, Call(c, choice));
    var q := Next(p, Call(c, choice)).value;
    if SomeInGap(p) {
      var j :| 0 <= j < |p.workers| && p.workers[j].InGap?;
      GapHangs(q, c, j);
    } else {
      NoGapNoHang(q, c);
    }
  }

  lemma InvParts(p: Pool)
    requires Inv(p)
    ensures LockOk(p) && StopOk(p)
  {
  }

  // Shutting down at once: nobody is in the gap yet.
  const PROMPT: Schedule := Then(Then(Then(Start, BeginShutdown(0)), Call(0, 0)), Call(0, 0))

  /** In every pool there is a run in which Shutdown returns. */
  lemma ShutdownCanReturn(requested: nat, hardware: nat, clients: nat) returns (s: Schedule, p: Pool)
    requires clients > 0
    ensures Reachable(requested, hardware, clients, s, p) && NoSpuriousWake(s) && p.history.stopped
  {
    var p0 := Initial(WorkerCount(requested, hardware), clients);
    var q := PromptState(WorkerCount(requested, hardware), clients);
    InitialInv(WorkerCount(requested, hardware), clients);
    InvHolds(p0, PROMPT);
    var later := CanReturn(q, 0);
    ExecContinue(p0, PROMPT, later);
    s := Continue(PROMPT, later);
    p := Exec(p0, s).value;
  }

  lemma PromptState(workers: nat, clients: nat) returns (q: Pool)
    requires clients > 0
    ensures Exec(Initial(workers, clients), PROMPT) == Some(q) && NobodySleeps(q) && Stopping(q, 0)
    ensures NoSpuriousWake(PROMPT)
  {
    var p := Initial(workers, clients);
    var s1 := Then(Start, BeginShutdown(0));
    assert Exec(p, Start) == Some(p);
    var p1 := p.(clients := p.clients[0 := StopExchange]);
    assert Exec(p, s1) == Some(p1);
    var s2 := Then(s1, Call(0, 0));
    var p2 := p1.(clients := p1.clients[0 := StopNotify], shared := p.shared.(stopping := true));
    assert Exec(p, s2) == Some(p2);
    q := Next(p2, Call(0, 0)).value;
    assert Exec(p, PROMPT) == Some(q);
  }

  // A worker is stopped in the gap ...
  const GAP: Schedule := Then(Then(Then(Start, Work(0)), Work(0)), Work(0))

  // ... while the flag is set and the notification passes.
  const HANG: Schedule := Then(Then(Then(Then(GAP, BeginShutdown(0)), Call(0, 0)), Call(0, 0)), Work(0))

  function InTheGap(p: Pool): Pool
    requires |p.workers| > 0
  {
    p.(workers := p.workers[0 := InGap], shared := p.shared.(lock := Some(WorkerThread(0))))
  }

  lemma GapReached(workers: nat, clients: nat)
    requires workers > 0
    ensures Exec(Initial(workers, clients), GAP) == Some(InTheGap(Initial(workers, clients)))
  {
    var p := Initial(workers, clients);
    var held := p.shared.(lock := Some(WorkerThread(0)));
    var s1 := Then(Start, Work(0));
    assert Exec(p, Start) == Some(p);
    assert Exec(p, s1) == Some(p.(workers := p.workers[0 := Acquiring]));
    assert p.workers[0 := Acquiring][0 := Testing] == p.workers[0 := Testing];
    assert Exec(p, Then(s1, Work(0))) == Some(p.(workers := p.workers[0 := Testing], shared := held));
    assert p.workers[0 := Testing][0 := InGap] == p.workers[0 := InGap];
  }

  lemma HangIsStuck(workers: nat, clients: nat)
    requires workers > 0 && clients > 0
    ensures Exec(Initial(workers, clients), HANG).Some? && Stuck(Exec(Initial(workers, clients), HANG).value, 0)
  {
    GapReached(workers, clients);
    var p := Exec(Initial(workers, clients), GAP).value;
    var s1 := Then(GAP, BeginShutdown(0));
    var p1 := p.(clients := p.clients[0 := StopExchange]);
    assert Exec(Initial(workers, clients), s1) == Some(p1);
    var s2 := Then(s1, Call(0, 0));
    var p2 := p.(clients := p1.clients[0 := StopNotify], shared := p.shared.(stopping := true));
    assert Exec(Initial(workers, clients), s2) == Some(p2);
    var s3 := Then(s2, Call(0, 0));
    var p3 := p2.(clients := p2.clients[0 := StopJoin(0)]);
    assert Notified(p.workers, StopNotify, 0) == p.workers;
    assert Exec(Initial(workers, clients), s3) == Some(p3);
    var p4 := p3.(workers := p.workers[0 := Blocked], shared := p2.shared.(lock := None));
    assert Exec(Initial(workers, clients), HANG) == Some(p4);
  }

  /** Shutdown need not return: in every pool there is a run after which, unless the condition
      variable wakes a worker spuriously, the stopping call never returns. */
  lemma ShutdownCanHang(requested: nat, hardware: nat, clients: nat) returns (p: Pool)
    requires clients > 0
    ensures Reachable(requested, hardware, clients, HANG, p) && p.shared.stopping
    ensures Hangs(p)
  {
    hide Next;
    var n := WorkerCount(requested, hardware);
    HangIsStuck(n, clients);
    p := Exec(Initial(n, clients), HANG).value;
    StuckHangs(p, 0);
  }
}
