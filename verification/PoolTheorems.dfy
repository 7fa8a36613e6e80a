/**
 Safety of the thread pool over all interleavings.
 */
module PoolTheorems {
  import opened Wire
  import opened Codec
  import opened ThreadPool

  // ----- Counting over workers

  lemma {:induction false} CountActiveUpdate(ws: seq<Worker>, i: nat, w: Worker)
    requires i < |ws|
    ensures CountActive(ws[i := w]) + (if IsActive(ws[i]) then 1 else 0)
         == CountActive(ws) + (if IsActive(w) then 1 else 0)
  {
    var n := |ws| - 1;
    if i == n {
      assert ws[i := w][..n] == ws[..n];
    } else {
      assert ws[i := w][..n] == ws[..n][i := w];
      CountActiveUpdate(ws[..n], i, w);
    }
  }

  lemma MultisetSwap(a: multiset<Task>, b: multiset<Task>, c: multiset<Task>, d: multiset<Task>, e: multiset<Task>)
    requires a + b == c + d
    ensures (a + e) + b == (c + e) + d
  {
    assert (a + e) + b == (a + b) + e;
    assert (c + e) + d == (c + d) + e;
  }

  lemma {:induction false} HeldUpdate(ws: seq<Worker>, i: nat, w: Worker)
    requires i < |ws|
    ensures Held(ws[i := w]) + Bag(InHand(ws[i])) == Held(ws) + Bag(InHand(w))
  {
    hide InHand, Bag;
    var n := |ws| - 1;
    if i == n {
      assert ws[i := w][..n] == ws[..n];
    } else {
      assert ws[i := w][..n] == ws[..n][i := w];
      HeldUpdate(ws[..n], i, w);
      MultisetSwap(Held(ws[..n][i := w]), Bag(InHand(ws[i])), Held(ws[..n]), Bag(InHand(w)), Bag(InHand(ws[n])));
    }
  }

  // `after` differs from `before` only in that some blocked workers have been woken.
  ghost predicate Waking(before: seq<Worker>, after: seq<Worker>) {
    && |after| == |before|
    && forall i :: 0 <= i < |after| ==> after[i] == before[i] || after[i] == Woken(before[i])
  }

  lemma {:induction false} WakingKeeps(before: seq<Worker>, after: seq<Worker>)
    requires Waking(before, after)
    ensures CountActive(after) == CountActive(before) && Held(after) == Held(before)
  {
    if before != [] {
      WakingKeeps(before[..|before| - 1], after[..|after| - 1]);
    }
  }

  lemma {:induction false} ExitedHoldNothing(ws: seq<Worker>)
    requires AllExited(ws)
    ensures CountActive(ws) == 0 && Held(ws) == multiset{}
  {
    if ws != [] {
      ExitedHoldNothing(ws[..|ws| - 1]);
    }
  }

  // ----- The invariant, in independent parts

  // The lock is held by exactly the thread that is inside it.
  ghost predicate LockOk(p: Pool) {
    && (forall i :: 0 <= i < |p.workers| ==>
          (WorkerHoldsLock(p.workers[i]) <==> p.shared.lock == Some(WorkerThread(i))))
    && (forall c :: 0 <= c < |p.clients| ==>
          (ClientHoldsLock(p.clients[c]) <==> p.shared.lock == Some(ClientThread(c))))
    && match p.shared.lock
       case None => true
       case Some(WorkerThread(i)) => i < |p.workers|
       case Some(ClientThread(c)) => c < |p.clients|
  }

  ghost predicate ActiveOk(p: Pool) {
    p.shared.active == CountActive(p.workers)
  }

  // First in, first out: what was pushed is what was popped, then what was discarded or waits.
  ghost predicate OrderOk(p: Pool) {
    && p.history.pushed == p.history.popped + p.history.discarded + p.shared.queue
    && multiset(p.history.popped) == multiset(p.history.finished) + Held(p.workers)
  }

  // A Submit call's task is new, and no other call has it.
  ghost predicate PendingOk(p: Pool, c: nat)
    requires c < |p.clients|
  {
    var task := Pending(p.clients[c]);
    task.Some? ==>
      && task.value < p.history.nextTask && task.value !in p.history.pushed
      && forall d :: 0 <= d < |p.clients| && d != c ==> Pending(p.clients[d]) != task
  }

  ghost predicate TasksOk(p: Pool) {
    && NoDuplicates(p.history.pushed)
    && (forall t <- p.history.pushed :: t < p.history.nextTask)
    && (forall c :: 0 <= c < |p.clients| ==> PendingOk(p, c))
  }

  predicate StopperOk(workers: seq<Worker>, cleared: bool, k: Client) {
    match k
    case StopNotify => !cleared
    case StopJoin(next) => ExitedUpTo(workers, next) && !cleared
    case StopLock => AllExited(workers) && !cleared
    case StopClear => AllExited(workers) && !cleared
    case StopUnlock => AllExited(workers) && cleared
    case SubmitPush(_) => !cleared
    case _ => true
  }

  ghost predicate StopOk(p: Pool) {
    var h := p.history;
    && (h.stopped ==> h.cleared)
    && (h.cleared ==> p.shared.stopping && p.shared.queue == [] && AllExited(p.workers))
    && (!h.cleared ==> h.discarded == [])
    && (forall c :: 0 <= c < |p.clients| ==> StopperOk(p.workers, h.cleared, p.clients[c]))
    && (forall c :: 0 <= c < |p.clients| && IsStopper(p.clients[c]) ==> p.shared.stopping && !h.stopped)
    && (forall c, d :: 0 <= c < d < |p.clients| ==> !(IsStopper(p.clients[c]) && IsStopper(p.clients[d])))
  }

  // Past the loop test and not yet counted: the worker may still begin a task.
  function MayBegin(w: Worker): nat {
    if w.AtLoop? || w.Leaving? || w.Exited? || IsActive(w) then 0 else 1
  }

  ghost predicate BegunOk(p: Pool) {
    && |p.history.begun| == |p.workers|
    && (forall i :: 0 <= i < |p.workers| ==> p.history.begun[i] + MayBegin(p.workers[i]) <= 1)
    && (!p.shared.stopping ==> forall i :: 0 <= i < |p.workers| ==> p.history.begun[i] == 0)
  }

  ghost predicate Inv(p: Pool) {
    LockOk(p) && ActiveOk(p) && OrderOk(p) && TasksOk(p) && StopOk(p) && BegunOk(p)
  }

  // ----- What a step does locally

  lemma WorkerLocal(s: Shared, i: nat, w: Worker)
    requires WorkerStep(s, i, w).Some?
    ensures var r := WorkerStep(s, i, w).value;
            && (WorkerHoldsLock(w) && WorkerHoldsLock(r.pc) ==> r.shared.lock == s.lock)
            && (!WorkerHoldsLock(w) && !WorkerHoldsLock(r.pc) ==> r.shared.lock == s.lock)
            && (!WorkerHoldsLock(w) && WorkerHoldsLock(r.pc) ==>
                  s.lock == None && r.shared.lock == Some(WorkerThread(i)))
            && (WorkerHoldsLock(w) && !WorkerHoldsLock(r.pc) ==> r.shared.lock == None)
            && r.shared.active + (if IsActive(w) then 1 else 0) == s.active + (if IsActive(r.pc) then 1 else 0)
            && r.shared.stopping == s.stopping && !w.Exited?
  {
  }

  lemma ClientLocal(s: Shared, ws: seq<Worker>, c: nat, k: Client, choice: nat)
    requires ClientStep(s, ws, c, k, choice).Some?
    ensures var r := ClientStep(s, ws, c, k, choice).value;
            && (ClientHoldsLock(k) && ClientHoldsLock(r.pc) ==> r.shared.lock == s.lock)
            && (!ClientHoldsLock(k) && !ClientHoldsLock(r.pc) ==> r.shared.lock == s.lock)
            && (!ClientHoldsLock(k) && ClientHoldsLock(r.pc) ==>
                  s.lock == None && r.shared.lock == Some(ClientThread(c)))
            && (ClientHoldsLock(k) && !ClientHoldsLock(r.pc) ==> r.shared.lock == None)
            && r.shared.active == s.active
            && r.shared.stopping == (s.stopping || k.StopExchange?)
  {
  }

  lemma NotifiedWakes(ws: seq<Worker>, k: Client, choice: nat)
    ensures Waking(ws, Notified(ws, k, choice))
  {
  }

  lemma WorkerFrame(s: Shared, h: History, i: nat, w: Worker)
    requires WorkerStep(s, i, w).Some? && i < |h.begun|
    ensures var r := WorkerStep(s, i, w).value;
            var g := AfterWorker(h, s, i, w);
            && g.pushed == h.pushed && g.discarded == h.discarded && g.nextTask == h.nextTask
            && g.cleared == h.cleared && g.stopped == h.stopped
            && (r.shared.queue == s.queue || w.Popping?)
  {
  }

  // A task moves from the queue to the worker's hand, or from its hand to the finished ones.
  lemma WorkerTasks(s: Shared, h: History, i: nat, w: Worker)
    requires WorkerStep(s, i, w).Some? && i < |h.begun|
    ensures var r := WorkerStep(s, i, w).value;
            var g := AfterWorker(h, s, i, w);
            if w.Popping? && s.queue != [] then
              && s.queue == [s.queue[0]] + r.shared.queue
              && g.popped == h.popped + [s.queue[0]] && g.finished == h.finished
              && InHand(w) == None && InHand(r.pc) == Some(s.queue[0])
            else
              && r.shared.queue == s.queue && g.popped == h.popped
              && if w.Running?
                 then g.finished == h.finished + [w.task] && InHand(w) == Some(w.task) && InHand(r.pc) == None
                 else g.finished == h.finished && InHand(w) == InHand(r.pc)
  {
  }

  lemma WorkerBegins(s: Shared, h: History, i: nat, w: Worker)
    requires WorkerStep(s, i, w).Some? && i < |h.begun|
    ensures var r := WorkerStep(s, i, w).value;
            var g := AfterWorker(h, s, i, w);
            && |g.begun| == |h.begun| && g.begun == h.begun[i := g.begun[i]]
            && (s.stopping ==> g.begun[i] + MayBegin(r.pc) <= h.begun[i] + MayBegin(w))
            && (!s.stopping ==> g.begun == h.begun)
  {
  }

  lemma ClientTasks(s: Shared, h: History, ws: seq<Worker>, c: nat, k: Client, choice: nat)
    requires ClientStep(s, ws, c, k, choice).Some?
    ensures var r := ClientStep(s, ws, c, k, choice).value;
            var g := AfterClient(h, s, k);
            && g.popped == h.popped && g.finished == h.finished && g.nextTask == h.nextTask && g.begun == h.begun
            && if k.SubmitPush?
               then g.pushed == h.pushed + [k.task] && r.shared.queue == s.queue + [k.task]
                    && g.discarded == h.discarded && Pending(r.pc) == None
               else g.pushed == h.pushed && g.discarded + r.shared.queue == h.discarded + s.queue
                    && (Pending(r.pc) == None || Pending(r.pc) == Pending(k))
  {
  }

  lemma ClientStops(s: Shared, h: History, ws: seq<Worker>, c: nat, k: Client, choice: nat)
    requires ClientStep(s, ws, c, k, choice).Some?
    ensures var r := ClientStep(s, ws, c, k, choice).value;
            var g := AfterClient(h, s, k);
            && g.cleared == (h.cleared || k.StopClear?) && g.stopped == (h.stopped || k.StopUnlock?)
            && (IsStopper(r.pc) ==> IsStopper(k) || (k.StopExchange? && !s.stopping))
            && (k.StopUnlock? ==> !IsStopper(r.pc))
            && (k.StopClear? ==> r.shared.queue == [])
            && (!k.StopClear? ==> g.discarded == h.discarded)
            && (!k.StopClear? && !k.SubmitPush? ==> r.shared.queue == s.queue)
  {
  }

  // The stopping call joins the workers in order and clears the queue only after the last.
  lemma ClientJoins(s: Shared, h: History, ws: seq<Worker>, c: nat, k: Client, choice: nat)
    requires ClientStep(s, ws, c, k, choice).Some?
    requires StopperOk(ws, h.cleared, k) && (h.cleared ==> s.stopping)
    ensures StopperOk(ws, h.cleared || k.StopClear?, ClientStep(s, ws, c, k, choice).value.pc)
  {
  }

  // ----- Each part of the invariant is kept

  lemma LockKept(p: Pool, a: Action)
    requires LockOk(p) && Next(p, a).Some?
    ensures LockOk(Next(p, a).value)
  {
    hide WorkerStep, ClientStep, AfterWorker, AfterClient, Notified;
    match a
    case Work(i) => WorkerLocal(p.shared, i, p.workers[i]);
    case Call(c, choice) =>
      ClientLocal(p.shared, p.workers, c, p.clients[c], choice);
      NotifiedWakes(p.workers, p.clients[c], choice);
    case _ =>
  }

  lemma ActiveKept(p: Pool, a: Action)
    requires ActiveOk(p) && Next(p, a).Some?
    ensures ActiveOk(Next(p, a).value)
  {
    hide WorkerStep, ClientStep, AfterWorker, AfterClient, Notified, IsActive;
    match a
    case Work(i) =>
      WorkerLocal(p.shared, i, p.workers[i]);
      CountActiveUpdate(p.workers, i, WorkerStep(p.shared, i, p.workers[i]).value.pc);
    case SpuriousWake(i) =>
      WakingKeeps(p.workers, p.workers[i := Acquiring]);
    case Call(c, choice) =>
      ClientLocal(p.shared, p.workers, c, p.clients[c], choice);
      NotifiedWakes(p.workers, p.clients[c], choice);
      WakingKeeps(p.workers, Notified(p.workers, p.clients[c], choice));
    case _ =>
  }

  lemma Cancel(a: multiset<Task>, b: multiset<Task>, c: multiset<Task>)
    requires a + c == b + c
    ensures a == b
  {
    forall t: Task
      ensures a[t] == b[t]
    {
      assert (a + c)[t] == a[t] + c[t];
      assert (b + c)[t] == b[t] + c[t];
    }
  }

  // Popping moves a task into hand, finishing moves it out of hand.
  lemma HandBalance(popped: seq<Task>, finished: seq<Task>, held: multiset<Task>, after: multiset<Task>,
                    before: Option<Task>, now: Option<Task>)
    requires multiset(popped) == multiset(finished) + held
    requires after + Bag(before) == held + Bag(now)
    ensures before == now ==> after == held
    ensures before == None && now.Some? ==> multiset(popped + [now.value]) == multiset(finished) + after
    ensures before.Some? && now == None ==> multiset(popped) == multiset(finished + [before.value]) + after
  {
    if before == now {
      Cancel(after, held, Bag(now));
    } else if before == None {
      assert after == held + Bag(now);
    } else if now == None {
      assert after + Bag(before) == held;
    }
  }

  lemma OrderKept(p: Pool, a: Action)
    requires OrderOk(p) && StopOk(p) && Next(p, a).Some?
    ensures OrderOk(Next(p, a).value)
  {
    hide WorkerStep, ClientStep, AfterWorker, AfterClient, Notified, InHand, IsStopper, StopperOk, Bag, Held;
    match a
    case Work(i) =>
      var w := p.workers[i];
      var r := WorkerStep(p.shared, i, w).value;
      WorkerLocal(p.shared, i, w);
      WorkerFrame(p.shared, p.history, i, w);
      WorkerTasks(p.shared, p.history, i, w);
      HeldUpdate(p.workers, i, r.pc);
      HandBalance(p.history.popped, p.history.finished, Held(p.workers), Held(p.workers[i := r.pc]),
                  InHand(w), InHand(r.pc));
      assert !p.history.cleared;
      if w.Popping? && p.shared.queue != [] {
        var popped, t := p.history.popped, p.shared.queue[0];
        assert popped + [] + p.shared.queue == popped + [t] + [] + r.shared.queue;
      }
    case SpuriousWake(i) =>
      WakingKeeps(p.workers, p.workers[i := Acquiring]);
    case Call(c, choice) =>
      var h, s := p.history, p.shared;
      ClientTasks(s, h, p.workers, c, p.clients[c], choice);
      var g, r := AfterClient(h, s, p.clients[c]), ClientStep(s, p.workers, c, p.clients[c], choice).value;
      assert h.popped + h.discarded + s.queue == h.popped + (h.discarded + s.queue);
      assert g.popped + g.discarded + r.shared.queue == g.popped + (g.discarded + r.shared.queue);
      NotifiedWakes(p.workers, p.clients[c], choice);
      WakingKeeps(p.workers, Notified(p.workers, p.clients[c], choice));
    case _ =>
  }

  // The client at c pushed its task, gave it up, or kept it.
  lemma TasksKeptByCall(p: Pool, q: Pool, c: nat)
    requires TasksOk(p) && c < |p.clients| == |q.clients| && q.clients == p.clients[c := q.clients[c]]
    requires q.history.nextTask == p.history.nextTask
    requires if p.clients[c].SubmitPush?
             then q.history.pushed == p.history.pushed + [p.clients[c].task] && Pending(q.clients[c]) == None
             else q.history.pushed == p.history.pushed
                  && (Pending(q.clients[c]) == None || Pending(q.clients[c]) == Pending(p.clients[c]))
    ensures TasksOk(q)
  {
    assert PendingOk(p, c);
    forall d | 0 <= d < |q.clients|
      ensures PendingOk(q, d)
    {
      assert PendingOk(p, d);
    }
  }

  lemma TasksKeptBySubmit(p: Pool, c: nat)
    requires TasksOk(p) && Next(p, BeginSubmit(c)).Some?
    ensures TasksOk(Next(p, BeginSubmit(c)).value)
  {
    var q := Next(p, BeginSubmit(c)).value;
    var t := p.history.nextTask;
    forall d | 0 <= d < |p.clients|
      ensures Pending(p.clients[d]) != Some(t)
    {
      assert PendingOk(p, d);
    }
    forall d | 0 <= d < |q.clients|
      ensures PendingOk(q, d)
    {
      assert PendingOk(p, d);
      assert t !in p.history.pushed;
    }
  }

  lemma TasksKept(p: Pool, a: Action)
    requires TasksOk(p) && Next(p, a).Some?
    ensures TasksOk(Next(p, a).value)
  {
    hide WorkerStep, ClientStep, AfterWorker, AfterClient, Notified, TasksOk;
    var q := Next(p, a).value;
    match a
    case Work(i) =>
      WorkerFrame(p.shared, p.history, i, p.workers[i]);
      TasksUntouched(p, q);
    case SpuriousWake(i) => TasksUntouched(p, q);
    case Call(c, choice) =>
      ClientTasks(p.shared, p.history, p.workers, c, p.clients[c], choice);
      TasksKeptByCall(p, q, c);
    case BeginSubmit(c) => TasksKeptBySubmit(p, c);
    case BeginShutdown(c) => TasksKeptByCall(p, q, c);
  }

  lemma TasksUntouched(p: Pool, q: Pool)
    requires TasksOk(p) && q.clients == p.clients
    requires q.history.pushed == p.history.pushed && q.history.nextTask == p.history.nextTask
    ensures TasksOk(q)
  {
    forall c | 0 <= c < |q.clients|
      ensures PendingOk(q, c)
    {
      assert PendingOk(p, c);
    }
  }

  lemma StopKeptByWorker(p: Pool, i: nat)
    requires StopOk(p) && Next(p, Work(i)).Some?
    ensures StopOk(Next(p, Work(i)).value)
  {
    hide WorkerStep, AfterWorker;
    WorkerLocal(p.shared, i, p.workers[i]);
    WorkerFrame(p.shared, p.history, i, p.workers[i]);
  }

  lemma StopKeptByClient(p: Pool, c: nat, choice: nat)
    requires StopOk(p) && LockOk(p) && Next(p, Call(c, choice)).Some?
    ensures StopOk(Next(p, Call(c, choice)).value)
  {
    hide ClientStep, AfterClient, Notified;
    ClientStops(p.shared, p.history, p.workers, c, p.clients[c], choice);
    ClientLocal(p.shared, p.workers, c, p.clients[c], choice);
    ClientJoins(p.shared, p.history, p.workers, c, p.clients[c], choice);
    NotifiedWakes(p.workers, p.clients[c], choice);
  }

  lemma StopKept(p: Pool, a: Action)
    requires StopOk(p) && LockOk(p) && Next(p, a).Some?
    ensures StopOk(Next(p, a).value)
  {
    hide WorkerStep, ClientStep, AfterWorker, AfterClient, Notified;
    match a
    case Work(i) => StopKeptByWorker(p, i);
    case Call(c, choice) => StopKeptByClient(p, c, choice);
    case _ =>
  }

  lemma BegunKept(p: Pool, a: Action)
    requires BegunOk(p) && Next(p, a).Some?
    ensures BegunOk(Next(p, a).value)
  {
    hide WorkerStep, ClientStep, AfterWorker, AfterClient, Notified;
    match a
    case Work(i) =>
      WorkerLocal(p.shared, i, p.workers[i]);
      WorkerBegins(p.shared, p.history, i, p.workers[i]);
    case Call(c, choice) =>
      ClientLocal(p.shared, p.workers, c, p.clients[c], choice);
      ClientTasks(p.shared, p.history, p.workers, c, p.clients[c], choice);
      NotifiedWakes(p.workers, p.clients[c], choice);
    case _ =>
  }

  // ----- Over all interleavings

  lemma InvKept(p: Pool, a: Action)
    requires Inv(p) && Next(p, a).Some?
    ensures Inv(Next(p, a).value)
  {
    hide Next, LockOk, ActiveOk, OrderOk, TasksOk, StopOk, BegunOk;
    LockKept(p, a);
    ActiveKept(p, a);
    OrderKept(p, a);
    TasksKept(p, a);
    StopKept(p, a);
    BegunKept(p, a);
  }

  lemma {:induction false} InitialInv(workers: nat, clients: nat)
    ensures Inv(Initial(workers, clients))
  {
    NoneActive(Initial(workers, clients).workers);
  }

  lemma {:induction false} NoneActive(ws: seq<Worker>)
    requires forall i :: 0 <= i < |ws| ==> ws[i].AtLoop?
    ensures CountActive(ws) == 0 && Held(ws) == multiset{}
  {
    if ws != [] {
      NoneActive(ws[..|ws| - 1]);
    }
  }

  lemma {:induction false} InvHolds(p: Pool, s: Schedule)
    requires Inv(p) && Exec(p, s).Some?
    ensures Inv(Exec(p, s).value)
  {
    hide Next, Inv;
    match s
    case Start =>
    case Then(past, a) =>
      InvHolds(p, past);
      InvKept(Exec(p, past).value, a);
  }

  // A state of a pool constructed for the given thread counts.
  ghost predicate Reachable(requested: nat, hardware: nat, clients: nat, s: Schedule, p: Pool) {
    Exec(Initial(WorkerCount(requested, hardware), clients), s) == Some(p)
  }

  lemma ReachableInv(requested: nat, hardware: nat, clients: nat, s: Schedule, p: Pool)
    requires Reachable(requested, hardware, clients, s, p)
    ensures Inv(p) && |p.workers| == WorkerCount(requested, hardware)
  {
    InitialInv(WorkerCount(requested, hardware), clients);
    InvHolds(Initial(WorkerCount(requested, hardware), clients), s);
    SameWorkers(Initial(WorkerCount(requested, hardware), clients), s);
  }

  lemma {:induction false} SameWorkers(p: Pool, s: Schedule)
    requires Exec(p, s).Some?
    ensures |Exec(p, s).value.workers| == |p.workers|
  {
    hide WorkerStep, ClientStep, AfterWorker, AfterClient;
    match s
    case Start =>
    case Then(past, a) => SameWorkers(p, past);
  }

  /** Tasks leave the queue in the order they entered it, and every pushed task is in exactly one
      place: waiting, in a worker's hand, finished or discarded. So none is run twice or lost. */
  lemma Conservation(requested: nat, hardware: nat, clients: nat, s: Schedule, p: Pool)
    requires Reachable(requested, hardware, clients, s, p)
    ensures p.history.pushed == p.history.popped + p.history.discarded + p.shared.queue
    ensures forall t :: multiset(p.shared.queue)[t] + Held(p.workers)[t] + multiset(p.history.finished)[t]
                      + multiset(p.history.discarded)[t] == (if t in p.history.pushed then 1 else 0)
  {
    ReachableInv(requested, hardware, clients, s, p);
    var h := p.history;
    forall t
      ensures multiset(p.shared.queue)[t] + Held(p.workers)[t] + multiset(h.finished)[t] + multiset(h.discarded)[t]
           == (if t in h.pushed then 1 else 0)
    {
      assert multiset(h.popped)[t] == multiset(h.finished)[t] + Held(p.workers)[t];
      assert multiset(h.pushed)[t]
          == multiset(h.popped)[t] + multiset(h.discarded)[t] + multiset(p.shared.queue)[t];
      Multiplicity(h.pushed, t);
    }
  }

  lemma {:induction false} Multiplicity(s: seq<Task>, t: Task)
    requires NoDuplicates(s)
    ensures multiset(s)[t] == if t in s then 1 else 0
  {
    if s != [] {
      var n := |s| - 1;
      assert s == s[..n] + [s[n]];
      Multiplicity(s[..n], t);
    }
  }

  /** The active counter is the number of workers between its increment and its decrement. */
  lemma ActiveCount(requested: nat, hardware: nat, clients: nat, s: Schedule, p: Pool)
    requires Reachable(requested, hardware, clients, s, p)
    ensures 0 <= p.shared.active == CountActive(p.workers) <= |p.workers| <= 64
  {
    ReachableInv(requested, hardware, clients, s, p);
  }

  // The steps of a schedule in which worker i begins a task while the flag is set.
  function BeginsLate(p: Pool, s: Schedule, i: nat): nat {
    match s
    case Start => 0
    case Then(past, a) =>
      BeginsLate(p, past, i) +
      match Exec(p, past)
      case None => 0
      case Some(q) =>
        if a == Work(i) && i < |q.workers| && q.workers[i].Carrying? && q.shared.stopping then 1 else 0
  }

  lemma BegunAdvances(p: Pool, a: Action, i: nat)
    requires BegunOk(p) && i < |p.workers| && Next(p, a).Some?
    ensures var q := Next(p, a).value;
            && |q.history.begun| == |p.history.begun|
            && q.history.begun[i]
            == p.history.begun[i] + if a == Work(i) && p.workers[i].Carrying? && p.shared.stopping then 1 else 0
  {
    hide WorkerStep, ClientStep, Notified;
  }

  lemma {:induction false} BegunCounts(p: Pool, s: Schedule, i: nat)
    requires Inv(p) && i < |p.workers| && Exec(p, s).Some?
    ensures |Exec(p, s).value.history.begun| == |p.workers|
    ensures Exec(p, s).value.history.begun[i] == p.history.begun[i] + BeginsLate(p, s, i)
  {
    hide Next, LockOk, ActiveOk, OrderOk, TasksOk, StopOk;
    match s
    case Start =>
    case Then(past, a) =>
      BegunCounts(p, past, i);
      InvHolds(p, past);
      SameWorkers(p, past);
      BegunAdvances(Exec(p, past).value, a, i);
  }

  /** After the stop flag is set, each worker begins at most one more task. */
  lemma AtMostOneMore(requested: nat, hardware: nat, clients: nat, s: Schedule, p: Pool, i: nat)
    requires Reachable(requested, hardware, clients, s, p) && i < |p.workers|
    ensures |p.history.begun| == |p.workers| && p.history.begun[i] <= 1
    ensures BeginsLate(Initial(WorkerCount(requested, hardware), clients), s, i) <= 1
  {
    ReachableInv(requested, hardware, clients, s, p);
    InitialInv(WorkerCount(requested, hardware), clients);
    BegunCounts(Initial(WorkerCount(requested, hardware), clients), s, i);
  }

  /** The queue is never touched by two threads at once. */
  lemma MutualExclusion(requested: nat, hardware: nat, clients: nat, s: Schedule, p: Pool, i: nat, c: nat)
    requires Reachable(requested, hardware, clients, s, p) && i < |p.workers| && c < |p.clients|
    ensures !(WorkerHoldsLock(p.workers[i]) && ClientHoldsLock(p.clients[c]))
    ensures forall j :: 0 <= j < |p.workers| && j != i ==>
              !(WorkerHoldsLock(p.workers[i]) && WorkerHoldsLock(p.workers[j]))
    ensures forall d :: 0 <= d < |p.clients| && d != c ==>
              !(ClientHoldsLock(p.clients[c]) && ClientHoldsLock(p.clients[d]))
  {
    ReachableInv(requested, hardware, clients, s, p);
  }

  // ----- Shutdown

  // Nothing is queued, in hand or running, and every pushed task is accounted for.
  ghost predicate Quiet(p: Pool) {
    && p.shared.queue == [] && p.shared.active == 0 && Held(p.workers) == multiset{} && AllExited(p.workers)
    && multiset(p.history.pushed) == multiset(p.history.finished) + multiset(p.history.discarded)
  }

  lemma StoppedIsQuiet(p: Pool)
    requires Inv(p) && p.history.cleared
    ensures Quiet(p)
  {
    ExitedHoldNothing(p.workers);
    assert p.history.popped + p.history.discarded + [] == p.history.popped + p.history.discarded;
  }

  lemma NothingEntersCleared(p: Pool, a: Action)
    requires Inv(p) && p.history.cleared && Next(p, a).Some?
    ensures var q := Next(p, a).value;
            q.history.cleared && q.history.pushed == p.history.pushed && q.history.finished == p.history.finished
            && (p.history.stopped ==> q.history.stopped)
  {
    hide WorkerStep, ClientStep, Notified, ActiveOk, OrderOk, TasksOk, LockOk;
    match a
    case Work(i) => WorkerLocal(p.shared, i, p.workers[i]);
    case _ =>
  }

  lemma {:induction false} QuietForever(p: Pool, later: Schedule)
    requires Inv(p) && p.history.stopped && Exec(p, later).Some?
    ensures var q := Exec(p, later).value;
            && Inv(q) && q.history.stopped && Quiet(q)
            && q.history.pushed == p.history.pushed && q.history.finished == p.history.finished
  {
    hide Next, Quiet;
    match later
    case Start => StoppedIsQuiet(p);
    case Then(past, a) =>
      QuietForever(p, past);
      var q := Exec(p, past).value;
      InvKept(q, a);
      NothingEntersCleared(q, a);
      StoppedIsQuiet(Next(q, a).value);
  }

  /** Once the Shutdown call that set the flag has returned, the pool is quiet, and no later step
      of any Submit call, new or in progress, can enqueue a task, nor can any task run. */
  lemma ShutdownSafety(requested: nat, hardware: nat, clients: nat, s: Schedule, p: Pool, later: Schedule)
    requires Reachable(requested, hardware, clients, s, p) && p.history.stopped && Exec(p, later).Some?
    ensures Quiet(p) && Quiet(Exec(p, later).value)
    ensures Exec(p, later).value.history.pushed == p.history.pushed
    ensures Exec(p, later).value.history.finished == p.history.finished
  {
    ReachableInv(requested, hardware, clients, s, p);
    StoppedIsQuiet(p);
    QuietForever(p, later);
  }
}
