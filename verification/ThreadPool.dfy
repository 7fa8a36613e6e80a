/**
 The thread pool (src/internal/tftp_thread_pool.cpp and .h) as interleaved atomic steps.

 Any number of client threads call Submit and Shutdown, any number of times. A step is one access
 to shared state: the stop flag is read and written without the queue lock, exactly as in the
 source, so it can change between any two steps of the others.
 */
module ThreadPool {
  import opened Wire

  type Task = nat

  // Where a worker is in WorkerThread.
  datatype Worker =
    | AtLoop                          // about to test the flag of the outer loop
    | Acquiring                       // wants the lock, on entry or after being woken
    | Testing                         // lock held: about to evaluate the wait predicate
    | InGap                           // lock held: the predicate was false, not yet blocked
    | Blocked                         // waiting on the condition variable, lock released
    | Deciding                        // lock held: the predicate was true, about to test for exit
    | Popping                         // lock held: about to take a task if there is one
    | Leaving                         // lock held: leaving the loop
    | Releasing(taken: Option<Task>)  // lock held: about to release it
    | Carrying(task: Task)            // has a task, not yet counted as active
    | Counted(task: Task)             // counted, about to call it
    | Running(task: Task)             // inside the call
    | Ran(task: Task)                 // the call returned or its exception was caught
    | Exited

  // Where a client is in Submit or Shutdown.
  datatype Client =
    | Idle
    | SubmitCheck(task: Task)    // first test of the flag, without the lock
    | SubmitLock(task: Task)
    | SubmitRecheck(task: Task)  // second test, lock held
    | SubmitPush(task: Task)     // lock held
    | SubmitUnlock               // lock held
    | SubmitReject               // lock held: throwing
    | SubmitNotify
    | StopExchange               // the atomic exchange of the flag
    | StopNotify
    | StopJoin(next: nat)        // workers before `next` have been joined
    | StopLock
    | StopClear                  // lock held: about to discard the queue
    | StopUnlock                 // lock held

  datatype Thread = WorkerThread(i: nat) | ClientThread(c: nat)

  // The fields of the pool that every thread reads and writes.
  datatype Shared = Shared(stopping: bool, lock: Option<Thread>, queue: seq<Task>, active: int)

  // What has happened so far; no step reads it.
  datatype History = History(
    nextTask: Task,          // the next task to be submitted
    pushed: seq<Task>,
    popped: seq<Task>,
    finished: seq<Task>,
    discarded: seq<Task>,
    begun: seq<nat>,         // per worker: tasks begun since the flag was set
    cleared: bool,           // the queue has been discarded
    stopped: bool)           // the Shutdown call that set the flag has returned

  datatype Pool = Pool(workers: seq<Worker>, clients: seq<Client>, shared: Shared, history: History)

  // The number of worker threads the constructor creates.
  function WorkerCount(requested: nat, hardware: nat): (n: nat)
    ensures 1 <= n <= 64
    ensures 1 <= requested <= 64 ==> n == requested
    ensures requested > 64 ==> n == 64
    ensures requested == 0 && 1 <= hardware <= 64 ==> n == hardware
    ensures requested == 0 && hardware > 64 ==> n == 64
    ensures requested == 0 && hardware == 0 ==> n == 4
  {
    var wanted := if requested > 0 then requested else if hardware > 0 then hardware else 4;
    if wanted > 64 then 64 else wanted
  }

  function Initial(workers: nat, clients: nat): Pool {
    Pool(seq(workers, _ => AtLoop), seq(clients, _ => Idle), Shared(false, None, [], 0),
         History(0, [], [], [], [], seq(workers, _ => 0), false, false))
  }

  // ----- Steps of a worker

  datatype WorkerResult = WorkerResult(pc: Worker, shared: Shared)

  function WorkerStep(s: Shared, i: nat, w: Worker): Option<WorkerResult> {
    var unlocked := s.(lock := None);
    match w
    case AtLoop => Some(WorkerResult(if s.stopping then Exited else Acquiring, s))
    case Acquiring =>
      if s.lock.Some? then None else Some(WorkerResult(Testing, s.(lock := Some(WorkerThread(i)))))
    case Testing => Some(WorkerResult(if s.stopping || s.queue != [] then Deciding else InGap, s))
    case InGap => Some(WorkerResult(Blocked, unlocked))
    case Blocked => None
    case Deciding => Some(WorkerResult(if s.stopping && s.queue == [] then Leaving else Popping, s))
    case Popping =>
      if s.queue == [] then Some(WorkerResult(Releasing(None), s))
      else Some(WorkerResult(Releasing(Some(s.queue[0])), s.(queue := s.queue[1..])))
    case Leaving => Some(WorkerResult(Exited, unlocked))
    case Releasing(taken) => Some(WorkerResult(if taken.Some? then Carrying(taken.value) else AtLoop, unlocked))
    case Carrying(task) => Some(WorkerResult(Counted(task), s.(active := s.active + 1)))
    case Counted(task) => Some(WorkerResult(Running(task), s))
    case Running(task) => Some(WorkerResult(Ran(task), s))
    case Ran(_) => Some(WorkerResult(AtLoop, s.(active := s.active - 1)))
    case Exited => None
  }

  function AfterWorker(h: History, s: Shared, i: nat, w: Worker): History
    requires i < |h.begun|
  {
    if w.Popping? && s.queue != [] then h.(popped := h.popped + [s.queue[0]])
    else if w.Carrying? && s.stopping then h.(begun := h.begun[i := h.begun[i] + 1])
    else if w.Running? then h.(finished := h.finished + [w.task])
    else h
  }

  // ----- Steps of a client

  datatype ClientResult = ClientResult(pc: Client, shared: Shared)

  // `choice` is the waiting worker that notify_one picks; it must pick one if any is waiting.
  function ClientStep(s: Shared, workers: seq<Worker>, c: nat, k: Client, choice: nat): Option<ClientResult> {
    var locked := s.(lock := Some(ClientThread(c)));
    var unlocked := s.(lock := None);
    match k
    case Idle => None
    case SubmitCheck(task) => Some(ClientResult(if s.stopping then Idle else SubmitLock(task), s))
    case SubmitLock(task) => if s.lock.Some? then None else Some(ClientResult(SubmitRecheck(task), locked))
    case SubmitRecheck(task) => Some(ClientResult(if s.stopping then SubmitReject else SubmitPush(task), s))
    case SubmitPush(task) => Some(ClientResult(SubmitUnlock, s.(queue := s.queue + [task])))
    case SubmitUnlock => Some(ClientResult(SubmitNotify, unlocked))
    case SubmitReject => Some(ClientResult(Idle, unlocked))
    case SubmitNotify => if MayNotify(workers, choice) then Some(ClientResult(Idle, s)) else None
    case StopExchange => Some(ClientResult(if s.stopping then Idle else StopNotify, s.(stopping := true)))
    case StopNotify => Some(ClientResult(StopJoin(0), s))
    case StopJoin(next) =>
      if next >= |workers| then Some(ClientResult(StopLock, s))
      else if workers[next].Exited? then Some(ClientResult(StopJoin(next + 1), s))
      else None
    case StopLock => if s.lock.Some? then None else Some(ClientResult(StopClear, locked))
    case StopClear => Some(ClientResult(StopUnlock, s.(queue := [])))
    case StopUnlock => Some(ClientResult(Idle, unlocked))
  }

  predicate MayNotify(workers: seq<Worker>, choice: nat) {
    (choice < |workers| && workers[choice].Blocked?) || forall i :: 0 <= i < |workers| ==> !workers[i].Blocked?
  }

  function Woken(w: Worker): Worker {
    if w.Blocked? then Acquiring else w
  }

  // The effect on the workers of a client's step from k.
  function Notified(workers: seq<Worker>, k: Client, choice: nat): (r: seq<Worker>)
    ensures |r| == |workers|
  {
    if k.SubmitNotify? && choice < |workers| then workers[choice := Woken(workers[choice])]
    else if k.StopNotify? then seq(|workers|, i requires 0 <= i < |workers| => Woken(workers[i]))
    else workers
  }

  function AfterClient(h: History, s: Shared, k: Client): History {
    if k.SubmitPush? then h.(pushed := h.pushed + [k.task])
    else if k.StopClear? then h.(discarded := h.discarded + s.queue, cleared := true)
    else if k.StopUnlock? then h.(stopped := true)
    else h
  }

  // ----- Interleaving

  datatype Action =
    | Work(i: nat)
    | SpuriousWake(i: nat)
    | Call(c: nat, choice: nat)
    | BeginSubmit(c: nat)
    | BeginShutdown(c: nat)

  function Next(p: Pool, a: Action): Option<Pool> {
    match a
    case Work(i) =>
      if i >= |p.workers| || i >= |p.history.begun| then None else
        var r := WorkerStep(p.shared, i, p.workers[i]);
        if r == None then None else
          Some(Pool(p.workers[i := r.value.pc], p.clients, r.value.shared,
                    AfterWorker(p.history, p.shared, i, p.workers[i])))
    case SpuriousWake(i) =>
      if i < |p.workers| && p.workers[i].Blocked? then Some(p.(workers := p.workers[i := Acquiring])) else None
    case Call(c, choice) =>
      if c >= |p.clients| then None else
        var r := ClientStep(p.shared, p.workers, c, p.clients[c], choice);
        if r == None then None else
          Some(Pool(Notified(p.workers, p.clients[c], choice), p.clients[c := r.value.pc], r.value.shared,
                    AfterClient(p.history, p.shared, p.clients[c])))
    case BeginSubmit(c) =>
      if c >= |p.clients| || !p.clients[c].Idle? then None else
        Some(p.(clients := p.clients[c := SubmitCheck(p.history.nextTask)],
                history := p.history.(nextTask := p.history.nextTask + 1)))
    case BeginShutdown(c) =>
      if c >= |p.clients| || !p.clients[c].Idle? then None else
        Some(p.(clients := p.clients[c := StopExchange]))
  }

  datatype Schedule = Start | Then(past: Schedule, action: Action)

  function Exec(p: Pool, s: Schedule): Option<Pool> {
    match s
    case Start => Some(p)
    case Then(past, a) =>
      match Exec(p, past)
      case None => None
      case Some(q) => Next(q, a)
  }

  // ----- Reading a state

  predicate WorkerHoldsLock(w: Worker) {
    w.Testing? || w.InGap? || w.Deciding? || w.Popping? || w.Leaving? || w.Releasing?
  }

  predicate ClientHoldsLock(k: Client) {
    k.SubmitRecheck? || k.SubmitPush? || k.SubmitUnlock? || k.SubmitReject? || k.StopClear? || k.StopUnlock?
  }

  // Between the increment and the decrement of the active counter.
  predicate IsActive(w: Worker) {
    w.Counted? || w.Running? || w.Ran?
  }

  function CountActive(workers: seq<Worker>): (n: nat)
    ensures n <= |workers|
  {
    if workers == [] then 0
    else CountActive(workers[..|workers| - 1]) + if IsActive(workers[|workers| - 1]) then 1 else 0
  }

  // The task a worker has taken and not finished.
  function InHand(w: Worker): Option<Task> {
    match w
    case Releasing(taken) => taken
    case Carrying(task) => Some(task)
    case Counted(task) => Some(task)
    case Running(task) => Some(task)
    case _ => None
  }

  function Bag(task: Option<Task>): multiset<Task> {
    match task
    case None => multiset{}
    case Some(t) => multiset{t}
  }

  // All tasks taken and not finished.
  function Held(workers: seq<Worker>): multiset<Task> {
    if workers == [] then multiset{}
    else Held(workers[..|workers| - 1]) + Bag(InHand(workers[|workers| - 1]))
  }

  // The task of a Submit call that has not been pushed.
  function Pending(k: Client): Option<Task> {
    match k
    case SubmitCheck(task) => Some(task)
    case SubmitLock(task) => Some(task)
    case SubmitRecheck(task) => Some(task)
    case SubmitPush(task) => Some(task)
    case _ => None
  }

  // Inside the Shutdown call that set the flag.
  predicate IsStopper(k: Client) {
    k.StopNotify? || k.StopJoin? || k.StopLock? || k.StopClear? || k.StopUnlock?
  }

  // The first n workers have left WorkerThread.
  predicate ExitedUpTo(workers: seq<Worker>, n: nat) {
    n <= |workers| && forall i :: 0 <= i < n ==> workers[i].Exited?
  }

  predicate AllExited(workers: seq<Worker>) {
    ExitedUpTo(workers, |workers|)
  }
}
