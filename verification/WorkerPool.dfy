/** The worker pool as an interleaving of atomic channel operations
    (internal/infrastructure/worker/pool.go). */
module WorkerPool {

  /** A running worker holds the number of its job in start order. */
  datatype Worker = Idle | Running(job: nat) | Exited

  /** `accepted` and `started` are histories; the rest is what the pool holds.
      `parked` are the jobs of SubmitWait callers blocked on the full channel, oldest first. */
  datatype Pool<J> = Pool(
    capacity: nat, queue: seq<J>, parked: seq<J>, workers: seq<Worker>,
    cancelled: bool, closed: bool, panicked: bool,
    accepted: seq<J>, started: seq<J>, completed: set<nat>)

  /** One atomic step. Submit and SubmitWait differ only in what they do when nothing is ready: refuse or park. */
  datatype Action<J> =
    | Accept(job: J)              // the send case of a submit, into the buffer
    | HandOver(job: J, w: nat)    // the send case of a submit, to a worker waiting on the empty channel
    | Refuse(job: J)              // the ctx.Done case of a submit, or Submit's default case
    | Park(job: J)                // SubmitWait with no case ready
    | SendOnClosed(job: J)        // the send case of a submit on the closed channel
    | Take(w: nat)                // the receive case of a worker
    | Leave(w: nat)               // the ctx.Done case of a worker, or a receive from the closed, drained channel
    | Complete(w: nat)            // the job of a worker returns
    | Cancel                      // Shutdown's first step, or the parent context
    | Close                       // Shutdown's second step

  predicate IsSubmit<J>(a: Action<J>) {
    a.Accept? || a.HandOver? || a.Refuse? || a.Park? || a.SendOnClosed?
  }

  function NewPool<J>(workers: nat, queueSize: nat): Pool<J> {
    Pool(queueSize, [], [], seq(workers, i => Idle), false, false, false, [], [], {})
  }

  predicate IdleAt(workers: seq<Worker>, w: nat) {
    w < |workers| && workers[w].Idle?
  }

  predicate Enabled<J>(s: Pool<J>, a: Action<J>) {
    && !s.panicked
    && match a
       case Accept(_) => !s.closed && |s.queue| < s.capacity
       case HandOver(_, w) => !s.closed && s.queue == [] && s.parked == [] && IdleAt(s.workers, w)
       case Refuse(_) => s.cancelled || |s.queue| == s.capacity
       case Park(_) => !s.cancelled && !s.closed && |s.queue| == s.capacity
       case SendOnClosed(_) => s.closed
       case Take(w) => IdleAt(s.workers, w) && (s.queue != [] || s.parked != [])
       case Leave(w) => IdleAt(s.workers, w) && (s.cancelled || (s.closed && s.queue == []))
       case Complete(w) => w < |s.workers| && s.workers[w].Running?
       case Cancel => true
       case Close => s.cancelled && !s.closed
  }

  function Begin<J>(s: Pool<J>, job: J, w: nat): Pool<J>
    requires w < |s.workers|
  {
    s.(started := s.started + [job], workers := s.workers[w := Running(|s.started|)])
  }

  /** A receive: the oldest buffered job, whose place the oldest parked one takes;
      with no buffer the oldest parked job itself. */
  function Receive<J>(s: Pool<J>, w: nat): Pool<J>
    requires w < |s.workers| && (s.queue != [] || s.parked != [])
  {
    if s.parked == [] then Begin(s.(queue := s.queue[1..]), s.queue[0], w)
    else
      var line := s.queue + [s.parked[0]];
      Begin(s.(queue := line[1..], parked := s.parked[1..], accepted := s.accepted + [s.parked[0]]), line[0], w)
  }

  function Apply<J>(s: Pool<J>, a: Action<J>): Pool<J>
    requires Enabled(s, a)
  {
    match a
    case Accept(job) => s.(accepted := s.accepted + [job], queue := s.queue + [job])
    case HandOver(job, w) => Begin(s.(accepted := s.accepted + [job]), job, w)
    case Refuse(_) => s
    case Park(job) => s.(parked := s.parked + [job])
    case SendOnClosed(_) => s.(panicked := true)
    case Take(w) => Receive(s, w)
    case Leave(w) => s.(workers := s.workers[w := Exited])
    case Complete(w) => s.(completed := s.completed + {s.workers[w].job}, workers := s.workers[w := Idle])
    case Cancel => s.(cancelled := true, parked := [])
    case Close => s.(closed := true)
  }

  // ----- runs -----

  predicate ValidRun<J>(s: Pool<J>, run: seq<Action<J>>)
    decreases run
  {
    run == [] || (Enabled(s, run[0]) && ValidRun(Apply(s, run[0]), run[1..]))
  }

  function After<J>(s: Pool<J>, run: seq<Action<J>>): Pool<J>
    requires ValidRun(s, run)
    decreases run
  {
    if run == [] then s else After(Apply(s, run[0]), run[1..])
  }

  // ----- the invariant -----

  function RunningCount(workers: seq<Worker>): nat {
    if workers == [] then 0
    else RunningCount(workers[..|workers| - 1]) + if workers[|workers| - 1].Running? then 1 else 0
  }

  /** Of `started` jobs, every one is completed or on exactly one worker. */
  predicate JobsPlaced(started: nat, workers: seq<Worker>, completed: set<nat>) {
    && (forall w :: 0 <= w < |workers| && workers[w].Running? ==>
          workers[w].job < started && workers[w].job !in completed)
    && (forall v, w :: 0 <= v < w < |workers| && workers[v].Running? && workers[w].Running? ==>
          workers[v].job != workers[w].job)
    && (forall t :: 0 <= t < started ==> t in completed || Holds(workers, t))
    && (forall t :: t in completed ==> t < started)
    && started == |completed| + RunningCount(workers)
  }

  predicate Holds(workers: seq<Worker>, t: nat) {
    exists w :: 0 <= w < |workers| && workers[w] == Running(t)
  }

  /** Conservation and order, and what the flags imply. */
  ghost predicate Inv<J>(s: Pool<J>) {
    && s.accepted == s.started + s.queue
    && |s.queue| <= s.capacity
    && (s.parked != [] ==> !s.cancelled && |s.queue| == s.capacity)
    && (s.closed ==> s.cancelled)
    && JobsPlaced(|s.started|, s.workers, s.completed)
  }

  lemma {:induction false} CountAtMost(workers: seq<Worker>)
    ensures RunningCount(workers) <= |workers|
  {
    if workers != [] {
      CountAtMost(workers[..|workers| - 1]);
    }
  }

  lemma {:induction false} CountUpdate(workers: seq<Worker>, w: nat, to: Worker)
    requires w < |workers|
    ensures RunningCount(workers[w := to])
         == RunningCount(workers) + (if to.Running? then 1 else 0) - (if workers[w].Running? then 1 else 0)
  {
    var front := workers[..|workers| - 1];
    if w == |workers| - 1 {
      assert workers[w := to][..w] == front;
    } else {
      CountUpdate(front, w, to);
      assert workers[w := to][..|workers| - 1] == front[w := to];
    }
  }

  lemma {:induction false} NoneRunning(n: nat)
    ensures RunningCount(seq(n, i => Idle)) == 0
  {
    if n > 0 {
      NoneRunning(n - 1);
      assert seq(n, i => Idle)[..n - 1] == seq(n - 1, i => Idle);
    }
  }

  lemma NewPoolInv<J>(workers: nat, queueSize: nat)
    ensures Inv(NewPool<J>(workers, queueSize))
  {
    NoneRunning(workers);
  }

  lemma StillHeld(workers: seq<Worker>, w: nat, to: Worker, t: nat)
    requires w < |workers| && workers[w] != Running(t) && Holds(workers, t)
    ensures Holds(workers[w := to], t)
  {
    var v :| 0 <= v < |workers| && workers[v] == Running(t);
    assert workers[w := to][v] == Running(t);
  }

  lemma BeginPlaces(started: nat, workers: seq<Worker>, completed: set<nat>, w: nat)
    requires JobsPlaced(started, workers, completed) && IdleAt(workers, w)
    ensures JobsPlaced(started + 1, workers[w := Running(started)], completed)
  {
    CountUpdate(workers, w, Running(started));
    forall t | 0 <= t < started + 1 ensures t in completed || Holds(workers[w := Running(started)], t) {
      if t == started {
        assert workers[w := Running(started)][w] == Running(t);
      } else if t !in completed {
        StillHeld(workers, w, Running(started), t);
      }
    }
  }

  lemma CompletePlaces(started: nat, workers: seq<Worker>, completed: set<nat>, w: nat)
    requires JobsPlaced(started, workers, completed) && w < |workers| && workers[w].Running?
    ensures JobsPlaced(started, workers[w := Idle], completed + {workers[w].job})
  {
    CountUpdate(workers, w, Idle);
    forall t | 0 <= t < started && t !in completed + {workers[w].job} ensures Holds(workers[w := Idle], t) {
      StillHeld(workers, w, Idle, t);
    }
  }

  lemma LeavePlaces(started: nat, workers: seq<Worker>, completed: set<nat>, w: nat)
    requires JobsPlaced(started, workers, completed) && IdleAt(workers, w)
    ensures JobsPlaced(started, workers[w := Exited], completed)
  {
    CountUpdate(workers, w, Exited);
    forall t | 0 <= t < started && t !in completed ensures Holds(workers[w := Exited], t) {
      StillHeld(workers, w, Exited, t);
    }
  }

  lemma StepKeepsInv<J>(s: Pool<J>, a: Action<J>)
    requires Inv(s) && Enabled(s, a)
    ensures Inv(Apply(s, a))
    ensures |Apply(s, a).workers| == |s.workers| && Apply(s, a).capacity == s.capacity
  {
    hide JobsPlaced;
    match a
    case HandOver(_, w) => BeginPlaces(|s.started|, s.workers, s.completed, w);
    case Take(w) => BeginPlaces(|s.started|, s.workers, s.completed, w);
    case Leave(w) => LeavePlaces(|s.started|, s.workers, s.completed, w);
    case Complete(w) => CompletePlaces(|s.started|, s.workers, s.completed, w);
    case _ =>
  }

  lemma {:induction false} RunKeepsInv<J>(s: Pool<J>, run: seq<Action<J>>)
    requires Inv(s) && ValidRun(s, run)
    ensures Inv(After(s, run))
    ensures |After(s, run).workers| == |s.workers| && After(s, run).capacity == s.capacity
    decreases run
  {
    if run != [] {
      StepKeepsInv(s, run[0]);
      RunKeepsInv(Apply(s, run[0]), run[1..]);
    }
  }

  /** In every interleaving: the accepted jobs are the started ones followed by the queue, so none starts twice or out
      of order; the queue keeps to its size, and started jobs not yet completed are at most one per worker. */
  lemma Conservation<J>(workers: nat, queueSize: nat, run: seq<Action<J>>)
    requires ValidRun(NewPool(workers, queueSize), run)
    ensures var s := After(NewPool(workers, queueSize), run);
            && s.accepted == s.started + s.queue
            && |s.queue| <= queueSize
            && |s.started| - |s.completed| == RunningCount(s.workers) <= workers
            && (forall t :: t in s.completed ==> t < |s.started|)
  {
    NewPoolInv<J>(workers, queueSize);
    RunKeepsInv(NewPool(workers, queueSize), run);
    CountAtMost(After(NewPool(workers, queueSize), run).workers);
  }

  // ----- shutdown -----

  /** Some submit is evaluated after the channel was closed. */
  predicate SubmitsAfterClose<J>(run: seq<Action<J>>) {
    exists i, j :: 0 <= i < j < |run| && run[i].Close? && IsSubmit(run[j])
  }

  lemma {:induction false} PanicNeedsLateSubmit<J>(s: Pool<J>, run: seq<Action<J>>)
    requires ValidRun(s, run) && !s.panicked
    requires s.closed ==> forall j :: 0 <= j < |run| ==> !IsSubmit(run[j])
    requires !SubmitsAfterClose(run)
    ensures !After(s, run).panicked
    decreases run
  {
    if run != [] {
      var t := Apply(s, run[0]);
      assert !t.panicked;
      if t.closed {
        forall j | 0 <= j < |run[1..]| ensures !IsSubmit(run[1..][j]) {
          if run[0].Close? {
            assert run[1..][j] == run[j + 1];
          }
        }
      }
      forall i, j | 0 <= i < j < |run[1..]| && run[1..][i].Close? ensures !IsSubmit(run[1..][j]) {
        assert run[i + 1].Close?;
      }
      PanicNeedsLateSubmit(t, run[1..]);
    }
  }

  lemma {:induction false} RunTo<J>(s: Pool<J>, run: seq<Action<J>>, k: nat)
    requires ValidRun(s, run) && k <= |run|
    ensures ValidRun(s, run[..k])
    ensures k < |run| ==> Enabled(After(s, run[..k]), run[k])
    decreases run
  {
    if k > 0 {
      assert run[..k][1..] == run[1..][..k - 1];
      RunTo(Apply(s, run[0]), run[1..], k - 1);
    }
  }

  lemma {:induction false} RunAndStep<J>(s: Pool<J>, run: seq<Action<J>>, a: Action<J>)
    requires ValidRun(s, run)
    ensures ValidRun(s, run + [a]) <==> Enabled(After(s, run), a)
    ensures Enabled(After(s, run), a) ==> After(s, run + [a]) == Apply(After(s, run), a)
    decreases run
  {
    if run == [] {
      assert run + [a] == [a] && [a][1..] == [];
    } else {
      assert (run + [a])[1..] == run[1..] + [a];
      RunAndStep(Apply(s, run[0]), run[1..], a);
    }
  }

  /** The channel is closed exactly by a close. */
  lemma {:induction false} ClosedIff<J>(s: Pool<J>, run: seq<Action<J>>)
    requires ValidRun(s, run)
    ensures After(s, run).closed <==> s.closed || exists i :: 0 <= i < |run| && run[i].Close?
    decreases run
  {
    if run != [] {
      ClosedIff(Apply(s, run[0]), run[1..]);
      assert forall i :: 0 <= i < |run[1..]| ==> run[1..][i] == run[i + 1];
      assert (exists i :: 0 <= i < |run| && run[i].Close?)
        <==> run[0].Close? || exists i :: 0 <= i < |run[1..]| && run[1..][i].Close?;
    }
  }

  /** The run up to its j-th step, a submit, which then takes its send case on the closed channel. */
  function Panicking<J>(run: seq<Action<J>>, j: nat): seq<Action<J>>
    requires j < |run| && IsSubmit(run[j])
  {
    run[..j] + [SendOnClosed(run[j].job)]
  }

  predicate MayPanicAt<J>(s: Pool<J>, run: seq<Action<J>>, j: nat) {
    && j < |run| && IsSubmit(run[j])
    && ValidRun(s, Panicking(run, j)) && After(s, Panicking(run, j)).panicked
  }

  lemma MayPanicAtIff<J>(workers: nat, queueSize: nat, run: seq<Action<J>>, j: nat)
    requires ValidRun(NewPool(workers, queueSize), run) && j < |run| && IsSubmit(run[j])
    ensures MayPanicAt(NewPool(workers, queueSize), run, j) <==> exists i :: 0 <= i < j && run[i].Close?
  {
    var s := NewPool<J>(workers, queueSize);
    RunTo(s, run, j);
    RunAndStep(s, run[..j], SendOnClosed(run[j].job));
    ClosedIff(s, run[..j]);
    assert forall i :: 0 <= i < j ==> run[..j][i] == run[i];
    hide ValidRun, After, NewPool;
  }

  /** No run without a submit after the close sends on the closed channel; and a run can be changed at one of its
      submits so that it does if and only if it has a submit after the close. */
  lemma SendOnClosedIff<J>(workers: nat, queueSize: nat, run: seq<Action<J>>)
    requires ValidRun(NewPool(workers, queueSize), run)
    ensures !SubmitsAfterClose(run) ==> !After(NewPool(workers, queueSize), run).panicked
    ensures SubmitsAfterClose(run) <==> exists j :: MayPanicAt(NewPool(workers, queueSize), run, j)
  {
    if !SubmitsAfterClose(run) {
      PanicNeedsLateSubmit(NewPool(workers, queueSize), run);
    }
    forall j: nat | j < |run| && IsSubmit(run[j])
      ensures MayPanicAt(NewPool(workers, queueSize), run, j) <==> exists i :: 0 <= i < j && run[i].Close?
    {
      MayPanicAtIff(workers, queueSize, run, j);
    }
    if SubmitsAfterClose(run) {
      var i, j :| 0 <= i < j < |run| && run[i].Close? && IsSubmit(run[j]);
      assert MayPanicAt(NewPool(workers, queueSize), run, j);
    }
  }

  function Weight(w: Worker): nat {
    match w
    case Idle => 1
    case Running(_) => 2
    case Exited => 0
  }

  function Live(workers: seq<Worker>): nat {
    if workers == [] then 0 else Live(workers[..|workers| - 1]) + Weight(workers[|workers| - 1])
  }

  /** Steps a pool that is shut down can still make. */
  function Work<J>(s: Pool<J>): nat {
    2 * |s.queue| + Live(s.workers)
  }

  lemma {:induction false} LiveUpdate(workers: seq<Worker>, w: nat, to: Worker)
    requires w < |workers|
    ensures Live(workers[w := to]) == Live(workers) + Weight(to) - Weight(workers[w])
  {
    var front := workers[..|workers| - 1];
    if w == |workers| - 1 {
      assert workers[w := to][..w] == front;
    } else {
      LiveUpdate(front, w, to);
      assert workers[w := to][..|workers| - 1] == front[w := to];
    }
  }

  predicate AllExited(workers: seq<Worker>) {
    forall w :: 0 <= w < |workers| ==> workers[w].Exited?
  }

  /** Steps of workers, which is all that happens in a closed pool nobody submits to. */
  predicate IsWork<J>(a: Action<J>) {
    a.Take? || a.Leave? || a.Complete?
  }

  lemma WorkShrinks<J>(s: Pool<J>, a: Action<J>)
    requires Inv(s) && s.closed && Enabled(s, a) && IsWork(a)
    ensures Work(Apply(s, a)) < Work(s) && Apply(s, a).closed
  {
    match a
    case Take(w) => LiveUpdate(s.workers, w, Running(|s.started|));
    case Leave(w) => LiveUpdate(s.workers, w, Exited);
    case Complete(w) => LiveUpdate(s.workers, w, Idle);
  }

  /** As long as a worker is left, one can move: leave if it is idle, complete if its job runs. */
  lemma WorkGoesOn<J>(s: Pool<J>) returns (a: Action<J>)
    requires Inv(s) && s.closed && !s.panicked && !AllExited(s.workers)
    ensures IsWork(a) && Enabled(s, a)
  {
    var w :| 0 <= w < |s.workers| && !s.workers[w].Exited?;
    a := if s.workers[w].Idle? then Leave(w) else Complete(w);
  }

  /** What is left once every worker is gone: each accepted job was completed or sits unstarted in the queue. */
  lemma AllAccounted<J>(s: Pool<J>)
    requires Inv(s) && AllExited(s.workers)
    ensures s.accepted == s.started + s.queue
    ensures forall t :: 0 <= t < |s.started| <==> t in s.completed
  {
    forall t | 0 <= t < |s.started| ensures t in s.completed {
      assert !Holds(s.workers, t);
    }
  }

  /** Shutdown drains: a run of a closed pool that nobody submits to is no longer than Work, and where it
      cannot go on, wg.Wait returns with every accepted job completed or still in the queue. */
  lemma {:induction false} ShutdownDrains<J>(s: Pool<J>, run: seq<Action<J>>)
    requires Inv(s) && s.closed && !s.panicked && ValidRun(s, run)
    requires forall i :: 0 <= i < |run| ==> IsWork(run[i])
    ensures var t := After(s, run);
            && |run| <= Work(s)
            && t.accepted == s.accepted
            && ((forall a: Action<J> :: IsWork(a) ==> !Enabled(t, a)) <==> AllExited(t.workers))
            && (AllExited(t.workers) ==> forall i :: 0 <= i < |t.started| <==> i in t.completed)
    decreases run
  {
    if run == [] {
      if !AllExited(s.workers) {
        var a := WorkGoesOn(s);
      } else {
        AllAccounted(s);
      }
    } else {
      WorkShrinks(s, run[0]);
      StepKeepsInv(s, run[0]);
      ShutdownDrains(Apply(s, run[0]), run[1..]);
    }
  }
}
