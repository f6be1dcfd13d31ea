/** The pool as an object: each method is one select of the source, free to pick any case that is ready. */
module PoolObjects {
  import opened Wrappers
  import opened WorkerPool

  class PoolObject<J> {
    var capacity: nat
    var queue: seq<J>
    var parked: seq<J>
    var workers: seq<Worker>
    var cancelled: bool
    var closed: bool
    var panicked: bool
    ghost var accepted: seq<J>
    var started: nat
    ghost var history: seq<J>
    ghost var completed: set<nat>

    ghost function State(): Pool<J>
      reads this
    {
      Pool(capacity, queue, parked, workers, cancelled, closed, panicked, accepted, history, completed)
    }

    ghost predicate Valid()
      reads this
    {
      started == |history| && Inv(State())
    }

    constructor (workers: nat, queueSize: nat)
      ensures Valid() && State() == NewPool(workers, queueSize)
    {
      capacity, queue, parked := queueSize, [], [];
      this.workers := seq(workers, i => Idle);
      cancelled, closed, panicked := false, false, false;
      accepted, history, completed, started := [], [], {}, 0;
      new;
      NewPoolInv<J>(workers, queueSize);
    }

    /** Submit's select; `waiting` names a worker blocked on the empty channel, if there is one. */
    method Submit(job: J, waiting: Option<nat>) returns (ok: bool, ghost step: Action<J>)
      requires Valid() && !panicked
      requires waiting.Some? ==> IdleAt(workers, waiting.value) && queue == [] && parked == []
      modifies this
      ensures IsSubmit(step) && Enabled(old(State()), step) && State() == Apply(old(State()), step)
      ensures ok == (step.Accept? || step.HandOver?) && (panicked <==> step.SendOnClosed?)
      ensures !ok && !panicked ==> cancelled || |queue| == capacity
      ensures Valid()
    {
      hide JobsPlaced;
      ok := false;
      if {
        case closed =>
          step := SendOnClosed(job);
          panicked := true;
        case !closed && |queue| < capacity =>
          step := Accept(job);
          ok := true;
          queue := queue + [job];
          accepted := accepted + [job];
        case !closed && waiting.Some? =>
          step := HandOver(job, waiting.value);
          ok := true;
          workers := workers[waiting.value := Running(started)];
          started := started + 1;
          accepted, history := accepted + [job], history + [job];
        case cancelled =>
          step := Refuse(job);
        case |queue| == capacity =>
          step := Refuse(job);
      }
      StepKeepsInv(old(State()), step);
    }

    /** SubmitWait's select: the caller parks when neither case is ready. */
    method SubmitWait(job: J) returns (ok: bool, ghost step: Action<J>)
      requires Valid() && !panicked
      modifies this
      ensures IsSubmit(step) && Enabled(old(State()), step) && State() == Apply(old(State()), step)
      ensures ok == step.Accept? && (step.Refuse? ==> cancelled)
      ensures Valid()
    {
      hide JobsPlaced;
      ok := false;
      if {
        case closed =>
          step := SendOnClosed(job);
          panicked := true;
        case !closed && |queue| < capacity =>
          step := Accept(job);
          ok := true;
          queue := queue + [job];
          accepted := accepted + [job];
        case cancelled =>
          step := Refuse(job);
        case !closed && !cancelled && |queue| == capacity =>
          step := Park(job);
          parked := parked + [job];
      }
      StepKeepsInv(old(State()), step);
    }

    /** A receive by an idle worker, which then runs the job. */
    method Receive(w: nat) returns (ghost step: Action<J>)
      requires Valid() && !panicked && IdleAt(workers, w) && (queue != [] || parked != [])
      modifies this
      ensures step == Take(w) && Enabled(old(State()), step) && State() == Apply(old(State()), step)
      ensures Valid()
    {
      hide JobsPlaced;
      step := Take(w);
      if parked != [] {
        queue := queue + [parked[0]];
        accepted := accepted + [parked[0]];
        parked := parked[1..];
      }
      workers := workers[w := Running(started)];
      started := started + 1;
      history := history + [queue[0]];
      queue := queue[1..];
      StepKeepsInv(old(State()), step);
    }

    /** One round of a worker that has not exited: its select when it is idle, the end of its job when it runs. */
    method WorkerStep(w: nat) returns (ghost step: Action<J>)
      requires Valid() && !panicked && w < |workers| && !workers[w].Exited?
      requires workers[w].Idle? ==> cancelled || queue != [] || parked != []
      modifies this
      ensures IsWork(step) && Enabled(old(State()), step) && State() == Apply(old(State()), step)
      ensures Valid()
    {
      if {
        case workers[w].Running? =>
          step := Complete(w);
          completed := completed + {workers[w].job};
          workers := workers[w := Idle];
          StepKeepsInv(old(State()), step);
        case workers[w].Idle? && cancelled =>
          step := Leave(w);
          workers := workers[w := Exited];
          StepKeepsInv(old(State()), step);
        case workers[w].Idle? && (queue != [] || parked != []) =>
          step := Receive(w);
      }
    }

    /** cancel, close, and wg.Wait under every schedule of the workers, each of whose jobs returns. */
    method Shutdown()
      requires Valid() && !closed && !panicked
      modifies this
      ensures Valid() && closed && !panicked && AllExited(workers)
      ensures old(accepted) == accepted == history + queue
      ensures forall t :: 0 <= t < |history| <==> t in completed
    {
      ghost var before := State();
      cancelled, parked := true, [];
      StepKeepsInv(before, Cancel);
      ghost var mid := State();
      closed := true;
      StepKeepsInv(mid, Close);
      while exists w :: 0 <= w < |workers| && !workers[w].Exited?
        invariant Valid() && closed && !panicked && accepted == old(accepted)
        decreases Work(State())
      {
        var w :| 0 <= w < |workers| && !workers[w].Exited?;
        ghost var now := State();
        ghost var step := WorkerStep(w);
        WorkShrinks(now, step);
      }
      AllAccounted(State());
    }
  }
}
