/** Running a batch of tool calls on goroutines and joining them over a counting channel
    (internal/infrastructure/http/handler/tool_handler.go:98-132). */
module BatchJoin {
  import opened Wrappers

  /** A goroutine: still to execute, holding what it will send, or done. */
  datatype Routine<E> = Ready | Sending(error: Option<E>) | Sent

  /** `slots` is the shared slice (None for nil), `channel` the buffered error channel. */
  datatype Join<R, E> = Join(routines: seq<Routine<E>>, slots: seq<Option<R>>, channel: seq<Option<E>>, received: nat)

  datatype Action = Execute(i: nat) | Send(i: nat) | Receive

  /** What executing each call gives; calls do not depend on each other. */
  type Outcomes<R, E> = seq<Result<R, E>>

  function Begin<R, E>(n: nat): Join<R, E> {
    Join(seq(n, i => Ready), seq(n, i => None), [], 0)
  }

  /** The channel's buffer has room for every goroutine. */
  predicate Enabled<R, E>(s: Join<R, E>, a: Action) {
    match a
    case Execute(i) => i < |s.routines| && s.routines[i].Ready?
    case Send(i) => i < |s.routines| && s.routines[i].Sending? && |s.channel| < |s.routines|
    case Receive => s.channel != [] && s.received < |s.routines|
  }

  function Apply<R, E>(outcomes: Outcomes<R, E>, s: Join<R, E>, a: Action): Join<R, E>
    requires Enabled(s, a) && |outcomes| == |s.slots| == |s.routines|
  {
    match a
    case Execute(i) =>
      (match outcomes[i]
       case Ok(value) => s.(slots := s.slots[i := Some(value)], routines := s.routines[i := Sending(None)])
       case Err(e) => s.(routines := s.routines[i := Sending(Some(e))]))
    case Send(i) => s.(channel := s.channel + [s.routines[i].error], routines := s.routines[i := Sent])
    case Receive => s.(channel := s.channel[1..], received := s.received + 1)
  }

  // ----- the reference: one call after the other -----

  /** The slot of a call: its result, or nil when it failed. */
  function SlotOf<R, E>(outcome: Result<R, E>): Option<R> {
    match outcome
    case Ok(value) => Some(value)
    case Err(_) => None
  }

  function Sequential<R, E>(outcomes: Outcomes<R, E>): seq<Option<R>> {
    if outcomes == [] then [] else [SlotOf(outcomes[0])] + Sequential(outcomes[1..])
  }

  lemma {:induction false} SequentialAt<R, E>(outcomes: Outcomes<R, E>, i: nat)
    ensures |Sequential(outcomes)| == |outcomes|
    ensures i < |outcomes| ==> Sequential(outcomes)[i] == SlotOf(outcomes[i])
  {
    if outcomes != [] {
      SequentialAt(outcomes[1..], if i > 0 then i - 1 else 0);
    }
  }

  // ----- the invariant -----

  function SentCount<E>(routines: seq<Routine<E>>): nat {
    if routines == [] then 0
    else SentCount(routines[..|routines| - 1]) + if routines[|routines| - 1].Sent? then 1 else 0
  }

  /** Goroutine i has written its slot if it is past executing, and nothing before. */
  ghost predicate SlotWritten<R, E>(outcomes: Outcomes<R, E>, s: Join<R, E>, i: nat)
    requires i < |s.routines| == |s.slots| == |outcomes|
  {
    s.slots[i] == if s.routines[i].Ready? then None else SlotOf(outcomes[i])
  }

  ghost predicate Inv<R, E>(outcomes: Outcomes<R, E>, s: Join<R, E>) {
    && |s.routines| == |s.slots| == |outcomes|
    && s.received + |s.channel| == SentCount(s.routines)
    && forall i :: 0 <= i < |s.routines| ==> SlotWritten(outcomes, s, i)
  }

  lemma {:induction false} SentUpdate<E>(routines: seq<Routine<E>>, i: nat, to: Routine<E>)
    requires i < |routines|
    ensures SentCount(routines[i := to])
         == SentCount(routines) + (if to.Sent? then 1 else 0) - (if routines[i].Sent? then 1 else 0)
  {
    var front := routines[..|routines| - 1];
    if i == |routines| - 1 {
      assert routines[i := to][..i] == front;
    } else {
      SentUpdate(front, i, to);
      assert routines[i := to][..|routines| - 1] == front[i := to];
    }
  }

  lemma {:induction false} SentBound<E>(routines: seq<Routine<E>>)
    ensures SentCount(routines) <= |routines|
    ensures SentCount(routines) == |routines| <==> forall i :: 0 <= i < |routines| ==> routines[i].Sent?
  {
    if routines != [] {
      var front := routines[..|routines| - 1];
      SentBound(front);
      assert (forall i :: 0 <= i < |routines| ==> routines[i].Sent?)
        <==> (forall i :: 0 <= i < |front| ==> front[i].Sent?) && routines[|routines| - 1].Sent?;
    }
  }

  lemma {:induction false} NoneSent<E>(n: nat)
    ensures SentCount<E>(seq(n, i => Ready)) == 0
  {
    if n > 0 {
      NoneSent<E>(n - 1);
      assert seq<Routine<E>>(n, i => Ready)[..n - 1] == seq<Routine<E>>(n - 1, i => Ready);
    }
  }

  lemma BeginInv<R, E>(outcomes: Outcomes<R, E>)
    ensures Inv(outcomes, Begin<R, E>(|outcomes|))
  {
    NoneSent<E>(|outcomes|);
  }

  lemma StepKeepsInv<R, E>(outcomes: Outcomes<R, E>, s: Join<R, E>, a: Action)
    requires Inv(outcomes, s) && Enabled(s, a)
    ensures Inv(outcomes, Apply(outcomes, s, a))
  {
    var t := Apply(outcomes, s, a);
    match a {
      case Execute(i) => SentUpdate(s.routines, i, t.routines[i]);
      case Send(i) => SentUpdate(s.routines, i, Sent);
      case Receive =>
    }
    forall i | 0 <= i < |t.routines| ensures SlotWritten(outcomes, t, i) {
      assert SlotWritten(outcomes, s, i);
    }
  }

  /** No send ever blocks: a goroutine that holds a value finds room in the channel. */
  lemma SendNeverBlocks<R, E>(outcomes: Outcomes<R, E>, s: Join<R, E>, i: nat)
    requires Inv(outcomes, s) && i < |s.routines| && s.routines[i].Sending?
    ensures Enabled(s, Send(i))
  {
    SentBound(s.routines);
  }

  /** After n receives every goroutine is done, the channel is empty and the slots are those of the sequential run. */
  lemma JoinedIsSequential<R, E>(outcomes: Outcomes<R, E>, s: Join<R, E>)
    requires Inv(outcomes, s) && s.received == |s.routines|
    ensures s.slots == Sequential(outcomes) && s.channel == []
    ensures forall i :: 0 <= i < |s.routines| ==> s.routines[i].Sent?
  {
    SentBound(s.routines);
    SequentialAt(outcomes, 0);
    forall i | 0 <= i < |s.slots| ensures s.slots[i] == Sequential(outcomes)[i] {
      SequentialAt(outcomes, i);
      assert SlotWritten(outcomes, s, i);
    }
  }

  // ----- every schedule ends -----

  function Left<E>(r: Routine<E>): nat {
    match r
    case Ready => 2
    case Sending(_) => 1
    case Sent => 0
  }

  function AllLeft<E>(routines: seq<Routine<E>>): nat {
    if routines == [] then 0 else AllLeft(routines[..|routines| - 1]) + Left(routines[|routines| - 1])
  }

  lemma {:induction false} LeftUpdate<E>(routines: seq<Routine<E>>, i: nat, to: Routine<E>)
    requires i < |routines|
    ensures AllLeft(routines[i := to]) == AllLeft(routines) + Left(to) - Left(routines[i])
  {
    var front := routines[..|routines| - 1];
    if i == |routines| - 1 {
      assert routines[i := to][..i] == front;
    } else {
      LeftUpdate(front, i, to);
      assert routines[i := to][..|routines| - 1] == front[i := to];
    }
  }

  function Work<R, E>(s: Join<R, E>): int {
    AllLeft(s.routines) + |s.routines| - s.received
  }

  lemma StepShrinksWork<R, E>(outcomes: Outcomes<R, E>, s: Join<R, E>, a: Action)
    requires Inv(outcomes, s) && Enabled(s, a)
    ensures Work(Apply(outcomes, s, a)) < Work(s) && Apply(outcomes, s, a).received <= |s.routines|
  {
    SentBound(Apply(outcomes, s, a).routines);
    SentBound(s.routines);
    StepKeepsInv(outcomes, s, a);
    match a
    case Execute(i) => LeftUpdate(s.routines, i, Apply(outcomes, s, a).routines[i]);
    case Send(i) => LeftUpdate(s.routines, i, Sent);
    case Receive =>
  }

  /** Before the n-th receive something can always move, so the collector is never stuck. */
  lemma NeverStuck<R, E>(outcomes: Outcomes<R, E>, s: Join<R, E>) returns (a: Action)
    requires Inv(outcomes, s) && s.received < |s.routines|
    ensures Enabled(s, a)
  {
    if s.channel != [] {
      a := Receive;
    } else {
      SentBound(s.routines);
      var i :| 0 <= i < |s.routines| && !s.routines[i].Sent?;
      a := if s.routines[i].Ready? then Execute(i) else Send(i);
    }
  }

  predicate ValidRun<R, E>(outcomes: Outcomes<R, E>, s: Join<R, E>, run: seq<Action>)
    requires |outcomes| == |s.slots| == |s.routines|
    decreases run
  {
    run == [] || (Enabled(s, run[0]) && ValidRun(outcomes, Apply(outcomes, s, run[0]), run[1..]))
  }

  function After<R, E>(outcomes: Outcomes<R, E>, s: Join<R, E>, run: seq<Action>): Join<R, E>
    requires |outcomes| == |s.slots| == |s.routines| && ValidRun(outcomes, s, run)
    decreases run
  {
    if run == [] then s else After(outcomes, Apply(outcomes, s, run[0]), run[1..])
  }

  lemma {:induction false} RunKeepsInv<R, E>(outcomes: Outcomes<R, E>, s: Join<R, E>, run: seq<Action>)
    requires Inv(outcomes, s) && s.received <= |s.routines| && ValidRun(outcomes, s, run)
    ensures var t := After(outcomes, s, run);
            Inv(outcomes, t) && t.received <= |t.routines| && |t.routines| == |s.routines| && |run| + Work(t) <= Work(s)
    decreases run
  {
    if run != [] {
      StepKeepsInv(outcomes, s, run[0]);
      StepShrinksWork(outcomes, s, run[0]);
      RunKeepsInv(outcomes, Apply(outcomes, s, run[0]), run[1..]);
    }
  }

  lemma {:induction false} WorkAtStart<E>(n: nat)
    ensures AllLeft<E>(seq(n, i => Ready)) == 2 * n
  {
    if n > 0 {
      WorkAtStart<E>(n - 1);
      assert seq<Routine<E>>(n, i => Ready)[..n - 1] == seq<Routine<E>>(n - 1, i => Ready);
    }
  }

  lemma WorkIsLeft<R, E>(s: Join<R, E>)
    requires s.received <= |s.routines|
    ensures Work(s) >= 0
  {
  }

  /** Every schedule of n goroutines and the collector takes at most 3n steps; where it cannot go on, the collector
      has received n times and the results are those of running the calls one after the other. */
  lemma EveryScheduleJoins<R, E>(outcomes: Outcomes<R, E>, run: seq<Action>)
    requires ValidRun(outcomes, Begin<R, E>(|outcomes|), run)
    ensures var t := After(outcomes, Begin(|outcomes|), run);
            && |run| <= 3 * |outcomes|
            && ((forall a :: !Enabled(t, a)) ==> t.received == |outcomes|)
            && (t.received == |outcomes| ==> t.slots == Sequential(outcomes))
  {
    var s := Begin<R, E>(|outcomes|);
    BeginInv(outcomes);
    WorkAtStart<E>(|outcomes|);
    RunKeepsInv(outcomes, s, run);
    var t := After(outcomes, s, run);
    WorkIsLeft(t);
    if t.received == |outcomes| {
      JoinedIsSequential(outcomes, t);
    } else {
      var a := NeverStuck(outcomes, t);
    }
  }
}
