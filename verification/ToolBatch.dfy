/** The batch handler with its shared slice: one loop that plays any schedule of the goroutines and the collector
    (internal/infrastructure/http/handler/tool_handler.go:108-131). */
module ToolBatch {
  import opened Wrappers
  import opened ChatTypes
  import opened ToolRegistry
  import opened BatchJoin

  function OutcomesOf(tools: map<string, Tool>, allowed: Option<seq<string>>, outside: Answers, calls: seq<ToolCall>)
    : Outcomes<string, Refusal>
  {
    seq(|calls|, i requires 0 <= i < |calls| => ExecuteTool(tools, allowed, outside, calls[i]))
  }

  /** The call goes through: permitted, registered, well-formed, valid, and executed without error. */
  predicate Succeeds(tools: map<string, Tool>, allowed: Option<seq<string>>, outside: Answers, call: ToolCall) {
    && (allowed.None? || allowed.value == [] || "*" in allowed.value || call.name in allowed.value)
    && call.name in tools && outside.parses(call.arguments) && outside.validates(call)
    && outside.execute(call).Ok?
  }

  lemma SlotsAreOfTheirCalls(tools: map<string, Tool>, allowed: Option<seq<string>>, outside: Answers,
                             calls: seq<ToolCall>)
    ensures var slots := Sequential(OutcomesOf(tools, allowed, outside, calls));
            && |slots| == |calls|
            && forall i :: 0 <= i < |calls| ==>
                 slots[i] == if Succeeds(tools, allowed, outside, calls[i]) then Some(outside.execute(calls[i]).value)
                             else None
  {
    var outcomes := OutcomesOf(tools, allowed, outside, calls);
    SequentialAt(outcomes, 0);
    forall i | 0 <= i < |calls|
      ensures Sequential(outcomes)[i] == if Succeeds(tools, allowed, outside, calls[i])
                                         then Some(outside.execute(calls[i]).value) else None
    {
      SequentialAt(outcomes, i);
    }
  }

  /** Whatever the schedule, slot i holds the result of call i, or nil when that call failed. */
  method ExecuteToolBatch(tools: map<string, Tool>, allowed: Option<seq<string>>, outside: Answers,
                          calls: seq<ToolCall>)
    returns (results: array<Option<string>>)
    ensures fresh(results)
    ensures results[..] == Sequential(OutcomesOf(tools, allowed, outside, calls))
    ensures results.Length == |calls|
    ensures forall i :: 0 <= i < |calls| ==>
              results[i] == if Succeeds(tools, allowed, outside, calls[i]) then Some(outside.execute(calls[i]).value)
                            else None
  {
    var n := |calls|;
    ghost var outcomes := OutcomesOf(tools, allowed, outside, calls);
    results := new Option<string>[n](i => None);
    var routines: seq<Routine<Refusal>> := seq(n, i => Ready);
    var channel: seq<Option<Refusal>> := [];
    var received := 0;
    assert results[..] == seq(n, i => None);
    BeginInv(outcomes);
    while received < n
      invariant 0 <= received <= n == |routines| == results.Length
      invariant Inv(outcomes, Join(routines, results[..], channel, received))
      decreases Work(Join(routines, results[..], channel, received))
    {
      ghost var s := Join(routines, results[..], channel, received);
      ghost var a := NeverStuck(outcomes, s);
      if {
        case channel != [] =>
          a := Action.Receive;
          channel := channel[1..];
          received := received + 1;
        case exists i :: 0 <= i < n && routines[i].Ready? =>
          var i :| 0 <= i < n && routines[i].Ready?;
          a := Action.Execute(i);
          var r := ExecuteTool(tools, allowed, outside, calls[i]);
          if r.Err? {
            routines := routines[i := Sending(Some(r.error))];
          } else {
            results[i] := Some(r.value);
            routines := routines[i := Sending(None)];
          }
        case exists i :: 0 <= i < n && routines[i].Sending? && |channel| < n =>
          var i :| 0 <= i < n && routines[i].Sending? && |channel| < n;
          a := Action.Send(i);
          channel := channel + [routines[i].error];
          routines := routines[i := Sent];
      }
      assert Apply(outcomes, s, a) == Join(routines, results[..], channel, received);
      StepKeepsInv(outcomes, s, a);
      StepShrinksWork(outcomes, s, a);
    }
    JoinedIsSequential(outcomes, Join(routines, results[..], channel, received));
    SlotsAreOfTheirCalls(tools, allowed, outside, calls);
    assert forall i :: 0 <= i < n ==> results[..][i] == results[i];
  }
}
