/** The tool registry, a token's permission for a tool, and the execution of one call
    (internal/application/usecase/tool/tool_registry.go, internal/domain/entity/token.go,
    internal/application/usecase/tool/execute_tool.go). */
module ToolRegistry {
  import opened Wrappers
  import opened ChatTypes

  /** A tool as the registry knows it. */
  datatype Tool = Tool(name: string, definition: string)

  /** The token may use the tool: no restriction, the wildcard, or the name itself. */
  predicate MayUse(allowed: seq<string>, name: string) {
    allowed == [] || "*" in allowed || name in allowed
  }

  /** Token.CanUseTool. */
  method CanUseTool(allowed: seq<string>, name: string) returns (yes: bool)
    ensures yes == MayUse(allowed, name)
  {
    if |allowed| == 0 {
      return true;
    }
    for i := 0 to |allowed|
      invariant "*" !in allowed[..i] && name !in allowed[..i]
    {
      if allowed[i] == name || allowed[i] == "*" {
        return true;
      }
    }
    assert allowed[..|allowed|] == allowed;
    return false;
  }

  class Registry {
    var tools: map<string, Tool>

    /** Tools are kept under their own names. */
    predicate Valid()
      reads this
    {
      forall n :: n in tools ==> tools[n].name == n
    }

    constructor ()
      ensures Valid() && tools == map[]
    {
      tools := map[];
    }

    method Register(tool: Tool)
      requires Valid()
      modifies this
      ensures Valid() && tools == old(tools)[tool.name := tool]
    {
      tools := tools[tool.name := tool];
    }

    method RegisterAll(ts: seq<Tool>)
      requires Valid()
      modifies this
      ensures Valid() && tools == Registered(old(tools), ts)
    {
      for i := 0 to |ts|
        invariant Valid() && tools == Registered(old(tools), ts[..i])
      {
        Register(ts[i]);
        assert ts[..i + 1][..i] == ts[..i];
      }
      assert ts[..|ts|] == ts;
    }

    method Get(name: string) returns (tool: Option<Tool>)
      ensures tool == if name in tools then Some(tools[name]) else None
    {
      tool := if name in tools then Some(tools[name]) else None;
    }

    /** The tools whose name is in `names`, in any order the map is walked in. */
    method Collect(names: set<string>) returns (listed: seq<Tool>)
      requires Valid()
      ensures IsListing(tools, names, listed)
    {
      listed := [];
      var left := tools.Keys;
      while left != {}
        invariant left <= tools.Keys
        invariant forall t :: t in listed <==> t.name in tools.Keys - left && t.name in names && tools[t.name] == t
        invariant forall i, j :: 0 <= i < j < |listed| ==> listed[i].name != listed[j].name
        decreases left
      {
        var name :| name in left;
        if name in names {
          listed := listed + [tools[name]];
        }
        left := left - {name};
      }
    }

    method ListForToken(allowed: seq<string>) returns (listed: seq<Tool>)
      requires Valid()
      ensures IsListing(tools, Usable(tools, allowed), listed)
    {
      if |allowed| == 0 {
        listed := Collect(tools.Keys);
        return;
      }
      var names: set<string> := {};
      for i := 0 to |allowed|
        invariant "*" !in allowed[..i]
        invariant forall n :: n in names <==> n in allowed[..i]
      {
        if allowed[i] == "*" {
          listed := Collect(tools.Keys);
          return;
        }
        names := names + {allowed[i]};
      }
      assert allowed[..|allowed|] == allowed;
      listed := Collect(names);
    }
  }

  /** The registered names that the token may use. */
  function Usable(tools: map<string, Tool>, allowed: seq<string>): set<string> {
    set n | n in tools.Keys && MayUse(allowed, n)
  }

  function Registered(tools: map<string, Tool>, ts: seq<Tool>): map<string, Tool> {
    if ts == [] then tools else Registered(tools, ts[..|ts| - 1])[ts[|ts| - 1].name := ts[|ts| - 1]]
  }

  /** Each registered tool with one of the names, once. */
  ghost predicate IsListing(tools: map<string, Tool>, names: set<string>, listed: seq<Tool>) {
    && (forall t :: t in listed <==> t.name in tools && t.name in names && tools[t.name] == t)
    && (forall i, j :: 0 <= i < j < |listed| ==> listed[i].name != listed[j].name)
  }

  /** The listing for a token names exactly the registered tools that the token may use. */
  lemma ListingAgreesWithPermission(tools: map<string, Tool>, allowed: seq<string>, listed: seq<Tool>, name: string)
    requires forall n :: n in tools ==> tools[n].name == n
    requires IsListing(tools, Usable(tools, allowed), listed)
    ensures (exists t :: t in listed && t.name == name) <==> name in tools && MayUse(allowed, name)
  {
    if name in tools && MayUse(allowed, name) {
      assert tools[name] in listed;
    }
  }

  // ----- executing one call -----

  datatype Refusal = NoAccess | NotFound | BadArguments | Invalid | Failed

  /** What the outside decides about a call, in the order it is asked. */
  datatype Answers = Answers(parses: string -> bool, validates: ToolCall -> bool,
                             execute: ToolCall -> Result<string, string>)

  /** The result of a call, or the first thing that stood against it. */
  function ExecuteTool(tools: map<string, Tool>, allowed: Option<seq<string>>, outside: Answers, call: ToolCall)
    : (r: Result<string, Refusal>)
    ensures r.Ok? <==>
              && (allowed.None? || MayUse(allowed.value, call.name))
              && call.name in tools && outside.parses(call.arguments) && outside.validates(call)
              && outside.execute(call).Ok?
    ensures r.Ok? ==> r == Ok(outside.execute(call).value)
    ensures r == Err(NoAccess) <==> allowed.Some? && !MayUse(allowed.value, call.name)
    ensures r == Err(NotFound) ==> call.name !in tools && (allowed.None? || MayUse(allowed.value, call.name))
    ensures r == Err(BadArguments) ==> call.name in tools && !outside.parses(call.arguments)
    ensures r == Err(Invalid) ==> outside.parses(call.arguments) && !outside.validates(call)
    ensures r == Err(Failed) ==> outside.validates(call) && outside.execute(call).Err?
  {
    if allowed.Some? && !MayUse(allowed.value, call.name) then Err(NoAccess)
    else if call.name !in tools then Err(NotFound)
    else if !outside.parses(call.arguments) then Err(BadArguments)
    else if !outside.validates(call) then Err(Invalid)
    else
      match outside.execute(call)
      case Ok(output) => Ok(output)
      case Err(_) => Err(Failed)
  }
}
