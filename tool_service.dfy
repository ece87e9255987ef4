/**
 * The tool registry: a map from tool name to its declaration and handler, and the execution of
 * a batch of tool calls against it.
 */
module ToolRegistry {
  import opened Wrappers
  import opened Text
  import opened Models

  /** The arguments a handler receives: the parsed JSON object, left abstract as a map. */
  type Arguments = map<string, string>

  /** What a foreign call (the JSON parser, a handler) does: return a value or throw with a message. */
  datatype Outcome<+T> = Returned(value: T) | Threw(message: string)

  /** A handler: its (possibly null) result is rendered as text. */
  type Handler = Arguments -> Outcome<Option<string>>

  /** The JSON parser used on a call's argument text. */
  type ArgumentParser = string -> Outcome<Arguments>

  /** A registered tool: the declaration it was registered with and its handler. */
  datatype ToolDefinition = ToolDefinition(info: FunctionInfo, handler: Handler)

  /** The error raised when a tool to remove or update is not registered. */
  function NotRegistered(name: string): Exception {
    KeyNotFound("Tool '" + name + "' is not registered.")
  }

  /** How a registered tool is listed: under its key, with an "object" schema of its parameters. */
  function Listing(name: string, def: ToolDefinition): ToolInfo
    requires def.info.parameters.Some?
  {
    var p := def.info.parameters.value;
    ToolInfo("function", FunctionInfo(name, def.info.description, Some(Parameters("object", p.properties, p.required))))
  }

  /** The response to one tool call. Null arguments are parsed as `{}`. */
  function Respond(tools: map<string, ToolDefinition>, parse: ArgumentParser, m: ToolMessage): (r: ToolResponse)
    ensures r.id == m.id && r.kind == m.kind
    ensures m.fn.name !in tools ==> r == ToolResponse(m.id, m.kind, None, Some("Tool '" + m.fn.name + "' not registered."))
  {
    if m.fn.name !in tools then
      ToolResponse(m.id, m.kind, None, Some("Tool '" + m.fn.name + "' not registered."))
    else
      match parse(m.fn.arguments.GetOr("{}"))
      case Threw(msg) => Failed(m, msg)
      case Returned(args) =>
        match tools[m.fn.name].handler(args)
        case Threw(msg) => Failed(m, msg)
        case Returned(v) => ToolResponse(m.id, m.kind, v, None)
  }

  /** The response to a call whose argument parsing or handler threw. */
  function Failed(m: ToolMessage, message: string): ToolResponse {
    ToolResponse(m.id, m.kind, None, Some("Error executing tool '" + m.fn.name + "': " + message))
  }

  /** The responses to a batch of calls, one per call, in the order of the calls. */
  function Responses(tools: map<string, ToolDefinition>, parse: ArgumentParser, ms: seq<ToolMessage>): (rs: seq<ToolResponse>)
    ensures |rs| == |ms|
    ensures forall i | 0 <= i < |ms| :: rs[i] == Respond(tools, parse, ms[i])
  {
    seq(|ms|, i requires 0 <= i < |ms| => Respond(tools, parse, ms[i]))
  }

  class ToolService {
    var tools: map<string, ToolDefinition>

    /** The registry starts empty. */
    constructor()
      ensures tools == map[]
    {
      tools := map[];
    }

    /** Whether a tool of that name is registered. */
    method IsToolRegistered(name: string) returns (r: bool)
      ensures r <==> name in tools
    {
      r := name in tools;
    }

    /** Adds the tool under its declared name; a name already registered keeps its old entry. */
    method RegisterTool(info: FunctionInfo, handler: Handler)
      modifies this
      ensures info.name in old(tools) ==> tools == old(tools)
      ensures info.name !in old(tools) ==> tools == old(tools)[info.name := ToolDefinition(info, handler)]
    {
      if info.name !in tools {
        tools := tools[info.name := ToolDefinition(info, handler)];
      }
    }

    /** Removes the tool; an unknown name throws and changes nothing. */
    method UnregisterTool(name: string) returns (err: Option<Exception>)
      modifies this
      ensures name in old(tools) ==> err == None && tools == old(tools) - {name}
      ensures name !in old(tools) ==> err == Some(NotRegistered(name)) && tools == old(tools)
    {
      if name !in tools {
        return Some(NotRegistered(name));
      }
      tools := tools - {name};
      err := None;
    }

    /**
     * Replaces the entry under `name` (keeping that key even if the new declaration has another
     * name); an unknown name throws and changes nothing.
     */
    method UpdateTool(name: string, info: FunctionInfo, handler: Handler) returns (err: Option<Exception>)
      modifies this
      ensures name in old(tools) ==> err == None && tools == old(tools)[name := ToolDefinition(info, handler)]
      ensures name !in old(tools) ==> err == Some(NotRegistered(name)) && tools == old(tools)
      ensures tools.Keys == old(tools).Keys
    {
      if name !in tools {
        return Some(NotRegistered(name));
      }
      tools := tools[name := ToolDefinition(info, handler)];
      err := None;
    }

    /**
     * Lists every registered tool once, in no particular order. A tool registered without a
     * parameter schema makes the listing throw.
     */
    method GetRegisteredTools() returns (r: Result<seq<ToolInfo>>)
      ensures r.Err? <==> exists k | k in tools :: tools[k].info.parameters.None?
      ensures r.Err? ==> r.error == NullReference
      ensures r.Ok? ==> |r.value| == |tools.Keys|
      ensures r.Ok? ==> forall k | k in tools :: Listing(k, tools[k]) in r.value
      ensures r.Ok? ==> forall i | 0 <= i < |r.value| ::
                r.value[i].fn.name in tools && r.value[i] == Listing(r.value[i].fn.name, tools[r.value[i].fn.name])
      ensures r.Ok? ==> forall i, j | 0 <= i < j < |r.value| :: r.value[i].fn.name != r.value[j].fn.name
    {
      var listed: seq<ToolInfo> := [];
      var rest := tools.Keys;
      while rest != {}
        invariant rest <= tools.Keys
        invariant |listed| + |rest| == |tools.Keys|
        invariant forall k | k in tools && k !in rest :: tools[k].info.parameters.Some? && Listing(k, tools[k]) in listed
        invariant forall i | 0 <= i < |listed| ::
                    listed[i].fn.name in tools && listed[i].fn.name !in rest
                    && tools[listed[i].fn.name].info.parameters.Some?
                    && listed[i] == Listing(listed[i].fn.name, tools[listed[i].fn.name])
        invariant forall i, j | 0 <= i < j < |listed| :: listed[i].fn.name != listed[j].fn.name
        decreases |rest|
      {
        var k :| k in rest;
        if tools[k].info.parameters.None? {
          return Err(NullReference);
        }
        listed := listed + [Listing(k, tools[k])];
        rest := rest - {k};
      }
      return Ok(listed);
    }

    /**
     * Runs every call against the registry and collects one response per call. The calls run
     * concurrently, so the order of the responses is not promised: only that they are the
     * responses to the calls, each once.
     */
    method ExecuteToolCalls(calls: seq<ToolMessage>, parse: ArgumentParser) returns (rs: seq<ToolResponse>)
      ensures multiset(rs) == multiset(Responses(tools, parse, calls))
    {
      rs := [];
      for i := 0 to |calls|
        invariant rs == Responses(tools, parse, calls[..i])
      {
        rs := rs + [Respond(tools, parse, calls[i])];
        assert calls[..i + 1] == calls[..i] + [calls[i]];
      }
      assert calls[..|calls|] == calls;
    }
  }

  // ---------------------------------------------------------------------------------------------
  // Properties

  /**
   * Each call's response carries the call's id and kind; an unregistered name yields the "not
   * registered" error, and a registered one yields the handler's result or a wrapped error.
   */
  lemma ResponseOutcomes(tools: map<string, ToolDefinition>, parse: ArgumentParser, m: ToolMessage)
    ensures Respond(tools, parse, m).id == m.id && Respond(tools, parse, m).kind == m.kind
    ensures m.fn.name !in tools <==> Respond(tools, parse, m).error == Some("Tool '" + m.fn.name + "' not registered.")
    ensures m.fn.name in tools ==>
      (Respond(tools, parse, m).error.Some? <==>
        || parse(m.fn.arguments.GetOr("{}")).Threw?
        || tools[m.fn.name].handler(parse(m.fn.arguments.GetOr("{}")).value).Threw?)
    ensures Respond(tools, parse, m).error.Some? ==> Respond(tools, parse, m).result.None?
  {
  }
}
