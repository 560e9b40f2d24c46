/** ToolRegistry of src/buddy_bot/tools/registry.py. A handler is named by
    an id; what a handler does with an input is the parameter `run`, and
    json.dumps is the parameter `dumps`. */
module Registry {
  import opened Wrappers
  import opened Json

  datatype ToolEntry = ToolEntry(name: string, description: string, inputSchema: Json, handler: string)

  /** One tool definition in Messages API form. */
  datatype ToolDefinition = ToolDefinition(name: string, description: string, inputSchema: Json)

  /** What awaiting a handler gives: a string, any other value, or an
      exception with its message. */
  datatype HandlerOutcome = ReturnedText(text: string) | ReturnedValue(value: Json) | RaisedError(message: string)

  /** What dispatch returns, and which handler it called, if any. */
  datatype Dispatched = Dispatched(text: string, called: Option<string>)

  function ErrorJson(message: string): Json {
    Obj([("error", Str(message))])
  }

  /** How a handler's outcome becomes the tool's text: a string as it is,
      another value JSON-encoded, an exception as an error object naming the
      tool. Shared by the registry and the MCP server's call_tool. */
  function OutcomeText(name: string, outcome: HandlerOutcome, dumps: Json -> string): (text: string)
    ensures outcome.ReturnedText? ==> text == outcome.text
    ensures outcome.ReturnedValue? ==> text == dumps(outcome.value)
    ensures outcome.RaisedError? ==> text == dumps(ErrorJson("Tool " + name + " failed: " + outcome.message))
  {
    match outcome
    case ReturnedText(t) => t
    case ReturnedValue(v) => dumps(v)
    case RaisedError(m) => dumps(ErrorJson("Tool " + name + " failed: " + m))
  }

  class ToolRegistry {
    var tools: map<string, ToolEntry>
    /** The dict's keys in insertion order. */
    var order: seq<string>

    ghost predicate Valid()
      reads this
    {
      (forall i, j :: 0 <= i < j < |order| ==> order[i] != order[j]) &&
      (forall k :: k in tools <==> k in order) &&
      (forall k :: k in tools ==> tools[k].name == k)
    }

    constructor ()
      ensures Valid() && tools == map[] && order == []
    {
      tools, order := map[], [];
    }

    /** register: the entry is stored under its name, replacing an earlier
        one, which keeps its place in the order. */
    method Register(name: string, description: string, inputSchema: Json, handler: string)
      requires Valid()
      modifies this
      ensures Valid()
      ensures tools == old(tools)[name := ToolEntry(name, description, inputSchema, handler)]
      ensures order == if name in old(tools) then old(order) else old(order) + [name]
      ensures order == Appended(old(order), name)
    {
      if name !in tools {
        order := order + [name];
      }
      tools := tools[name := ToolEntry(name, description, inputSchema, handler)];
    }

    /** get_tool_definitions: one definition per registered name, in
        first-registration order. */
    function Definitions(): (defs: seq<ToolDefinition>)
      reads this
      requires Valid()
      ensures |defs| == |order|
      ensures forall i :: 0 <= i < |order| ==>
        defs[i] == ToolDefinition(order[i], tools[order[i]].description, tools[order[i]].inputSchema)
    {
      DefinitionsOf(tools, order)
    }

    /** dispatch: an unknown name is an error object and no handler runs;
        otherwise the named entry's handler runs on the input and its outcome
        becomes the text. dispatch never raises and reads the table only. */
    function Dispatch(name: string, input: Json, run: (string, Json) -> HandlerOutcome, dumps: Json -> string): (r: Dispatched)
      reads this
      ensures name !in tools ==> r == Dispatched(dumps(ErrorJson("Unknown tool: " + name)), None)
      ensures name in tools ==> r.called == Some(tools[name].handler)
      ensures name in tools ==> r.text == OutcomeText(name, run(tools[name].handler, input), dumps)
    {
      if name !in tools then Dispatched(dumps(ErrorJson("Unknown tool: " + name)), None)
      else
        var entry := tools[name];
        Dispatched(OutcomeText(name, run(entry.handler, input), dumps), Some(entry.handler))
    }
  }

  /** The key order after one more assignment. */
  function Appended(order: seq<string>, name: string): seq<string> {
    if name in order then order else order + [name]
  }

  /** The dict's key order after registering `names` in turn: a new name
      goes to the end, a name already present keeps its place. */
  function OrderAfter(order: seq<string>, names: seq<string>): seq<string>
    decreases |names|
  {
    if names == [] then order
    else OrderAfter(Appended(order, names[0]), names[1..])
  }

  /** Registering three names in turn, one step after the other. */
  lemma OrderAfterThree(o0: seq<string>, o1: seq<string>, o2: seq<string>, o3: seq<string>, a: string, b: string, c: string)
    requires o1 == Appended(o0, a) && o2 == Appended(o1, b) && o3 == Appended(o2, c)
    ensures o3 == OrderAfter(o0, [a, b, c])
  {
    assert [a, b, c][1..] == [b, c] && [b, c][1..] == [c] && [c][1..] == [];
    assert OrderAfter(o2, [c]) == OrderAfter(o3, []) == o3;
    assert OrderAfter(o1, [b, c]) == OrderAfter(o2, [c]);
    assert OrderAfter(o0, [a, b, c]) == OrderAfter(o1, [b, c]);
  }

  /** Registering four names in turn, one step after the other. */
  lemma OrderAfterFour(o0: seq<string>, o1: seq<string>, o2: seq<string>, o3: seq<string>, o4: seq<string>,
                       a: string, b: string, c: string, d: string)
    requires o1 == Appended(o0, a) && o2 == Appended(o1, b) && o3 == Appended(o2, c) && o4 == Appended(o3, d)
    ensures o4 == OrderAfter(o0, [a, b, c, d])
  {
    OrderAfterThree(o1, o2, o3, o4, b, c, d);
    assert [a, b, c, d][1..] == [b, c, d];
    assert OrderAfter(o0, [a, b, c, d]) == OrderAfter(o1, [b, c, d]);
  }

  /** Names that are all new, and distinct, are appended in their own order. */
  lemma {:induction false} OrderAfterFresh(order: seq<string>, names: seq<string>)
    requires forall k :: k in names ==> k !in order
    requires forall i, j :: 0 <= i < j < |names| ==> names[i] != names[j]
    ensures OrderAfter(order, names) == order + names
    decreases |names|
  {
    if names != [] {
      var next := order + [names[0]];
      forall k | k in names[1..] ensures k !in next {
        var j :| 0 <= j < |names[1..]| && names[1..][j] == k;
        assert names[j + 1] == k;
      }
      OrderAfterFresh(next, names[1..]);
      assert next + names[1..] == order + names;
    }
  }

  function DefinitionsOf(tools: map<string, ToolEntry>, names: seq<string>): (defs: seq<ToolDefinition>)
    requires forall k :: k in names ==> k in tools
    ensures |defs| == |names|
    ensures forall i :: 0 <= i < |names| ==>
      defs[i] == ToolDefinition(names[i], tools[names[i]].description, tools[names[i]].inputSchema)
  {
    if names == [] then []
    else [ToolDefinition(names[0], tools[names[0]].description, tools[names[0]].inputSchema)] + DefinitionsOf(tools, names[1..])
  }

  /** Each registered name has exactly one definition. */
  lemma DefinitionsUnique(r: ToolRegistry, name: string)
    requires r.Valid() && name in r.tools
    ensures exists i :: 0 <= i < |r.Definitions()| && r.Definitions()[i].name == name
    ensures forall i, j :: 0 <= i < j < |r.Definitions()| ==> r.Definitions()[i].name != r.Definitions()[j].name
  {
    var i :| 0 <= i < |r.order| && r.order[i] == name;
    assert r.Definitions()[i].name == name;
  }

  /** Registering a name again replaces its handler and description but not
      its position, and the count of definitions stays the same. */
  method ReRegister(name: string) returns (before: seq<ToolDefinition>, after: seq<ToolDefinition>, called: Option<string>)
    ensures |before| == |after| == 2
    ensures before[0].name == after[0].name == name && after[0].description == "second"
    ensures called == Some("h2")
  {
    var r := new ToolRegistry();
    r.Register(name, "first", Null, "h1");
    r.Register(name + "!", "other", Null, "h0");
    before := r.Definitions();
    r.Register(name, "second", Null, "h2");
    after := r.Definitions();
    var d := r.Dispatch(name, Null, (h, i) => RaisedError(""), v => "");
    called := d.called;
  }
}
