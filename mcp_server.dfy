/** The MCP tool server of src/buddy_bot/mcp_server.py: its tool list, its
    dispatch table, call_tool, the lazily built todo store and the todo
    handlers, which take the chat id from their arguments. The Gmail,
    Calendar and web handlers are not part of this model; the email helpers
    the server shares with tools/email.py are the ones in module Email. */
module McpServer {
  import opened Wrappers
  import opened Json
  import opened Todo
  import opened Registry
  import opened TodoTools

  /** The names of TOOLS, in list order. */
  const ToolNames: seq<string> := [
    "todo_add", "todo_list", "todo_complete", "todo_delete",
    "calendar_list_events", "calendar_create_event", "calendar_delete_event",
    "email_list_messages", "email_read_message", "email_send_message",
    "web_search", "perplexity_search", "get_current_time"]

  /** The keys of HANDLERS, in dict order. */
  const HandlerNames: seq<string> := [
    "todo_add", "todo_list", "todo_complete", "todo_delete",
    "calendar_list_events", "calendar_create_event", "calendar_delete_event",
    "email_list_messages", "email_read_message", "email_send_message",
    "web_search", "perplexity_search", "get_current_time"]

  /** Every listed tool has a handler and every handler is listed, each
      name once. */
  lemma ToolsMatchHandlers()
    ensures |ToolNames| == |HandlerNames| == 13
    ensures forall n :: n in ToolNames <==> n in HandlerNames
    ensures forall i, j :: 0 <= i < j < |ToolNames| ==> ToolNames[i] != ToolNames[j]
  {
    forall i, j | 0 <= i < j < |ToolNames| ensures ToolNames[i] != ToolNames[j] {
      if |ToolNames[i]| == |ToolNames[j]| {
        assert ToolNames[i][6] != ToolNames[j][6] || ToolNames[i][9] != ToolNames[j][9];
      }
    }
  }

  datatype TextContent = TextContent(text: string)

  /** call_tool: exactly one text item, whatever happens. `handled` is what
      awaiting the named handler gave: its string, or the message of the
      exception it raised. */
  function CallTool(name: string, handled: Result<string, string>, dumps: Json -> string): (r: seq<TextContent>)
    ensures |r| == 1
    ensures name !in HandlerNames ==> r[0].text == dumps(ErrorJson("Unknown tool: " + name))
    ensures name in HandlerNames && handled.Ok? ==> r[0].text == handled.value
    ensures name in HandlerNames && handled.Err? ==> r[0].text == dumps(ErrorJson("Tool " + name + " failed: " + handled.error))
  {
    if name !in HandlerNames then [TextContent(dumps(ErrorJson("Unknown tool: " + name)))]
    else if handled.Ok? then [TextContent(handled.value)]
    else [TextContent(dumps(ErrorJson("Tool " + name + " failed: " + handled.error)))]
  }

  /** A handler outcome that is a string or an exception. */
  function Settled(o: HandlerOutcome): Result<string, string>
    requires !o.ReturnedValue?
  {
    if o.ReturnedText? then Ok(o.text) else Err(o.message)
  }

  /** call_tool and the in-process registry turn a handler's string or
      exception into the same text, and an unknown name into the same error. */
  lemma CallToolAgreesWithRegistry(r: ToolRegistry, name: string, input: Json, run: (string, Json) -> HandlerOutcome, dumps: Json -> string)
    requires name in r.tools <==> name in HandlerNames
    requires name in r.tools ==> !run(r.tools[name].handler, input).ReturnedValue?
    ensures name in r.tools ==>
      CallTool(name, Settled(run(r.tools[name].handler, input)), dumps)[0].text == r.Dispatch(name, input, run, dumps).text
    ensures name !in r.tools ==>
      CallTool(name, Err(""), dumps)[0].text == r.Dispatch(name, input, run, dumps).text
  {
    if name in r.tools {
      var o := run(r.tools[name].handler, input);
      assert r.Dispatch(name, input, run, dumps).text == OutcomeText(name, o, dumps);
    }
  }

  class Server {
    /** The module-level _todo_store, built on first use. */
    var todoStore: TodoStore?
    /** The todos table in the HISTORY_DB file before the store is opened:
        its rows and its AUTOINCREMENT counter. */
    const dbRows: seq<TodoRow>
    const dbLastId: nat

    ghost predicate Valid()
      reads this, todoStore
    {
      IdsIncreasing(dbRows, dbLastId) &&
      (todoStore != null ==> todoStore.Valid())
    }

    ghost function Rows(): seq<TodoRow>
      reads this, todoStore
    {
      if todoStore == null then dbRows else todoStore.rows
    }

    ghost function LastId(): nat
      reads this, todoStore
    {
      if todoStore == null then dbLastId else todoStore.lastId
    }

    constructor (existing: seq<TodoRow>, existingLastId: nat)
      requires IdsIncreasing(existing, existingLastId)
      ensures Valid() && todoStore == null
      ensures dbRows == existing && dbLastId == existingLastId
    {
      todoStore := null;
      dbRows, dbLastId := existing, existingLastId;
    }

    /** _get_todo_store: built once, the same store on every later call. */
    method GetTodoStore() returns (store: TodoStore)
      requires Valid()
      modifies this
      ensures Valid() && todoStore == store
      ensures old(todoStore) != null ==> store == old(todoStore)
      ensures old(todoStore) == null ==> fresh(store) && store.rows == dbRows && store.lastId == dbLastId
      ensures Rows() == old(Rows()) && LastId() == old(LastId())
    {
      if todoStore == null {
        todoStore := new TodoStore(dbRows, dbLastId);
      }
      store := todoStore;
    }

    /** _handle_todo_add: the store is built first, then chat_id is required. */
    method TodoAdd(arguments: seq<(string, Json)>, now: string, dumps: Json -> string) returns (r: Result<string, string>)
      requires Valid()
      modifies this, todoStore
      ensures Valid() && todoStore != null && (old(todoStore) != null ==> todoStore == old(todoStore))
      ensures RequiredString(arguments, "chat_id").Err? ==>
        r == Err(RequiredString(arguments, "chat_id").error) && Rows() == old(Rows()) && LastId() == old(LastId())
      ensures RequiredString(arguments, "chat_id").Ok? && AddArgsOf(arguments).Err? ==>
        r == Err(AddArgsOf(arguments).error) && Rows() == old(Rows()) && LastId() == old(LastId())
      ensures RequiredString(arguments, "chat_id").Ok? && AddArgsOf(arguments).Ok? ==>
        var chat, a := RequiredString(arguments, "chat_id").value, AddArgsOf(arguments).value;
        LastId() == old(LastId()) + 1 &&
        Rows() == old(Rows()) + [TodoRow(LastId(), chat, a.title, a.dueDate, a.priority, "pending", now, None)] &&
        r == Ok(dumps(CreatedRecord(TodoItem(LastId(), a.title, a.dueDate, a.priority, "pending", now, None))))
    {
      var store := GetTodoStore();
      var chat := RequiredString(arguments, "chat_id");
      if chat.Err? {
        return Err(chat.error);
      }
      var out := HandleAdd(store, chat.value, arguments, now, dumps);
      r := Settled(out);
    }

    /** _handle_todo_list: the chat's listing; the store is only read. */
    method TodoList(arguments: seq<(string, Json)>, shift: string -> string, dumps: Json -> string) returns (r: Result<string, string>)
      requires Valid()
      modifies this
      ensures Valid() && todoStore != null && (old(todoStore) != null ==> todoStore == old(todoStore))
      ensures Rows() == old(Rows()) && LastId() == old(LastId())
      ensures RequiredString(arguments, "chat_id").Err? ==> r == Err(RequiredString(arguments, "chat_id").error)
      ensures RequiredString(arguments, "chat_id").Ok? && ListArgsOf(arguments).Err? ==> r == Err(ListArgsOf(arguments).error)
      ensures RequiredString(arguments, "chat_id").Ok? && ListArgsOf(arguments).Ok? ==>
        var chat, a := RequiredString(arguments, "chat_id").value, ListArgsOf(arguments).value;
        r == Ok(dumps(Arr(ItemRecords(Items(Listing(Rows(), chat, a.status, a.daysAhead, shift))))))
    {
      var store := GetTodoStore();
      var chat := RequiredString(arguments, "chat_id");
      if chat.Err? {
        return Err(chat.error);
      }
      var out := HandleList(store, chat.value, arguments, shift, dumps);
      r := Settled(out);
    }

    /** _handle_todo_complete: only the chat named in the arguments is touched. */
    method TodoComplete(arguments: seq<(string, Json)>, now: string, dumps: Json -> string) returns (r: Result<string, string>)
      requires Valid()
      modifies this, todoStore
      ensures Valid() && todoStore != null && (old(todoStore) != null ==> todoStore == old(todoStore))
      ensures LastId() == old(LastId())
      ensures RequiredString(arguments, "chat_id").Err? ==> r == Err(RequiredString(arguments, "chat_id").error) && Rows() == old(Rows())
      ensures RequiredString(arguments, "chat_id").Ok? && RequiredInt(arguments, "todo_id").Err? ==>
        r == Err(RequiredInt(arguments, "todo_id").error) && Rows() == old(Rows())
      ensures RequiredString(arguments, "chat_id").Ok? && RequiredInt(arguments, "todo_id").Ok? ==>
        var chat, id := RequiredString(arguments, "chat_id").value, RequiredInt(arguments, "todo_id").value;
        Rows() == MarkDone(old(Rows()), chat, id, now) &&
        r == Ok(dumps(CompleteReply(FindItem(Rows(), chat, id), id)))
    {
      var store := GetTodoStore();
      var chat := RequiredString(arguments, "chat_id");
      if chat.Err? {
        return Err(chat.error);
      }
      var out := HandleComplete(store, chat.value, arguments, now, dumps);
      r := Settled(out);
    }

    /** _handle_todo_delete: only the chat named in the arguments is touched. */
    method TodoDelete(arguments: seq<(string, Json)>, dumps: Json -> string) returns (r: Result<string, string>)
      requires Valid()
      modifies this, todoStore
      ensures Valid() && todoStore != null && (old(todoStore) != null ==> todoStore == old(todoStore))
      ensures LastId() == old(LastId())
      ensures RequiredString(arguments, "chat_id").Err? ==> r == Err(RequiredString(arguments, "chat_id").error) && Rows() == old(Rows())
      ensures RequiredString(arguments, "chat_id").Ok? && RequiredInt(arguments, "todo_id").Err? ==>
        r == Err(RequiredInt(arguments, "todo_id").error) && Rows() == old(Rows())
      ensures RequiredString(arguments, "chat_id").Ok? && RequiredInt(arguments, "todo_id").Ok? ==>
        var chat, id := RequiredString(arguments, "chat_id").value, RequiredInt(arguments, "todo_id").value;
        Rows() == Without(old(Rows()), chat, id) &&
        r == Ok(dumps(DeleteReply(exists x :: x in old(Rows()) && x.id == id && x.chatId == chat, id)))
    {
      var store := GetTodoStore();
      var chat := RequiredString(arguments, "chat_id");
      if chat.Err? {
        return Err(chat.error);
      }
      var out := HandleDelete(store, chat.value, arguments, dumps);
      r := Settled(out);
    }
  }
}
