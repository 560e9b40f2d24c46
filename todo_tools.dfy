/** The todo tool handlers of src/buddy_bot/tools/todo.py, shared with the
    MCP server's todo handlers, which differ only in where the chat id comes
    from. json.dumps is the parameter `dumps`; what the handlers return is a
    registry HandlerOutcome. */
module TodoTools {
  import opened Wrappers
  import opened Text
  import opened Json
  import opened Todo
  import opened Registry

  /** The text of str(KeyError(key)). */
  function KeyErrorText(key: string): string {
    "'" + key + "'"
  }

  /** The model's answer to an argument whose JSON type differs from the
      tool's input schema. Python does not reject these: the handlers pass
      them on to SQLite, which coerces some by column affinity and fails on
      others with its own error; the model rejects them all alike. */
  const UnsupportedArgument := "unsupported argument type"

  /** chat_id_ref.get("chat_id", "default"), read at call time. */
  function ChatIdOf(ref: map<string, string>): (chat: string)
    ensures "chat_id" in ref ==> chat == ref["chat_id"]
    ensures "chat_id" !in ref ==> chat == "default"
  {
    if "chat_id" in ref then ref["chat_id"] else "default"
  }

  /** A string argument that may be absent or null. */
  function OptionalString(v: Option<Json>): (r: Result<Option<string>, string>)
    ensures (v.None? || v == Some(Null)) ==> r == Ok(None)
    ensures (v.Some? && v.value.Str?) ==> r == Ok(Some(v.value.s))
  {
    match v
    case None => Ok(None)
    case Some(Null) => Ok(None)
    case Some(Str(s)) => Ok(Some(s))
    case Some(_) => Err(UnsupportedArgument)
  }

  /** input[key] for a required string argument. */
  function RequiredString(input: seq<(string, Json)>, key: string): (r: Result<string, string>)
    ensures Lookup(input, key).None? ==> r == Err(KeyErrorText(key))
    ensures r.Ok? <==> Lookup(input, key).Some? && Lookup(input, key).value.Str?
  {
    match Lookup(input, key)
    case None => Err(KeyErrorText(key))
    case Some(Str(s)) => Ok(s)
    case Some(_) => Err(UnsupportedArgument)
  }

  /** input[key] for a required integer argument. */
  function RequiredInt(input: seq<(string, Json)>, key: string): (r: Result<int, string>)
    ensures Lookup(input, key).None? ==> r == Err(KeyErrorText(key))
    ensures r.Ok? <==> Lookup(input, key).Some? && Lookup(input, key).value.Num?
  {
    match Lookup(input, key)
    case None => Err(KeyErrorText(key))
    case Some(Num(n)) => Ok(n)
    case Some(_) => Err(UnsupportedArgument)
  }

  datatype AddArgs = AddArgs(title: string, dueDate: Option<string>, priority: Option<string>)

  /** title is required; due_date defaults to None; priority defaults to
      "medium" only when the key is absent (an explicit null stays None). */
  function AddArgsOf(input: seq<(string, Json)>): (r: Result<AddArgs, string>)
    ensures Lookup(input, "title").None? ==> r == Err(KeyErrorText("title"))
    ensures r.Ok? && Lookup(input, "due_date").None? ==> r.value.dueDate == None
    ensures r.Ok? && Lookup(input, "priority").None? ==> r.value.priority == Some("medium")
    ensures r.Ok? && Lookup(input, "priority") == Some(Null) ==> r.value.priority == None
  {
    var title := RequiredString(input, "title");
    if title.Err? then Err(title.error)
    else
      var due := OptionalString(Lookup(input, "due_date"));
      if due.Err? then Err(due.error)
      else
        var priority := if Lookup(input, "priority").None? then Ok(Some("medium"))
                        else OptionalString(Lookup(input, "priority"));
        if priority.Err? then Err(priority.error)
        else Ok(AddArgs(title.value, due.value, priority.value))
  }

  datatype ListArgs = ListArgs(status: Option<string>, daysAhead: Option<int>)

  function ListArgsOf(input: seq<(string, Json)>): (r: Result<ListArgs, string>)
    ensures (Lookup(input, "status").None? && Lookup(input, "days_ahead").None?) ==> r == Ok(ListArgs(None, None))
    ensures r.Ok? && Lookup(input, "days_ahead").Some? && Lookup(input, "days_ahead").value.Num? ==>
      r.value.daysAhead == Some(Lookup(input, "days_ahead").value.n)
  {
    var status := OptionalString(Lookup(input, "status"));
    if status.Err? then Err(status.error)
    else
      match Lookup(input, "days_ahead")
      case None => Ok(ListArgs(status.value, None))
      case Some(Null) => Ok(ListArgs(status.value, None))
      case Some(Num(n)) => Ok(ListArgs(status.value, Some(n)))
      case Some(_) => Err(UnsupportedArgument)
  }

  function OptText(o: Option<string>): Json {
    if o.Some? then Str(o.value) else Null
  }

  function CreatedRecord(item: TodoItem): Json {
    Obj([("status", Str("created")), ("todo_id", Num(item.id)), ("title", Str(item.title)),
         ("due_date", OptText(item.dueDate)), ("priority", OptText(item.priority))])
  }

  function ItemRecord(item: TodoItem): Json {
    Obj([("todo_id", Num(item.id)), ("title", Str(item.title)), ("due_date", OptText(item.dueDate)),
         ("priority", OptText(item.priority)), ("status", Str(item.status)),
         ("created_at", Str(item.createdAt)), ("completed_at", OptText(item.completedAt))])
  }

  /** The list handler's array: one record per item, in the store's order. */
  function ItemRecords(items: seq<TodoItem>): seq<Json> {
    seq(|items|, i requires 0 <= i < |items| => ItemRecord(items[i]))
  }

  function CompletedRecord(item: TodoItem): Json {
    Obj([("status", Str("completed")), ("todo_id", Num(item.id)), ("title", Str(item.title))])
  }

  function DeletedRecord(id: int): Json {
    Obj([("status", Str("deleted")), ("todo_id", Num(id))])
  }

  /** {"error": "Todo #<id> not found"}. */
  function NotFound(id: int): Json {
    Obj([("error", Str("Todo #" + IntToString(id) + " not found"))])
  }

  /** handle_todo_add: a failing argument raises before the store is
      touched; otherwise the new item is echoed. */
  method HandleAdd(store: TodoStore, chat: string, input: seq<(string, Json)>, now: string, dumps: Json -> string) returns (out: HandlerOutcome)
    requires store.Valid()
    modifies store
    ensures store.Valid()
    ensures AddArgsOf(input).Err? ==>
      out == RaisedError(AddArgsOf(input).error) && store.rows == old(store.rows) && store.lastId == old(store.lastId)
    ensures AddArgsOf(input).Ok? ==>
      var a := AddArgsOf(input).value;
      store.lastId == old(store.lastId) + 1 &&
      store.rows == old(store.rows) + [TodoRow(store.lastId, chat, a.title, a.dueDate, a.priority, "pending", now, None)] &&
      out == ReturnedText(dumps(CreatedRecord(TodoItem(store.lastId, a.title, a.dueDate, a.priority, "pending", now, None))))
  {
    var args := AddArgsOf(input);
    if args.Err? {
      return RaisedError(args.error);
    }
    var item := store.Add(chat, args.value.title, args.value.dueDate, args.value.priority, now);
    out := ReturnedText(dumps(CreatedRecord(item)));
  }

  /** handle_todo_list: one record per listed item; the store is only read. */
  method HandleList(store: TodoStore, chat: string, input: seq<(string, Json)>, shift: string -> string, dumps: Json -> string) returns (out: HandlerOutcome)
    ensures ListArgsOf(input).Err? ==> out == RaisedError(ListArgsOf(input).error)
    ensures ListArgsOf(input).Ok? ==>
      var a := ListArgsOf(input).value;
      out == ReturnedText(dumps(Arr(ItemRecords(Items(Listing(store.rows, chat, a.status, a.daysAhead, shift))))))
  {
    var args := ListArgsOf(input);
    if args.Err? {
      return RaisedError(args.error);
    }
    var items := store.List(chat, args.value.status, args.value.daysAhead, shift);
    out := ReturnedText(dumps(Arr(ItemRecords(items))));
  }

  function CompleteReply(item: Option<TodoItem>, id: int): Json {
    if item.None? then NotFound(id) else CompletedRecord(item.value)
  }

  /** handle_todo_complete: the completed item, or the not-found error. */
  method HandleComplete(store: TodoStore, chat: string, input: seq<(string, Json)>, now: string, dumps: Json -> string) returns (out: HandlerOutcome)
    requires store.Valid()
    modifies store
    ensures store.Valid()
    ensures RequiredInt(input, "todo_id").Err? ==>
      out == RaisedError(RequiredInt(input, "todo_id").error) && store.rows == old(store.rows) && store.lastId == old(store.lastId)
    ensures RequiredInt(input, "todo_id").Ok? ==>
      var id := RequiredInt(input, "todo_id").value;
      store.rows == MarkDone(old(store.rows), chat, id, now) && store.lastId == old(store.lastId) &&
      out == ReturnedText(dumps(CompleteReply(FindItem(store.rows, chat, id), id))) &&
      (FindItem(store.rows, chat, id).Some? <==> exists x :: x in old(store.rows) && x.id == id && x.chatId == chat) &&
      (FindItem(store.rows, chat, id).Some? ==> FindItem(store.rows, chat, id).value.status == "done")
  {
    var id := RequiredInt(input, "todo_id");
    if id.Err? {
      return RaisedError(id.error);
    }
    var item := store.Complete(chat, id.value, now);
    out := ReturnedText(dumps(CompleteReply(item, id.value)));
  }

  function DeleteReply(deleted: bool, id: int): Json {
    if deleted then DeletedRecord(id) else NotFound(id)
  }

  /** handle_todo_delete: the deletion echo, or the not-found error. */
  method HandleDelete(store: TodoStore, chat: string, input: seq<(string, Json)>, dumps: Json -> string) returns (out: HandlerOutcome)
    requires store.Valid()
    modifies store
    ensures store.Valid()
    ensures RequiredInt(input, "todo_id").Err? ==>
      out == RaisedError(RequiredInt(input, "todo_id").error) && store.rows == old(store.rows) && store.lastId == old(store.lastId)
    ensures RequiredInt(input, "todo_id").Ok? ==>
      var id := RequiredInt(input, "todo_id").value;
      store.rows == Without(old(store.rows), chat, id) && store.lastId == old(store.lastId) &&
      out == ReturnedText(dumps(DeleteReply(exists x :: x in old(store.rows) && x.id == id && x.chatId == chat, id)))
  {
    var id := RequiredInt(input, "todo_id");
    if id.Err? {
      return RaisedError(id.error);
    }
    var deleted := store.Delete(chat, id.value);
    out := ReturnedText(dumps(DeleteReply(deleted, id.value)));
  }

  // ---------------------------------------------------------------------------
  // Registration

  const TodoToolNames: set<string> := {"todo_add", "todo_list", "todo_complete", "todo_delete"}

  const AddSchema: Json := Obj([
    ("type", Str("object")),
    ("properties", Obj([
      ("title", Obj([("type", Str("string")), ("description", Str("Task title or description"))])),
      ("due_date", Obj([("type", Str("string")), ("description", Str("Due date in YYYY-MM-DD format (optional)"))])),
      ("priority", Obj([("type", Str("string")), ("enum", Arr([Str("high"), Str("medium"), Str("low")])),
                        ("description", Str("Task priority")), ("default", Str("medium"))]))])),
    ("required", Arr([Str("title")]))])

  const ListSchema: Json := Obj([
    ("type", Str("object")),
    ("properties", Obj([
      ("status", Obj([("type", Str("string")), ("enum", Arr([Str("pending"), Str("done")])),
                      ("description", Str("Filter by status. Omit to show all."))])),
      ("days_ahead", Obj([("type", Str("integer")), ("description", Str("Only show tasks due within this many days"))]))]))])

  function IdSchema(description: string): Json {
    Obj([
      ("type", Str("object")),
      ("properties", Obj([("todo_id", Obj([("type", Str("integer")), ("description", Str(description))]))])),
      ("required", Arr([Str("todo_id")]))])
  }

  const AddEntry := ToolEntry("todo_add",
    "Add a new task to the user's todo list. Use for reminders, tasks, and planning.", AddSchema, "todo_add")
  const ListEntry := ToolEntry("todo_list",
    "List tasks from the user's todo list. Can filter by status (pending/done) and due date.", ListSchema, "todo_list")
  const CompleteEntry := ToolEntry("todo_complete",
    "Mark a task as completed on the user's todo list.", IdSchema("The task ID to mark as done"), "todo_complete")
  const DeleteEntry := ToolEntry("todo_delete",
    "Delete a task from the user's todo list.", IdSchema("The task ID to delete"), "todo_delete")

  /** The order in which the tools are registered. */
  const TodoToolOrder: seq<string> := [AddEntry.name, ListEntry.name, CompleteEntry.name, DeleteEntry.name]

  /** The table after registration, given the table before. */
  function WithTodoTools(before: map<string, ToolEntry>): map<string, ToolEntry> {
    before[AddEntry.name := AddEntry][ListEntry.name := ListEntry][CompleteEntry.name := CompleteEntry][DeleteEntry.name := DeleteEntry]
  }

  /** register_todo_tools: the four todo tools are registered in this order. */
  method RegisterTodoTools(registry: ToolRegistry)
    requires registry.Valid()
    modifies registry
    ensures registry.Valid()
    ensures registry.tools == WithTodoTools(old(registry.tools))
    ensures registry.order == OrderAfter(old(registry.order), TodoToolOrder)
  {
    ghost var o0 := registry.order;
    registry.Register(AddEntry.name, AddEntry.description, AddEntry.inputSchema, AddEntry.handler);
    ghost var o1 := registry.order;
    registry.Register(ListEntry.name, ListEntry.description, ListEntry.inputSchema, ListEntry.handler);
    ghost var o2 := registry.order;
    registry.Register(CompleteEntry.name, CompleteEntry.description, CompleteEntry.inputSchema, CompleteEntry.handler);
    ghost var o3 := registry.order;
    registry.Register(DeleteEntry.name, DeleteEntry.description, DeleteEntry.inputSchema, DeleteEntry.handler);
    ghost var o4 := registry.order;
    OrderAfterFour(o0, o1, o2, o3, o4, AddEntry.name, ListEntry.name, CompleteEntry.name, DeleteEntry.name);
  }

  /** Registration adds exactly the four todo names, each bound to the
      handler of its own name, and leaves every other entry as it was. */
  lemma RegisteredTodoNames(before: map<string, ToolEntry>)
    ensures WithTodoTools(before).Keys == before.Keys + TodoToolNames
    ensures WithTodoTools(before)["todo_add"].handler == "todo_add"
    ensures WithTodoTools(before)["todo_list"].handler == "todo_list"
    ensures WithTodoTools(before)["todo_complete"].handler == "todo_complete"
    ensures WithTodoTools(before)["todo_delete"].handler == "todo_delete"
    ensures forall k :: k in before && k !in TodoToolNames ==> WithTodoTools(before)[k] == before[k]
  {
    assert |"todo_add"| == 8 && |"todo_list"| == 9 && |"todo_complete"| == 13 && |"todo_delete"| == 11;
  }

  /** An added item shows up in its chat's unfiltered listing and in no
      other chat's. */
  method AddThenList(store: TodoStore, chat: string, other: string, title: string, now: string, shift: string -> string)
    returns (added: TodoItem, mine: seq<TodoItem>, theirs: seq<TodoItem>)
    requires store.Valid() && chat != other
    modifies store
    ensures added in mine && added !in theirs
  {
    added := store.Add(chat, title, None, Some("medium"), now);
    var row := store.rows[|store.rows| - 1];
    assert row in store.rows && ItemOf(row) == added;
    mine := store.List(chat, None, None, shift);
    theirs := store.List(other, None, None, shift);
    ListedItems(store.rows, chat, None, None, shift, added);
    ListedItems(store.rows, other, None, None, shift, added);
  }
}
