/** The progress messages of src/buddy_bot/progress.py. */
module Progress {
  import opened Wrappers
  import opened Text
  import McpServer

  /** TOOL_PROGRESS: a message per known tool. */
  const ToolProgress: map<string, string> := map[
    "get_episodes" := "Recalling recent conversations...",
    "search_memory_facts" := "Searching memory...",
    "search_nodes" := "Looking up entities...",
    "add_memory" := "Saving to memory...",
    "todo_add" := "Adding task...",
    "todo_list" := "Checking tasks...",
    "todo_complete" := "Completing task...",
    "todo_delete" := "Removing task...",
    "calendar_list_events" := "Checking calendar...",
    "calendar_create_event" := "Creating event...",
    "calendar_delete_event" := "Removing event...",
    "email_list_messages" := "Checking email...",
    "email_read_message" := "Reading email...",
    "email_send_message" := "Sending email...",
    "web_search" := "Searching the web...",
    "perplexity_search" := "Researching...",
    "get_current_time" := "Checking the time..."]

  const McpPrefix := "mcp__"

  /** The name looked up: an "mcp__" name that splits into three pieces on
      "__" (at most two cuts) is replaced by its third piece. */
  function BaseName(toolName: string): string {
    if StartsWith(toolName, McpPrefix) then
      var parts := SplitMax(toolName, "__", 2);
      if |parts| == 3 then parts[2] else toolName
    else toolName
  }

  /** format_tool_progress. */
  function FormatToolProgress(toolName: string): (r: Option<string>)
    ensures r.Some? <==> BaseName(toolName) in ToolProgress
    ensures r.Some? ==> r.value == ToolProgress[BaseName(toolName)]
  {
    var base := BaseName(toolName);
    if base in ToolProgress then Some(ToolProgress[base]) else None
  }

  /** A name without the prefix is looked up as it is. */
  lemma UnprefixedLookedUpAsIs(toolName: string)
    requires !StartsWith(toolName, McpPrefix)
    ensures FormatToolProgress(toolName) == if toolName in ToolProgress then Some(ToolProgress[toolName]) else None
  {
  }

  /** "mcp__<server>__<tool>" is looked up as <tool>, which may itself
      contain "__", provided the server name has no "__" and does not end
      in "_" (else the second cut comes earlier). */
  lemma ServerPrefixStripped(server: string, tool: string)
    requires Find(server + "_", "__", 0) == -1
    ensures BaseName(McpPrefix + server + "__" + tool) == tool
  {
    var name := McpPrefix + server + "__" + tool;
    var rest := server + "__" + tool;
    assert StartsWith(name, McpPrefix);
    NoSeparatorInMcp(name);
    FirstFind(name, "__", 3);
    assert name[..3] == "mcp" && name[5..] == rest;
    assert SplitMax(name, "__", 2) == ["mcp"] + SplitMax(rest, "__", 1);
    ServerCut(server, tool);
    assert rest[..|server|] == server && rest[|server| + 2..] == tool;
    assert SplitMax(rest, "__", 1) == [server] + SplitMax(tool, "__", 0);
  }

  /** Find returns the first occurrence. */
  lemma FirstFind(s: string, pat: string, i: nat)
    requires |pat| > 0 && OccursAt(s, pat, i)
    requires forall j :: 0 <= j < i ==> !OccursAt(s, pat, j)
    ensures Find(s, pat, 0) == i
  {
  }

  /** In "<server>__<tool>" the first "__" is the one after the server. */
  lemma ServerCut(server: string, tool: string)
    requires Find(server + "_", "__", 0) == -1
    ensures Find(server + "__" + tool, "__", 0) == |server|
  {
    var rest := server + "__" + tool;
    var padded := server + "_";
    assert rest[|server|..|server| + 2] == "__";
    forall j | 0 <= j < |server| ensures !OccursAt(rest, "__", j) {
      assert !OccursAt(padded, "__", j);
      assert rest[j] == padded[j] && rest[j + 1] == padded[j + 1];
      assert rest[j..j + 2] == [rest[j], rest[j + 1]];
      assert padded[j..j + 2] == [padded[j], padded[j + 1]];
    }
    FirstFind(rest, "__", |server|);
  }

  /** The first "__" of an "mcp__" name is the one after "mcp". */
  lemma NoSeparatorInMcp(name: string)
    requires StartsWith(name, McpPrefix)
    ensures OccursAt(name, "__", 3)
    ensures forall j :: 0 <= j < 3 ==> !OccursAt(name, "__", j)
  {
    assert name[..5] == McpPrefix;
    assert name[0] == 'm' && name[1] == 'c' && name[2] == 'p';
    assert name[3..5] == "__";
  }

  /** An "mcp__" name with no second "__" is looked up whole. */
  lemma ShortMcpNameKept(toolName: string)
    requires StartsWith(toolName, McpPrefix)
    requires Find(toolName[5..], "__", 0) == -1
    ensures BaseName(toolName) == toolName
  {
    assert OccursAt(toolName, "__", 3);
    assert Find(toolName, "__", 0) == 3 by {
      NoSeparatorInMcp(toolName);
    }
    assert Find(toolName[5..], "__", 0) == -1;
    assert |SplitMax(toolName, "__", 2)| == 2;
  }

  /** The table covers the 13 tools of the MCP server and the 4 memory
      tools, and nothing else. */
  lemma ProgressCoversTools()
    ensures forall n :: n in ToolProgress <==>
      n in McpServer.ToolNames || n in ["get_episodes", "search_memory_facts", "search_nodes", "add_memory"]
  {
  }

  /** A server name without "_" never holds the second cut. */
  lemma UnderscoreFreeServer(server: string)
    requires forall i :: 0 <= i < |server| ==> server[i] != '_'
    ensures Find(server + "_", "__", 0) == -1
  {
    var padded := server + "_";
    forall j | 0 <= j < |server| ensures !OccursAt(padded, "__", j) {
      assert padded[j] == server[j];
      assert padded[j..j + 2][0] == padded[j];
    }
  }
}
