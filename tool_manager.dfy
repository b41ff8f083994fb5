/** `ToolManager`: a registry of tools keyed by the name in each tool's
    definition, kept in registration order (the insertion order of the
    dictionary), which dispatches calls by name and gathers and clears the
    sources the tools record. */
module ToolManagement {
  import opened Wrappers
  import opened Text
  import opened Backend
  import opened Tools
  import CourseSearch
  import CourseOutline

  /** A tool other than the two course tools: it advertises a definition and
      answers every call from its arguments, and it has no `last_sources`. */
  class CustomTool {
    const definition: ToolDefinition
    const respond: ToolArgs -> string

    constructor (definition: ToolDefinition, respond: ToolArgs -> string)
      ensures this.definition == definition && this.respond == respond
    {
      this.definition := definition;
      this.respond := respond;
    }
  }

  /** A registered tool object. */
  datatype ToolRef =
    | SearchTool(search: CourseSearch.CourseSearchTool)
    | OutlineTool(outline: CourseOutline.CourseOutlineTool)
    | OtherTool(other: CustomTool)

  /** `tool.get_tool_definition()`. */
  function DefinitionOf(t: ToolRef): ToolDefinition {
    match t
    case SearchTool(_) => CourseSearch.Definition()
    case OutlineTool(_) => CourseOutline.Definition()
    case OtherTool(c) => c.definition
  }

  function ObjectOf(t: ToolRef): object {
    match t
    case SearchTool(s) => s
    case OutlineTool(o) => o
    case OtherTool(c) => c
  }

  /** `hasattr(tool, 'last_sources')`. */
  predicate TracksSources(t: ToolRef) {
    !t.OtherTool?
  }

  /** The tool's `last_sources`; a tool without one contributes none. */
  function SourcesOf(t: ToolRef): (sources: seq<Source>)
    reads ObjectOf(t)
    ensures !TracksSources(t) ==> sources == []
  {
    match t
    case SearchTool(s) => s.lastSources
    case OutlineTool(o) => o.lastSources
    case OtherTool(_) => []
  }

  /** The first non-empty list, or the empty list when there is none. */
  function FirstNonEmpty(lists: seq<seq<Source>>): (r: seq<Source>)
    ensures r == [] <==> forall k :: 0 <= k < |lists| ==> lists[k] == []
    ensures r != [] ==> exists k :: 0 <= k < |lists| && lists[k] == r && forall j :: 0 <= j < k ==> lists[j] == []
    decreases |lists|
  {
    if |lists| == 0 then []
    else if lists[0] != [] then lists[0]
    else FirstNonEmpty(lists[1..])
  }

  /** Once every list before `i` is empty and list `i` is not, list `i` is the
      first non-empty one. */
  lemma FirstNonEmptyAt(lists: seq<seq<Source>>, i: nat)
    requires i < |lists| && lists[i] != []
    requires forall j :: 0 <= j < i ==> lists[j] == []
    ensures FirstNonEmpty(lists) == lists[i]
  {
  }

  /** What a registration gives: the tool is in, or the `ValueError` message. */
  datatype Registration = Registered | Rejected(message: string)

  /** What a dispatch to a registered tool gives: its text, or the
      `TypeError` of arguments that do not fit the tool. */
  datatype Dispatch = Replied(text: string) | ArgumentsRejected

  /** `Tool '<name>' not found`: the message quotes the name asked for. */
  function NotFoundMessage(name: string): (m: string)
    ensures |m| == |name| + 17 && m[..6] == "Tool '" && m[6..|m| - 11] == name && m[|m| - 11..] == "' not found"
  {
    "Tool '" + name + "' not found"
  }

  /** The name order after registering `name`: a new name goes last, a known
      name keeps its place. */
  function OrderAfter(order: seq<string>, name: string): (r: seq<string>)
    ensures name in r
    ensures forall n :: n in r <==> n in order || n == name
    ensures name in order ==> r == order
    ensures name !in order ==> |r| == |order| + 1 && r[..|order|] == order && r[|order|] == name
  {
    if name in order then order else order + [name]
  }

  class ToolManager {
    /** The names in registration order. */
    var order: seq<string>
    /** `self.tools`. */
    var tools: map<string, ToolRef>

    /** The order lists each registered name once, and every tool is
        registered under the name its definition gives. */
    ghost predicate Valid()
      reads this
    {
      (forall i, j :: 0 <= i < j < |order| ==> order[i] != order[j]) &&
      (forall k :: 0 <= k < |order| ==> order[k] in tools) &&
      (forall n :: n in tools ==> n in order) &&
      (forall n :: n in tools ==> DefinitionOf(tools[n]).name == Some(n))
    }

    /** The registered tool objects. */
    ghost function Objects(): set<object>
      reads this
    {
      set n | n in tools :: ObjectOf(tools[n])
    }

    /** Every registered tool's `last_sources`, in registration order. */
    ghost function SourceLists(): (lists: seq<seq<Source>>)
      requires Valid()
      reads this, Objects()
      ensures |lists| == |order|
    {
      seq(|order|, k requires 0 <= k < |order| && order[k] in tools reads this, Objects() => SourcesOf(tools[order[k]]))
    }

    constructor ()
      ensures Valid() && order == [] && tools == map[]
    {
      order := [];
      tools := map[];
    }

    /** `register_tool`: a definition without a truthy name is rejected and
        changes nothing; otherwise the name now maps to the tool. */
    method RegisterTool(tool: ToolRef) returns (outcome: Registration)
      requires Valid()
      modifies this
      ensures Valid()
      ensures outcome == if IsTruthyText(DefinitionOf(tool).name) then Registered
                         else Rejected("Tool must have a 'name' in its definition")
      ensures outcome.Rejected? ==> order == old(order) && tools == old(tools)
      ensures outcome.Registered? ==>
        tools == old(tools)[DefinitionOf(tool).name.value := tool] &&
        order == OrderAfter(old(order), DefinitionOf(tool).name.value)
    {
      var toolName := DefinitionOf(tool).name;
      if !IsTruthyText(toolName) {
        return Rejected("Tool must have a 'name' in its definition");
      }
      order := OrderAfter(order, toolName.value);
      tools := tools[toolName.value := tool];
      outcome := Registered;
    }

    /** `get_tool_definitions`: one definition per registered name, in
        registration order, each carrying that name. */
    function ToolDefinitions(): (defs: seq<ToolDefinition>)
      requires Valid()
      reads this
      ensures |defs| == |order|
      ensures forall k :: 0 <= k < |defs| ==> defs[k].name == Some(order[k])
      ensures forall i, j :: 0 <= i < j < |defs| ==> defs[i].name != defs[j].name
    {
      seq(|order|, k requires 0 <= k < |order| && order[k] in tools reads this => DefinitionOf(tools[order[k]]))
    }

    /** `execute_tool`: an unknown name is reported and nothing changes; a
        known name runs that tool, which alone may change. */
    method ExecuteTool(name: string, args: ToolArgs) returns (reply: Dispatch)
      requires Valid()
      modifies if name in tools then {ObjectOf(tools[name])} else {}
      ensures name !in tools ==> reply == Replied(NotFoundMessage(name))
      ensures name in tools ==>
        match tools[name]
        case SearchTool(s) =>
          if args.SearchArgs? then
            reply.Replied? &&
            ToolOutcome(reply.text, s.lastSources)
              == CourseSearch.SearchOutcome(s.store, args.query, args.courseName, args.lessonNumber, old(s.lastSources))
          else reply == ArgumentsRejected && s.lastSources == old(s.lastSources)
        case OutlineTool(o) =>
          if args.OutlineArgs? then
            reply.Replied? &&
            ToolOutcome(reply.text, o.lastSources)
              == CourseOutline.OutlineOutcome(o.store, o.decodeLessons, args.outlineCourse, old(o.lastSources))
          else reply == ArgumentsRejected && o.lastSources == old(o.lastSources)
        case OtherTool(c) => reply == Replied(c.respond(args))
    {
      if name !in tools {
        return Replied(NotFoundMessage(name));
      }
      match tools[name]
      case SearchTool(s) =>
        if args.SearchArgs? {
          var text := s.Execute(args.query, args.courseName, args.lessonNumber);
          reply := Replied(text);
        } else {
          reply := ArgumentsRejected;
        }
      case OutlineTool(o) =>
        if args.OutlineArgs? {
          var text := o.Execute(args.outlineCourse);
          reply := Replied(text);
        } else {
          reply := ArgumentsRejected;
        }
      case OtherTool(c) =>
        reply := Replied(c.respond(args));
    }

    /** `get_last_sources`: the sources of the first tool, in registration
        order, that has a non-empty `last_sources`; otherwise none. */
    method GetLastSources() returns (sources: seq<Source>)
      requires Valid()
      ensures sources == FirstNonEmpty(SourceLists())
    {
      ghost var lists := SourceLists();
      for i := 0 to |order|
        invariant forall j :: 0 <= j < i ==> lists[j] == []
      {
        assert lists[i] == SourcesOf(tools[order[i]]);
        match tools[order[i]]
        case SearchTool(s) =>
          if s.lastSources != [] {
            FirstNonEmptyAt(lists, i);
            return s.lastSources;
          }
        case OutlineTool(o) =>
          if o.lastSources != [] {
            FirstNonEmptyAt(lists, i);
            return o.lastSources;
          }
        case OtherTool(_) =>
      }
      return [];
    }

    /** `reset_sources`: every registered tool that tracks sources now has
        none; the registry and everything outside the tools are unchanged. */
    method ResetSources()
      requires Valid()
      modifies Objects()
      ensures order == old(order) && tools == old(tools) && Valid()
      ensures forall n :: n in tools && TracksSources(tools[n]) ==> SourcesOf(tools[n]) == []
      ensures FirstNonEmpty(SourceLists()) == []
    {
      for i := 0 to |order|
        invariant forall j :: 0 <= j < i ==> SourcesOf(tools[order[j]]) == []
      {
        var name := order[i];
        assert ObjectOf(tools[name]) in Objects();
        match tools[name]
        case SearchTool(s) =>
          s.lastSources := [];
        case OutlineTool(o) =>
          o.lastSources := [];
        case OtherTool(_) =>
      }
      forall n | n in tools && TracksSources(tools[n]) ensures SourcesOf(tools[n]) == [] {
        var k :| 0 <= k < |order| && order[k] == n;
      }
    }
  }

  /** The application's set-up: both course tools registered under their
      own, distinct dispatch keys, in that order. */
  method RegisterCourseTools(search: CourseSearch.CourseSearchTool, outline: CourseOutline.CourseOutlineTool)
    returns (manager: ToolManager)
    ensures fresh(manager) && manager.Valid()
    ensures manager.order == [CourseSearch.ToolName, CourseOutline.ToolName]
    ensures manager.tools == map[CourseSearch.ToolName := SearchTool(search), CourseOutline.ToolName := OutlineTool(outline)]
  {
    assert CourseSearch.ToolName[0] != CourseOutline.ToolName[0];
    manager := new ToolManager();
    var registered := manager.RegisterTool(SearchTool(search));
    registered := manager.RegisterTool(OutlineTool(outline));
  }

  /** A search call dispatched by the search tool's key. */
  method CallSearch(manager: ToolManager, search: CourseSearch.CourseSearchTool,
                    query: string, courseName: Option<string>, lessonNumber: Option<int>)
    returns (reply: Dispatch)
    requires manager.Valid()
    requires CourseSearch.ToolName in manager.tools && manager.tools[CourseSearch.ToolName] == SearchTool(search)
    modifies search
    ensures reply == Replied(CourseSearch.SearchOutcome(search.store, query, courseName, lessonNumber,
                                                        old(search.lastSources)).text)
    ensures search.lastSources == CourseSearch.SearchOutcome(search.store, query, courseName, lessonNumber,
                                                             old(search.lastSources)).sources
  {
    reply := manager.ExecuteTool(CourseSearch.ToolName, SearchArgs(query, courseName, lessonNumber));
  }

  /** An outline call dispatched by the outline tool's key. */
  method CallOutline(manager: ToolManager, outline: CourseOutline.CourseOutlineTool, outlineCourse: string)
    returns (reply: Dispatch)
    requires manager.Valid()
    requires CourseOutline.ToolName in manager.tools && manager.tools[CourseOutline.ToolName] == OutlineTool(outline)
    modifies outline
    ensures reply == Replied(CourseOutline.OutlineOutcome(outline.store, outline.decodeLessons, outlineCourse,
                                                          old(outline.lastSources)).text)
    ensures outline.lastSources == CourseOutline.OutlineOutcome(outline.store, outline.decodeLessons, outlineCourse,
                                                                old(outline.lastSources)).sources
  {
    reply := manager.ExecuteTool(CourseOutline.ToolName, OutlineArgs(outlineCourse));
  }

  /** Calls by name once both course tools are registered: each key reaches
      its own tool and returns that tool's text. */
  method CourseToolsDispatch(search: CourseSearch.CourseSearchTool, outline: CourseOutline.CourseOutlineTool,
                             query: string, courseName: Option<string>, lessonNumber: Option<int>,
                             outlineCourse: string)
    returns (searchReply: Dispatch, outlineReply: Dispatch)
    modifies search, outline
    ensures searchReply == Replied(CourseSearch.SearchOutcome(search.store, query, courseName, lessonNumber,
                                                              old(search.lastSources)).text)
    ensures search.lastSources == CourseSearch.SearchOutcome(search.store, query, courseName, lessonNumber,
                                                             old(search.lastSources)).sources
    ensures outlineReply == Replied(CourseOutline.OutlineOutcome(outline.store, outline.decodeLessons, outlineCourse,
                                                                 old(outline.lastSources)).text)
    ensures outline.lastSources == CourseOutline.OutlineOutcome(outline.store, outline.decodeLessons, outlineCourse,
                                                                old(outline.lastSources)).sources
  {
    var manager := RegisterCourseTools(search, outline);
    searchReply := CallSearch(manager, search, query, courseName, lessonNumber);
    outlineReply := CallOutline(manager, outline, outlineCourse);
  }

  /** Once both course tools are registered, a call by any other name is
      reported as not found and changes no tool. */
  method UnknownNameIsReported(search: CourseSearch.CourseSearchTool, outline: CourseOutline.CourseOutlineTool,
                               name: string, args: ToolArgs)
    returns (reply: Dispatch)
    requires name != CourseSearch.ToolName && name != CourseOutline.ToolName
    ensures reply == Replied(NotFoundMessage(name))
  {
    var manager := RegisterCourseTools(search, outline);
    reply := manager.ExecuteTool(name, args);
  }
}
