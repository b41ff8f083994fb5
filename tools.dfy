/** The generic face of a tool: the definition it advertises, the arguments
    it is called with, and what a call yields. */
module Tools {
  import opened Wrappers
  import opened Backend

  /** The part of a tool definition the registry uses: the name that serves as
      the dispatch key, None when the definition has no 'name'. */
  datatype ToolDefinition = ToolDefinition(name: Option<string>)

  /** The keyword arguments of a tool call, one shape per tool. */
  datatype ToolArgs =
    | SearchArgs(query: string, courseName: Option<string>, lessonNumber: Option<int>)
    | OutlineArgs(outlineCourse: string)

  /** What a call to a tool yields: the returned text and the tool's
      `last_sources` afterwards. */
  datatype ToolOutcome = ToolOutcome(text: string, sources: seq<Source>)
}
