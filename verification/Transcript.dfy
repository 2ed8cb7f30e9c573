/**
 Session transcripts as the parser and the fork see them: one entry per line, or a line
 that does not parse.
 */
module Transcript {
  import opened Collections
  import opened InteractiveItems

  /** A tool result's content: one text, or the texts of a list of blocks. */
  datatype ResultText = Whole(text: string) | Pieces(texts: seq<string>)

  datatype UserBlock =
    | ToolResult(toolUseId: string, isError: bool, result: ResultText)
    | UserText(text: string)
    | OtherUserBlock

  datatype UserContent = Text(text: string) | BlockList(blocks: seq<UserBlock>) | NoContent

  /** The two interactive tools, the one tool that is never shown, and all others. */
  datatype Tool = AskTool | PlanTool | SearchTool | NamedTool(name: string)

  datatype AgentBlock =
    | AgentText(text: string)
    | ToolUse(tool: Tool, id: string, questions: seq<Question>, plan: string, details: string)
    | OtherAgentBlock

  datatype Subtype = NoSubtype | TurnDuration | StopHookSummary | OtherSubtype(name: string)

  /** `subagent`: the entry has a parent tool use; `synthetic`: its model is the sentinel;
      `rateLimited`: it is a rate-limit error. */
  datatype EntryBody =
    | UserBody(isMeta: bool, content: UserContent)
    | AgentBody(subagent: bool, synthetic: bool, rateLimited: bool, blocks: seq<AgentBlock>)
    | SystemBody(subtype: Subtype, text: string)
    | OtherBody(kind: string)

  datatype Field = Cwd | GitBranch | Version | UserType | Entrypoint

  /** The two spellings of the session id may each be present or not. */
  datatype Entry = Entry(uuid: Option<string>, parentUuid: Option<string>, timestamp: Option<string>,
                         sessionId: Option<string>, sessionIdSnake: Option<string>,
                         fields: map<Field, string>, body: EntryBody)

  datatype Line = Unparsed(raw: string) | Parsed(entry: Entry)

  predicate Truthy(o: Option<string>) {
    o.Some? && o.value != ""
  }
}
