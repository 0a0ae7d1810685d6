/** The record shapes the client declares for itself: tools as it stores
    them after connecting, and chat messages. */
module Types {
  import opened Wrappers
  import opened Json

  /** The three roles a chat message may carry. */
  datatype Role = User | Assistant | System

  /** The wire spelling of a role. */
  function RoleName(role: Role): (s: string)
    ensures s == "user" || s == "assistant" || s == "system"
  {
    match role
    case User => "user"
    case Assistant => "assistant"
    case System => "system"
  }

  /** Reads a role back from its wire spelling; any other string is not a role. */
  function ParseRole(s: string): (r: Option<Role>)
    ensures r.Some? <==> s == "user" || s == "assistant" || s == "system"
  {
    if s == "user" then Some(User)
    else if s == "assistant" then Some(Assistant)
    else if s == "system" then Some(System)
    else None
  }

  /** The spelling of a role identifies it, and every role spelling names a role. */
  lemma RoleSpelling(role: Role, s: string)
    ensures ParseRole(RoleName(role)) == Some(role)
    ensures ParseRole(s) == Some(role) <==> s == RoleName(role)
  {
  }

  /** A chat message: a role and text content. */
  datatype Message = Message(role: Role, content: string)

  /** The only value the schema's `type` member may hold. */
  type ObjectTag = t: string | t == "object" witness "object"

  /** A JSON-schema-like description of a tool's parameters: `type` is always
      `"object"`, `properties` and `required` may be absent, and any further
      members are carried along untouched. */
  datatype InputSchema = InputSchema(
    schemaType: ObjectTag,
    properties: Option<seq<(string, JsonValue)>>,
    required: Option<seq<string>>,
    extra: seq<(string, JsonValue)>)

  /** A tool as the client keeps it: name, optional description, schema. */
  datatype Tool = Tool(name: string, description: Option<string>, inputSchema: InputSchema)
}
