# openrouter-cli-chat: the MCP client core in Dafny

This project models the part of the `MCPClient` class in
`src/mcp-clients/index.ts` that makes decisions, together with the record
shapes in `src/mcp-clients/types.ts`. There are three parts:

- **Argument repair** (`ArgumentRepair`, in `repair.dfy`). Language models
  often send tool-call arguments that are not quite JSON. `cleanJsonString`
  repairs them with a fixed pipeline of eight steps. Each step is its own
  function here:
  1. trim whitespace;
  2. drop a leading `{}` artefact;
  3. unwrap `"{...}"`;
  4. straighten curly quotes;
  5. turn line feeds into spaces;
  6. unescape `\"`;
  7. collapse `\\`;
  8. append missing `}`.

  `parseToolArguments` then makes a strict parse, a parse of the cleaned
  text, and falls back to `{}`.
- **Tool catalogue** (`Catalogue`, in `catalogue.dfy`). This covers the
  client's copy of the tool list the server announces, and the
  `{type: "function", function: {...}}` records offered to the model.
- **One turn** (`Orchestrator`, in `orchestrator.dfy`). `processQuery`
  seeds the conversation and sends the first request. When the reply asks
  for tools, it runs each requested call in order: parse the arguments,
  invoke the tool, record a trace line, append the result as a user
  message, ask for a follow-up without tools, and record its text. When
  there are no tool calls, it passes the text answer through. It then joins
  the output lines with line feeds.

The language model gateway, the tool server and the JSON library lie outside
the client, so they become parameters:

- `JsonCodec` holds `parse`, a partial function giving an `Option`, and
  `stringify`.
- `World` holds the first model reply, plus the outcome of the k-th tool
  invocation and the k-th follow-up reply, as functions of k.

The rest of the project:

- `Types` (`types.ts`) has the message roles, messages, and the tool record
  with its object-typed input schema.
- `Text` has the string operations the client uses from the JavaScript
  library: counting matches, `repeat`, `startsWith`/`endsWith`, `join`, and
  a `split` that serves as the partner of `join`.
- `Wrappers` has `Option`/`Result`.
- `Json` has an uninterpreted JSON value type and the codec record.

`RunTurn` is the loop-shaped version of the turn, and it is proved equal to
the functional `ProcessQuery`.

## Model

| member | source | states |
|---|---|---|
| Types.RoleName | src/mcp-clients/types.ts:13 | every role is spelled `user`, `assistant` or `system` |
| Types.ParseRole | src/mcp-clients/types.ts:13 | a string names a role exactly when it is one of the three spellings |
| Types.RoleSpelling | src/mcp-clients/types.ts:13 | spelling and reading back are inverse, so a role and its spelling determine each other |
| Text.Count | src/mcp-clients/index.ts:190-191 | the number of matches is at most the length, and it is zero exactly when the character is absent |
| Text.Repeat | src/mcp-clients/index.ts:194 | `'}'.repeat(k)` has length k and consists only of that character |
| Text.Join | src/mcp-clients/index.ts:107 | joining nothing gives the empty string, joining one line gives that line, and the result starts with the first line |
| Text.Split | src/mcp-clients/index.ts:107 | splitting gives one more piece than there are separators, and no piece holds a separator |
| Text.SplitJoin | src/mcp-clients/index.ts:107 | splitting a line-feed join of a non-empty list of lines free of line feeds gives the lines back |
| Text.JoinSplit | src/mcp-clients/index.ts:107 | splitting a string on a character and joining the pieces with that character gives the string back |
| ArgumentRepair.TrimStart | src/mcp-clients/index.ts:168 | the result is a suffix of the input, everything cut off is JavaScript whitespace, and the result does not start with whitespace |
| ArgumentRepair.TrimEnd | src/mcp-clients/index.ts:168 | the result is a prefix of the input, everything cut off is whitespace, and the result does not end with whitespace |
| ArgumentRepair.Trim | src/mcp-clients/index.ts:168 | the result is trimmed, a trimmed input is unchanged, the result is empty exactly when the input is all whitespace, every non-whitespace character keeps its count, and the result is one contiguous middle piece of the input with only whitespace before and after it |
| ArgumentRepair.DropEmptyObjectPrefix | src/mcp-clients/index.ts:170-173 | on a `{}{` prefix exactly the leading `{}` is removed, the rest still starts with `{`, and each brace count drops by one; any other input is unchanged |
| ArgumentRepair.UnwrapQuoted | src/mcp-clients/index.ts:175-177 | a `"{...}"` input loses exactly its outer quotes and keeps its outer braces; any other input is unchanged; brace counts are preserved |
| ArgumentRepair.WrappedBodyStrips | src/mcp-clients/index.ts:168-177 | a brace-delimited body wrapped in quotes comes out of the first three steps as the bare body |
| ArgumentRepair.ReplaceChar | src/mcp-clients/index.ts:181-185 | a global one-character replacement rewrites exactly the matching positions and keeps the length |
| ArgumentRepair.Straighten | src/mcp-clients/index.ts:181-184 | the straightened character is never curly, and any other character is unchanged |
| ArgumentRepair.NormaliseQuotes | src/mcp-clients/index.ts:180-184 | the four replacements straighten each position and leave no curly quote |
| ArgumentRepair.FlattenNewlines | src/mcp-clients/index.ts:185 | line feeds become spaces position by position, no line feed remains, and no new character other than a space appears |
| ArgumentRepair.DropEscape | src/mcp-clients/index.ts:186-187 | removing the escape of `"` or of `\` deletes only backslashes, the string shrinks or stays identical, and it changes exactly when a backslash directly precedes that character somewhere |
| ArgumentRepair.DropEscapeQuotes | src/mcp-clients/index.ts:186 | step 6 deletes exactly the backslashes that directly precede a `"` and keeps every other character in order |
| ArgumentRepair.DropEscapeRun | src/mcp-clients/index.ts:187 | a leading run of n backslashes becomes a run of n/2 rounded up, and the rest is processed on its own |
| ArgumentRepair.DropEscapeBackslashes | src/mcp-clients/index.ts:187 | step 7 turns every maximal run of n backslashes into n/2 of them, rounded up, and keeps every other character in order |
| ArgumentRepair.CloseBraces | src/mcp-clients/index.ts:189-195 | a balanced input is unchanged; otherwise exactly `opens - closes` closing braces are appended after the untouched input, leaving the counts equal; no `{` is added |
| ArgumentRepair.CleanJsonString | src/mcp-clients/index.ts:167-198 | the cleaned string holds no curly quote and no line feed, and has at least as many `}` as `{` |
| ArgumentRepair.RepairLeavesNoCleanedAway | src/mcp-clients/index.ts:180-187 | steps 4 to 7 leave no curly quote and no line feed, whatever they start from |
| ArgumentRepair.StraighteningLeavesNoCleanedAway | src/mcp-clients/index.ts:180-185 | straightening quotes and then flattening line feeds leaves neither kind of character |
| ArgumentRepair.BackslashDeletionKeepsAbsence | src/mcp-clients/index.ts:186-187 | deleting backslashes cannot bring back a curly quote or a line feed |
| ArgumentRepair.ClosingKeepsAbsence | src/mcp-clients/index.ts:193-195 | appending closing braces cannot bring back a curly quote or a line feed |
| ArgumentRepair.RepairCharactersIdentity | src/mcp-clients/index.ts:180-187 | steps 4 to 7 leave a string unchanged exactly when it holds no curly quote, line feed, `\"` or `\\` |
| ArgumentRepair.CleanJsonStringOnlyCloses | src/mcp-clients/index.ts:167-198 | on input that is trimmed, has no `{}{` prefix, is not quote-wrapped and needs no character repair, cleaning only closes braces |
| ArgumentRepair.CleanJsonStringIdentity | src/mcp-clients/index.ts:167-198 | cleaning is the identity on already clean input |
| ArgumentRepair.CleanJsonStringUnwraps | src/mcp-clients/index.ts:167-198 | a quote-wrapped object whose body needs no repair and has enough `}` cleans to the bare body |
| ArgumentRepair.CleanJsonStringStraightens | src/mcp-clients/index.ts:167-198 | when curly quotes are the input's only fault, cleaning straightens them and closes missing braces, and does nothing else |
| ArgumentRepair.CleanJsonStringFixedPoint | src/mcp-clients/index.ts:167-198 | cleaning leaves a string unchanged exactly when it is already clean: trimmed, no `{}{` prefix, not quote-wrapped, nothing to repair and no `{` surplus |
| ArgumentRepair.FixedPointIsClean | src/mcp-clients/index.ts:167-198 | a string that cleaning leaves unchanged is already clean |
| ArgumentRepair.RepairKeepsBraces | src/mcp-clients/index.ts:180-187 | steps 4 to 7 keep the count of each brace and never lengthen the string |
| ArgumentRepair.ParseToolArguments | src/mcp-clients/index.ts:144-165 | empty input gives `{}`; a successful strict parse is the result; otherwise the parse of the cleaned text is the result when it succeeds, and `{}` when it fails; the result always exists |
| ArgumentRepair.FirstParseWins | src/mcp-clients/index.ts:147-148 | once the strict parse succeeds, what the parser does with the cleaned text does not matter |
| ArgumentRepair.ParseCleanInput | src/mcp-clients/index.ts:144-165 | on already clean, non-empty input the arguments are the strict parse, or `{}` |
| Catalogue.AdoptTools | src/mcp-clients/index.ts:35-42 | the stored catalogue has one tool per listed descriptor, in order, with name, description and input schema copied |
| Catalogue.Advertise | src/mcp-clients/index.ts:63-72 | one `function` advertisement per tool, in order, with name, description and parameters copied from the tool |
| Catalogue.AdvertiseRoundTrip | src/mcp-clients/index.ts:63-72 | the catalogue can be read back out of its advertisement, so nothing is lost |
| Catalogue.AdvertiseAppend | src/mcp-clients/index.ts:63-72 | advertising a concatenation gives the concatenation of the advertisements, which is the mapping's order preservation |
| Catalogue.CatalogueFromServer | src/mcp-clients/index.ts:36-72 | after connecting, the i-th advertised function carries the i-th listed descriptor's name, description and input schema |
| Orchestrator.FailureAt | src/mcp-clients/index.ts:84-97 | the k-th call ends the turn exactly when its tool invocation or its follow-up request fails |
| Orchestrator.Step | src/mcp-clients/index.ts:80-99 | one iteration completes exactly when its invocation and follow-up complete; otherwise its error is that failure |
| Orchestrator.Dispatch | src/mcp-clients/index.ts:78-100 | the first n calls complete exactly when every one of them succeeds, and each adds one user message, two lines, one request and one invocation after the earlier ones; otherwise the error comes from the earliest failing call |
| Orchestrator.DispatchExchange | src/mcp-clients/index.ts:80-99 | in the state after n calls, every earlier call k completed, and it contributes its trace line and follow-up line, a user message holding its result, a tool-less request carrying the conversation up to that message, and an invocation with the repaired arguments |
| Orchestrator.DispatchStopsAtFailure | src/mcp-clients/index.ts:80-100 | once a call fails, later calls do not change the outcome |
| Orchestrator.ProcessQuery | src/mcp-clients/index.ts:53-108 | the turn starts from one user message holding the query and a first request offering the whole catalogue; a failed first request is the turn's error; tool calls run as in `Dispatch`; text content alone is the answer; a reply with neither answers with the empty string; the answer is the lines joined by line feeds |
| Orchestrator.ToolCallExchange | src/mcp-clients/index.ts:78-100 | in an answered turn, line 2k is `[Calling tool <name> with args <json>]`, line 2k+1 is the follow-up text or empty, message k+1 is the k-th tool result, and request k+1 resends the conversation up to it without tools |
| Orchestrator.DispatchIgnoresFirstReply | src/mcp-clients/index.ts:78-100 | the tool-call loop does not read the first reply: two worlds that differ only there run it alike |
| Orchestrator.ToolCallsTakePrecedence | src/mcp-clients/index.ts:75-79 | when the first reply asks for tools, its text content does not affect the turn |
| Orchestrator.AnswerSplitsIntoLines | src/mcp-clients/index.ts:107 | when no output line contains a line feed, splitting the answer on line feeds gives the lines back |
| Orchestrator.TextAnswerExample | src/mcp-clients/index.ts:101-102 | a reply with no tool calls and the text `42` answers exactly `42` |
| Orchestrator.RunTurn | src/mcp-clients/index.ts:53-108 | the loop that extends the conversation in place and stops at the first error computes the same outcome as `ProcessQuery` |

## Left out

- Connecting to the server is not modelled: the `.js`/`.ts` extension check, the stdio transport and `listTools` are process and I/O work. Only the mapping of the listed descriptors is modelled (`AdoptTools`).
- `chatLoop` (readline, the `exit` command) and `cleanup` are terminal and process-lifetime I/O.
- `src/mcp-servers/file-mcp-server/index.ts`, `src/openrouter/index.ts` and `src/index.ts` are not part of this model. The gateway is kept abstract: it answers through `World`, whatever `OpenRouterClient.sendMessage` really accepts.
- The real `JSON.parse` and `JSON.stringify` are not modelled. They are the `parse` and `stringify` fields of `JsonCodec`, and JSON values are kept uninterpreted. JSON numbers are `real` values that no contract inspects.
- Console logging and diagnostics are left out, because they do not affect any result.
- Orchestrator.ProcessQuery: `result.content as string` is taken at face value, so a tool result is a string. The cast has no run-time effect, and the non-string content an MCP server may send is not modelled.
- Orchestrator.ProcessQuery: a tool invocation that throws ends the whole turn with `ToolFailed`. No trace line is recorded for it, because `callTool` is awaited at line 84, before the trace line at line 88, and nothing catches the error. A follow-up or first request that fails likewise ends the turn, with `GatewayFailed`.
- Orchestrator.ProcessQuery: the first reply and every follow-up are each one `AssistantMessage`. The `choices[0]` selection and the shape of the gateway's response envelope are not modelled.
- Strings are sequences of Unicode scalar values, while JavaScript strings are UTF-16 code units. Every character the client matches is in the Basic Multilingual Plane, so the difference never shows in the repair steps.
- ArgumentRepair.CleanJsonString: idempotence is not claimed, because it does not hold. `{}{}{` cleans to `{}{}`, which cleans to `{}`. The contract states only what survives any input, and lemmas describe the fixed points and the unwrap and straightening cases.
