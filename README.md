# Claude Code History Viewer — the normalisation pipeline

This project models the core of claude-code-history-viewer. That core
turns the log records of four coding assistants (Claude Code, Codex CLI,
Gemini CLI and Cursor) into one canonical shape: `UniversalMessage`,
`UniversalSession` and `UniversalProject`. Around that conversion sit the
small policies of the desktop back end. Lines that fail to decode are
skipped, and missing fields get fallbacks. There are pagination windows,
token statistics and file-activity extraction. The writer builds session
files, `fix_session.py` repairs them, and there are tables for resuming a
session and for comparing versions in the update check.

JSON is a datatype (`Json.Json`). A serde decode is a partial function from
`Json` into a record, so a line that does not decode becomes `None`. File
contents come in as already-read lines, SQLite rows and directory entries.
The clock, fresh UUIDs and SHA-256 come in as parameters.

The modules follow the source files:

| module | source |
|---|---|
| `Base`, `Json`, `Strings`, `Seqs`, `Paths` | shared helpers: Option/Result, JSON values, ASCII text operations, sequence filters, Unix path components |
| `Universal`, `Models` | `src-tauri/src/models/universal.rs`, `src-tauri/src/models.rs` |
| `ClaudeCode`, `CodexAdapter`, `Gemini` | `src-tauri/src/commands/adapters/{claude_code,codex,gemini}.rs` |
| `Capabilities` | `src-tauri/src/commands/adapters/provider_capabilities.rs` |
| `Session`, `SessionWindow` | `src-tauri/src/commands/session.rs`, `src-tauri/src/commands/session_test.rs` |
| `CodexCommands` | `src-tauri/src/commands/codex.rs` |
| `Cursor`, `Resume` | `src-tauri/src/commands/cursor.rs`, `src-tauri/src/commands/resume.rs` |
| `Stats`, `Files` | `src-tauri/src/commands/stats.rs`, `src-tauri/src/commands/files.rs` |
| `Utils` | `src-tauri/src/utils.rs` |
| `SessionWriter`, `FixSession` | `src-tauri/src/commands/session_writer.rs`, `fix_session.py` |
| `Update`, `SecureUpdate` | `src-tauri/src/commands/update.rs`, `src-tauri/src/commands/secure_update.rs` |
| `Ordering` | the descending sorts used by several commands |

Each loop in the source becomes a method with a `while` loop. Its
`ensures` ties the result to a specification function, and lemmas state
the source's promises about that function. The Gemini hash resolver is a
class over a `map` field.

## Model

| member | source | states |
|---|---|---|
| Universal.RoleName | src-tauri/src/models/universal.rs:273-280 | each of the four roles serialises to a lower-case name that parses back to the same role |
| Universal.ParseRoleExact | src-tauri/src/models/universal.rs:273-280 | exactly "user", "assistant", "system" and "function" parse as roles, and each one is the name of the role it parses to |
| Universal.MessageTypeName | src-tauri/src/models/universal.rs:282-290 | each of the five message types has a lower-case name that parses back to it |
| Universal.ContentTypeName | src-tauri/src/models/universal.rs:292-304 | each of the nine content types has a snake_case name (`ToolUse` is "tool_use") that parses back to it |
| Universal.ToolCallStatusName | src-tauri/src/models/universal.rs:314-320 | each of the three tool-call statuses has a lower-case name that parses back to it |
| Universal.PlainText | src-tauri/src/models/universal.rs:77-97 | a plain-text content item is a Text item whose data holds the text and whose size is the UTF-8 byte length |
| Universal.TokenUsageJson | src-tauri/src/models/universal.rs:192-211 | serialised usage always has inputTokens, outputTokens and totalTokens; each optional camelCase key is present exactly when its value is |
| Universal.TokenUsageRoundTrip | src-tauri/src/models/universal.rs:192-211 | the serialised usage decodes back to the same record |
| Models.DefaultDailyStats | src-tauri/src/models.rs:126-135 | the default daily stats have an empty date and all counters zero |
| Models.DefaultTokenDistribution | src-tauri/src/models.rs:168-174 | the default token distribution is all zeros |
| Models.DecodeTokenUsage | src-tauri/src/models.rs:4-10 | a decoded usage record holds only optional counts that fit in an unsigned 32-bit integer |
| Models.DecodeMessageContent | src-tauri/src/models.rs:13-21 | a decoded message content carries the object's string `role` and its `content` value |
| Models.DecodeNeedsType | src-tauri/src/models.rs:24-47 | a line decodes only if it is an object with a string `type`, and the entry's type is that string |
| Models.DecodeRawLogEntry | src-tauri/src/models.rs:24-47 | a decoded entry carries the line's uuid, parentUuid, sessionId, timestamp, summary and leafUuid strings and its isSidechain flag, and its message is the decoded `message` field |
| Models.TypeAloneDecodes | src-tauri/src/models.rs:24-47 | an object holding only a string `type` decodes, with every other field absent |
| Models.MessageNeedsRoleAndContent | src-tauri/src/models.rs:13-21 | a present `message` must carry a string `role` and a `content`, and then the decoded entry has a message |
| Models.DecodedUsageIsU32 | src-tauri/src/models.rs:4-10 | every token count of a decoded line fits in 32 bits |
| ClaudeCode.DetermineRole | src-tauri/src/commands/adapters/claude_code.rs:140-165 | a known explicit role wins; System only from role "system" or from type "system" with no role; User also from type "user" when the role is absent or unknown; Function only from role "function"; everything else is Assistant |
| ClaudeCode.DetermineMessageType | src-tauri/src/commands/adapters/claude_code.rs:168-182 | Sidechain exactly when `is_sidechain` is true; otherwise summary, branch and error keep their kind and every other type is Message |
| ClaudeCode.ConvertContentItem | src-tauri/src/commands/adapters/claude_code.rs:253-319 | an element is dropped exactly when it has no string `type`, or is "text" without a string `text`; known types keep their kind, unknown types become Text holding the element, and text elements become plain text |
| ClaudeCode.BodyContent | src-tauri/src/commands/adapters/claude_code.rs:185-236 | absent content gives no items, a string gives one plain-text item, an array maps element by element in order, any other value gives one Text item holding it |
| ClaudeCode.ContentOf | src-tauri/src/commands/adapters/claude_code.rs:185-250 | the content list is the body's items, followed by exactly one ToolResult item when the message has a tool result |
| ClaudeCode.ArrayContentCount | src-tauri/src/commands/adapters/claude_code.rs:203-209 | array content yields exactly one item per element that converts |
| ClaudeCode.ConvertContent | src-tauri/src/commands/adapters/claude_code.rs:185-250 | the pushing loop computes the content list above |
| ClaudeCode.ParseToolUseObject | src-tauri/src/commands/adapters/claude_code.rs:380-399 | a call exists exactly when `id` and `name` are strings; it carries them, the object `input` or an empty map, status Pending, and no output or error |
| ClaudeCode.DedupById | src-tauri/src/commands/adapters/claude_code.rs:370-374 | the kept calls have pairwise distinct ids, come from the input, and cover every id of the input |
| ClaudeCode.DedupKeepsFirst | src-tauri/src/commands/adapters/claude_code.rs:370-374 | a call whose id did not occur earlier is kept |
| ClaudeCode.DedupIsFirst | src-tauri/src/commands/adapters/claude_code.rs:370-374 | every kept call is the first call in the input with its id |
| ClaudeCode.ToolCallsOf | src-tauri/src/commands/adapters/claude_code.rs:325-377 | the result is None exactly when no candidate call parses; otherwise it is the de-duplicated candidates, legacy field first, then the content's tool_use blocks |
| ClaudeCode.ToolCallsArePending | src-tauri/src/commands/adapters/claude_code.rs:325-377 | every extracted call is Pending with no output, and the ids are pairwise distinct |
| ClaudeCode.CandidateIsParsed | src-tauri/src/commands/adapters/claude_code.rs:380-399 | every candidate call is Pending with no output |
| ClaudeCode.CollectCalls | src-tauri/src/commands/adapters/claude_code.rs:329-366 | the pushing loop keeps, in order, exactly the elements that parse |
| ClaudeCode.ConvertToolUse | src-tauri/src/commands/adapters/claude_code.rs:325-377 | the imperative extraction computes the tool calls above |
| ClaudeCode.DedupCalls | src-tauri/src/commands/adapters/claude_code.rs:370-374 | the `retain` loop over a seen-set computes the first-occurrence de-duplication |
| ClaudeCode.ThinkingOf | src-tauri/src/commands/adapters/claude_code.rs:402-424 | thinking is the first `thinking` block with string text, with its optional signature and the message's model; None when no block qualifies |
| ClaudeCode.ExtractThinking | src-tauri/src/commands/adapters/claude_code.rs:402-424 | the loop finds that first block |
| ClaudeCode.ToolResultErrors | src-tauri/src/commands/adapters/claude_code.rs:431-461 | a string result that starts with "Error:" or contains "error" gives one `tool_error` carrying that string and no details; an object with `is_error: true` gives one `tool_result_error` whose message is its string `content` or "Unknown error", with the object as details; every other result gives none; each error has the message's timestamp |
| ClaudeCode.ErrorsOf | src-tauri/src/commands/adapters/claude_code.rs:427-492 | None exactly when neither the tool result nor any content block yields an error; otherwise the tool result's error comes first, then the content errors in order |
| ClaudeCode.ContentErrorsShape | src-tauri/src/commands/adapters/claude_code.rs:464-486 | content yields no error exactly when no block is an erroring `tool_result`; every such error is a `tool_result_error` with details and the message time |
| ClaudeCode.CollectErrors | src-tauri/src/commands/adapters/claude_code.rs:464-486 | the loop over the content blocks keeps one error per erroring block, in order |
| ClaudeCode.ExtractErrors | src-tauri/src/commands/adapters/claude_code.rs:427-492 | the imperative extraction computes the errors above |
| ClaudeCode.TokensOf | src-tauri/src/commands/adapters/claude_code.rs:40-47 | counts that fit in `i32` are copied and missing ones are 0; the total is input plus output when that fits; cache counts are present exactly when given, each the `i32` cast of its count and so equal to it when it fits; the tier is copied |
| ClaudeCode.ProviderMetadata | src-tauri/src/commands/adapters/claude_code.rs:52-99 | the metadata keys are among the known ones and always include original_uuid and original_type |
| ClaudeCode.ProviderMetadataEntries | src-tauri/src/commands/adapters/claude_code.rs:52-99 | each key holds exactly what the message carries for it |
| ClaudeCode.ClaudeMessageToUniversal | src-tauri/src/commands/adapters/claude_code.rs:18-137 | the universal message keeps the identity, session, time, parent and model, tags the provider and format, and takes role, type, content, tool calls, thinking, errors, tokens and metadata from the functions above |
| ClaudeCode.ProjectIdOf | src-tauri/src/commands/adapters/claude_code.rs:496-522 | the id is the file name of an explicit project path; otherwise any other answer than "unknown" is the component right after a "projects" component of the file path |
| ClaudeCode.ExtractProjectId | src-tauri/src/commands/adapters/claude_code.rs:496-522 | the component walk computes that id |
| ClaudeCode.ProjectIdFromFilePath | src-tauri/src/commands/adapters/claude_code.rs:507-519 | under a directory with no "projects" component, a file path yields the name right after "/projects/" |
| ClaudeCode.ProjectPathWins | src-tauri/src/commands/adapters/claude_code.rs:497-505 | an explicit project path ending in a plain name gives that name, whatever the file path |
| ClaudeCode.ProjectIdAfter | src-tauri/src/commands/adapters/claude_code.rs:507-519 | once the first "projects" component is found and a normal name follows it, that name is the id |
| ClaudeCode.ProjectIdExample | src-tauri/src/commands/adapters/claude_code.rs:536-540 | an explicit project path wins: "/home/user/.claude/projects/test-project" gives "test-project" |
| CodexAdapter.DecodeCodexEvent | src-tauri/src/commands/adapters/codex.rs:21-33 | a decoded event carries the line's string `type` as its event type |
| CodexAdapter.CodexEventRoundTrip | src-tauri/src/commands/adapters/codex.rs:21-33 | the serialised event decodes back to the same event |
| CodexAdapter.DecodedHasNoNulls | src-tauri/src/commands/adapters/codex.rs:21-33 | a decoded event holds no JSON null in its optional fields, since null reads as absent |
| CodexAdapter.ParseRolloutFilename | src-tauri/src/commands/adapters/codex.rs:41-52 | an accepted name is "rollout-" + a DDDD-DD-DDTDD-DD-DD timestamp + "-" + a run of [a-f0-9-] + ".jsonl", and the result is the timestamp and that run |
| CodexAdapter.RolloutRoundTrip | src-tauri/src/commands/adapters/codex.rs:41-52 | every name of that shape is accepted, and gives back its timestamp and uuid |
| CodexAdapter.RolloutExamples | src-tauri/src/commands/adapters/codex.rs:312-328 | the tests' valid name gives ("2025-01-27T14-30-45", the uuid); "invalid.jsonl", "rollout-2025.jsonl" and "rollout-2025-01-27.jsonl" are rejected |
| CodexAdapter.SessionIdOf | src-tauri/src/commands/adapters/codex.rs:56-70 | a string `internal.session.id` is the session id; otherwise the filename uuid is |
| CodexAdapter.CwdOf | src-tauri/src/commands/adapters/codex.rs:279-301 | `environment_context.cwd` wins over `execution_context.working_directory`; None exactly when neither is a string |
| CodexAdapter.SessionIdAndCwdExamples | src-tauri/src/commands/adapters/codex.rs:352-433 | the tests' session-id and cwd cases: internal id wins, the filename uuid is the fallback, environment wins over execution, none gives None |
| CodexAdapter.LineEventOf | src-tauri/src/commands/adapters/codex.rs:85-104 | a line gives an event exactly when it was read, is not blank, parses and decodes |
| CodexAdapter.ParseCodexJsonl | src-tauri/src/commands/adapters/codex.rs:79-108 | the line loop computes the tolerant event list, stopping at the first read error |
| CodexAdapter.CodexEventsTolerant | src-tauri/src/commands/adapters/codex.rs:79-108 | without read errors the load succeeds; every event comes from a line, and every decodable line gives one of the events |
| CodexAdapter.DetermineRole | src-tauri/src/commands/adapters/codex.rs:209-229 | a string `payload.role` decides alone (user, system, else Assistant); otherwise the event-type table decides; the role is never Function |
| CodexAdapter.EventTypeRole | src-tauri/src/commands/adapters/codex.rs:218-228 | User exactly for user_message, user_input and user; System exactly for system_message and system; Assistant otherwise |
| CodexAdapter.RoleExamples | src-tauri/src/commands/adapters/codex.rs:331-349 | the tests' cases: user_message is User, assistant_response Assistant, system System |
| CodexAdapter.TextItem | src-tauri/src/commands/adapters/codex.rs:241-252 | an array element gives an item exactly when it has a string `text`, and that item is plain text |
| CodexAdapter.CodexContentOf | src-tauri/src/commands/adapters/codex.rs:233-274 | no payload gives no items; string content is one Text item; array content gives the Text items of its text elements, in order; any other or missing content gives none |
| CodexAdapter.ArrayContentItems | src-tauri/src/commands/adapters/codex.rs:241-252 | every item of array content comes from an element that has a string `text`, and is that text |
| CodexAdapter.TextItemsAreText | src-tauri/src/commands/adapters/codex.rs:241-252 | the items built from an array are all Text |
| CodexAdapter.ArrayContentCount | src-tauri/src/commands/adapters/codex.rs:241-252 | array content yields one item per element with a string `text` |
| CodexAdapter.ConvertContent | src-tauri/src/commands/adapters/codex.rs:233-274 | the pushing loop computes the content list |
| CodexAdapter.CodexMetadata | src-tauri/src/commands/adapters/codex.rs:145-162 | the metadata keys are camelCase, among filePath, eventType, cwd, fileSizeBytes and originalEvent, and always include filePath, eventType and originalEvent |
| CodexAdapter.CodexMetadataEntries | src-tauri/src/commands/adapters/codex.rs:145-162 | each key is present exactly when the event supplies its value, and holds that value |
| CodexAdapter.CodexEventToUniversal | src-tauri/src/commands/adapters/codex.rs:117-201 | id is the event id or "codex-<seq>"; session id empty; type always Message; role, content, model and metadata from the rules above; time falls back to now; no parent, tokens, tool calls, thinking or errors |
| CodexCommands.MessageEventRule | src-tauri/src/commands/codex.rs:346-357 | an event is kept exactly when it is a response_item whose payload type is "message", or an event_msg |
| CodexCommands.CodexMessagesNumbering | src-tauri/src/commands/codex.rs:346-368 | every kept message's sequence number is the index of a kept event in the full list, and its session id comes from that event |
| CodexCommands.CodexMessagesComplete | src-tauri/src/commands/codex.rs:346-368 | every kept event is converted into a message |
| CodexCommands.CodexMessages | src-tauri/src/commands/codex.rs:340-368 | there is one message per message event |
| CodexCommands.LoadCodexMessages | src-tauri/src/commands/codex.rs:316-381 | a read error is passed on, a bad file name is the parse error, and a page never holds more than `limit` messages |
| CodexCommands.LoadCodexMessagesPage | src-tauri/src/commands/codex.rs:373-377 | the page is the contiguous slice from min(offset, total) to min(offset+limit, total) of the kept messages |
| CodexCommands.TruncateSummary | src-tauri/src/commands/codex.rs:268-274 | a summary of at most 100 bytes is kept whole; a longer one is a prefix of at most 100 bytes followed by "..." |
| CodexCommands.TruncateSummaryAsWritten | src-tauri/src/commands/codex.rs:268-274 | the byte slice `&text[..100]`: when it does not panic it agrees with the corrected truncation |
| CodexCommands.TruncateSummaryMidChar | src-tauri/src/commands/codex.rs:268-274 | with a two-byte character across byte 100 the slice panics, while the corrected truncation cuts before that character |
| CodexCommands.SummaryOf | src-tauri/src/commands/codex.rs:264-276 | the summary is the truncated string content of the first event whose type-only role is User, and None when no event is |
| CodexCommands.SummaryOfFirstUser | src-tauri/src/commands/codex.rs:264-276 | when event i is the first user event, string content gives Some of its truncation, and a missing payload or non-string content gives None |
| CodexCommands.ShortId | src-tauri/src/commands/codex.rs:290 | the short id is a prefix of the session id of at most 8 bytes, and the first 8 characters of an ASCII id |
| CodexCommands.Title | src-tauri/src/commands/codex.rs:290 | the title is the summary when there is one, else "Codex Session " followed by a prefix of the session id |
| CodexCommands.TitleAsWritten | src-tauri/src/commands/codex.rs:290 | `&session_id[..8]`: when it does not panic it agrees with the corrected title |
| CodexCommands.ShortSessionIdPanics | src-tauri/src/commands/codex.rs:176 | a rollout name whose uuid is "abc" is accepted, yet the 8-byte slice of "abc" panics; the corrected title is "Codex Session abc" |
| CodexCommands.SessionMetadata | src-tauri/src/commands/codex.rs:243-250 | the session metadata holds filePath and rolloutFile, plus cwd exactly when the first event has one |
| CodexCommands.LoadCodexSessions | src-tauri/src/commands/codex.rs:207-311 | a missing file is the not-found error, a read error is passed on, a bad rollout file name is the parse error; otherwise the result is exactly the one codex session of the events, built with the name's timestamp and uuid |
| CodexCommands.CodexSession | src-tauri/src/commands/codex.rs:227-308 | provider "codex", the given project and source; id, description and title from the session id, summary and title rules; the message count is the number of events; duration 0, no tokens, no tool calls or errors; first and last times from the first and last events, or the file name's timestamp with '-' replaced by ':' when there are none |
| CodexCommands.SessionCountsAllEvents | src-tauri/src/commands/codex.rs:227-228 | the message count is at least the number of kept messages, since it counts every decoded event |
| CodexCommands.EmptySessionFallbacks | src-tauri/src/commands/codex.rs:279-290 | with no events the id is the filename uuid, there is no summary, the first time is the filename timestamp with '-' as ':', and the last time equals the first |
| CodexCommands.SessionFromEvents | src-tauri/src/commands/codex.rs:230-290 | with events the id comes from the first event, and the first and last times come from the first and last events when present |
| CodexCommands.IdAfterAsymmetric | src-tauri/src/commands/codex.rs:194 | the descending id order is asymmetric |
| CodexCommands.ScanCodexProjects | src-tauri/src/commands/codex.rs:141-197 | one project per distinct session id among the files whose names parse, each built from its group, sorted by id descending |
| CodexCommands.ProjectsOfGroups | src-tauri/src/commands/codex.rs:168-191 | one project per group with pairwise distinct ids, each built from its group |
| CodexCommands.SortedDistinctDescending | src-tauri/src/commands/codex.rs:194 | the sort is a permutation that orders the projects by id descending |
| Cursor.SharedFrom | src-tauri/src/commands/cursor.rs:476-488 | the scan from `i` stops at the first index where the paths stop agreeing |
| Cursor.SharedLength | src-tauri/src/commands/cursor.rs:473-488 | all paths agree below the shared length, and not at it |
| Cursor.CutAtLastSlash | src-tauri/src/commands/cursor.rs:464-471 | the cut is a prefix that ends just before the last '/', or "" |
| Cursor.CommonPrefix | src-tauri/src/commands/cursor.rs:463-497 | the result is a prefix of every path, and a non-empty result is followed by '/' in every path |
| Cursor.CommonPrefixAsWritten | src-tauri/src/commands/cursor.rs:463-497 | fewer than two paths give the corrected result; otherwise it panics exactly when the shared character count is not a byte boundary of the first path, and a result is a prefix of every path |
| Cursor.SharedBytePrefix | src-tauri/src/commands/cursor.rs:473-490 | any prefix of the first path cut at the shared length is a prefix of every path |
| Cursor.SharedPrefixOfAll | src-tauri/src/commands/cursor.rs:473-488 | the first path cut at the shared length is a prefix of every path |
| Cursor.SharedLengthIsLongest | src-tauri/src/commands/cursor.rs:473-488 | no common prefix is longer than the shared length |
| Cursor.DirectoryIsLongest | src-tauri/src/commands/cursor.rs:463-497 | every directory that all paths lie under is a prefix of the result |
| Cursor.SinglePathDirectory | src-tauri/src/commands/cursor.rs:464-471 | a single path gives everything before its last '/' |
| Cursor.TwoFilesInOneDirectory | src-tauri/src/commands/cursor.rs:473-497 | two files in one directory give that directory |
| Cursor.FindCommonPrefix | src-tauri/src/commands/cursor.rs:463-497 | the nested loop with its mutable prefix length computes the common directory |
| Cursor.AsWrittenAgreesOnAscii | src-tauri/src/commands/cursor.rs:473-497 | on ASCII paths the char-index and byte-slice mix agrees with the corrected function |
| Cursor.AsWrittenPanicsInsideChar | src-tauri/src/commands/cursor.rs:490 | for "/éa" and "/éb" the byte slice lands inside "é" and panics |
| Cursor.AsWrittenLosesDirectory | src-tauri/src/commands/cursor.rs:490-496 | for "/é/a" and "/é/b" the code as written returns "" while the common directory is "/é" |
| Cursor.DecodeEditorInfo | src-tauri/src/commands/cursor.rs:51-55 | an editor record decodes exactly when it is an object whose `resource` is absent or a string |
| Cursor.DecodeHistoryEntry | src-tauri/src/commands/cursor.rs:46-49 | a history entry decodes exactly when it is an object whose `editor` is absent or decodes |
| Cursor.DecodeHistory | src-tauri/src/commands/cursor.rs:427-432 | the history decodes exactly when it is an array whose every entry decodes, and keeps the entries in order |
| Cursor.DecodeEntries | src-tauri/src/commands/cursor.rs:427-432 | the entries decode exactly when each does, element by element |
| Cursor.ResourcePath | src-tauri/src/commands/cursor.rs:434-443 | only resources starting "file:///" are kept, with "file://" stripped, so the path starts with '/' |
| Cursor.CollectFilePaths | src-tauri/src/commands/cursor.rs:434-443 | the pushing loop keeps, in order, the paths of the entries that have one |
| Cursor.CollectedPathsAreFiles | src-tauri/src/commands/cursor.rs:434-443 | every collected path starts with '/' and comes from an entry |
| Cursor.ProjectInfoOf | src-tauri/src/commands/cursor.rs:445-460 | no paths give ("Unknown Project", "/"); otherwise the root is `RootOf` the paths, a prefix of every path without a trailing '/', and the name is its last '/'-free segment |
| Cursor.RootOf | src-tauri/src/commands/cursor.rs:453-454 | the root is the common directory with its trailing '/' trimmed: a prefix of every path that does not end with '/' |
| Cursor.RootIsLongest | src-tauri/src/commands/cursor.rs:453-454 | no shared directory is longer: any `d` without a trailing '/' such that every path starts with `d + "/"` is a prefix of the root |
| Cursor.LastPiece | src-tauri/src/commands/cursor.rs:455 | the name is a '/'-free suffix of the root: the whole root or what follows its last '/' |
| Cursor.LastPieceAfterSeparator | src-tauri/src/commands/cursor.rs:455 | the last piece of a split is the whole string or the part after the last separator |
| Cursor.LastPieceIsSuffix | src-tauri/src/commands/cursor.rs:455 | the last piece of a split is a suffix of the string |
| Cursor.ProjectOfOneDirectory | src-tauri/src/commands/cursor.rs:452-460 | two files in one directory give that directory as root and its last segment as name |
| Cursor.ExtractProjectInfo | src-tauri/src/commands/cursor.rs:417-461 | a query error is passed on; the call succeeds exactly when the history row exists and decodes, and then gives the project info of its file paths |
| Cursor.WorkspaceProjectInfo | src-tauri/src/commands/cursor.rs:140-143 | the caller falls back to the unknown project when the extraction fails |
| Cursor.DecodeBubble | src-tauri/src/commands/cursor.rs:39-44 | a bubble decodes exactly when it is an object with an `i32` `type` and a string `text` |
| Cursor.BubbleRole | src-tauri/src/commands/cursor.rs:259-263 | type 1 is User and every other type Assistant |
| Cursor.BubbleMessage | src-tauri/src/commands/cursor.rs:266-315 | id is the key, session id the database path, time now, sequence number the row position, one plain-text item, no parent, model, tokens, tool calls or errors, and metadata rowid and bubble_type |
| Cursor.RowStep | src-tauri/src/commands/cursor.rs:245-256 | a row fails exactly when it cannot be read or its bubble does not decode; a decoded bubble is skipped exactly when its text is blank |
| Cursor.BubbleMessages | src-tauri/src/commands/cursor.rs:245-318 | a successful load gives at most one message per row |
| Cursor.BubbleMessagesFailStep | src-tauri/src/commands/cursor.rs:245-252 | the load of one more row fails exactly when the shorter load fails or the new row does |
| Cursor.FailsIffSomeRowFails | src-tauri/src/commands/cursor.rs:245-252 | the load fails exactly when some row fails |
| Cursor.FirstFailureReported | src-tauri/src/commands/cursor.rs:245-252 | a failed load reports the error of the first failing row |
| Cursor.MessagesAreShownRows | src-tauri/src/commands/cursor.rs:245-318 | the messages are exactly the rows with non-blank text, in order, each numbered by its own row position |
| Cursor.IndicesPrefix | src-tauri/src/commands/cursor.rs:245-318 | the shown rows below `n` depend only on the first `n` rows |
| Cursor.LoadIsShownMessages | src-tauri/src/commands/cursor.rs:247-318 | a successful load returns exactly the messages of the rows with non-blank text, in row order |
| Cursor.ShownStep | src-tauri/src/commands/cursor.rs:254-256 | one more row adds its message when its text is not blank and nothing otherwise |
| Cursor.ShownMessagesStep | src-tauri/src/commands/cursor.rs:254-256 | the shown messages of all rows are those of all but the last, then the last row's message when its text is not blank |
| Cursor.ShownAreIndexed | src-tauri/src/commands/cursor.rs:247-256 | the k-th shown message comes from the k-th row with non-blank text and carries that row's position |
| Cursor.MessagesHaveText | src-tauri/src/commands/cursor.rs:266-292 | every message holds exactly one Text item with non-blank text |
| Cursor.LoadCursorMessages | src-tauri/src/commands/cursor.rs:225-322 | a missing database is an error, a query error is passed on, and otherwise the loop computes the bubble messages |
| Cursor.BubbleMessagesStop | src-tauri/src/commands/cursor.rs:245-252 | once a row fails, later rows do not change the result |
| Cursor.SessionsAreNonEmpty | src-tauri/src/commands/cursor.rs:185-212 | every listed session has a non-zero bubble count taken from its database, the workspace id or "unknown", and the name "Cursor Chat" |
| Cursor.LoadCursorSessions | src-tauri/src/commands/cursor.rs:163-218 | the sessions are the non-empty databases, as a permutation sorted by last_modified descending |
| Resume.SessionUuid | src-tauri/src/commands/resume.rs:75-83 | an id not ending ".jsonl" is unchanged; otherwise it is its file stem, and an error when there is none |
| Resume.LastDotBeforeExtension | src-tauri/src/commands/resume.rs:75-83 | in "<uuid>.jsonl" the last '.' is the one before the extension |
| Resume.SessionUuidOfFile | src-tauri/src/commands/resume.rs:31-39 | a session file path "<dir>/<uuid>.jsonl" gives the uuid |
| Resume.ResumeCommand | src-tauri/src/commands/resume.rs:66-111 | a bad id or an unsupported provider is an error; gemini gives only the interactive command; the others give "cd <wd> && <cmd>" with wd defaulting to "." |
| Resume.ClaudeResumeLine | src-tauri/src/commands/resume.rs:96-110 | Claude Code gives "cd <wd> && claude --resume <id>" |
| Resume.CodexResumeLineInCurrentDirectory | src-tauri/src/commands/resume.rs:96-110 | Codex with no directory gives "cd . && codex resume <id>" |
| Resume.DirectResumeLine | src-tauri/src/commands/resume.rs:96-110 | every resumable provider other than gemini gives the cd line with its template |
| Resume.GeminiResumeLine | src-tauri/src/commands/resume.rs:89-94 | gemini gives "/chat resume <id>" alone |
| Resume.ResumeLaunch | src-tauri/src/commands/resume.rs:18-64 | no directory, a bad id and an unsupported provider are errors in that order; otherwise the terminal is launched in the directory with the provider's command |
| Resume.GeminiLaunchOpensCli | src-tauri/src/commands/resume.rs:55-61 | resuming gemini opens "gemini" in the directory |
| Resume.CwdOf | src-tauri/src/commands/resume.rs:149-172 | a line yields a cwd exactly when it has one of cwd, message.cwd, metadata.cwd or payload.cwd, and it is one of them |
| Resume.CwdPriority | src-tauri/src/commands/resume.rs:149-172 | cwd wins over message.cwd, which wins over metadata.cwd, which wins over payload.cwd |
| Resume.ScanSessionCwd | src-tauri/src/commands/resume.rs:138-175 | the loop over the first 20 lines computes the cwd lookup |
| Resume.ScanCwd | src-tauri/src/commands/resume.rs:142-178 | the "could not find" error comes exactly when no line gives a cwd and none fails to read; any other error is a line's read error |
| Resume.ScanFindsFirst | src-tauri/src/commands/resume.rs:138-175 | a found cwd comes from the first line that has one |
| Resume.BlankLinesUseUpTheScan | src-tauri/src/commands/resume.rs:138-145 | twenty blank lines before the cwd leave it unfound |
| Resume.AllBlank | src-tauri/src/commands/resume.rs:138-178 | blank lines alone give the not-found error |
| Resume.LaterLinesIgnored | src-tauri/src/commands/resume.rs:138-145 | lines after the twentieth do not change the result |
| Resume.ParseCompositeId | src-tauri/src/commands/resume.rs:265-284 | without "#session=" it is that error; without "#workspace=" after it, or "#timestamp=" after that, it is the matching error; no other error occurs; a parsed id is db path, "#session=", session id, "#workspace=", workspace id, "#timestamp=" in order, cut at the first "#session=" |
| Resume.CompositeIdRoundTrip | src-tauri/src/commands/resume.rs:265-284 | a composite id built from pieces without markers parses back to those pieces |
| Resume.CursorBase | src-tauri/src/commands/resume.rs:291-296 | the base is the database path with its last three components removed |
| Resume.CursorBaseOfLayout | src-tauri/src/commands/resume.rs:291-296 | "<dir>/User/globalStorage/state.vscdb" has base "<dir>" |
| Resume.WorkspaceDbPathUnderBase | src-tauri/src/commands/resume.rs:299-303 | the workspace database is "<base>/User/workspaceStorage/<id>/state.vscdb" |
| Resume.ToWindowsPath | src-tauri/src/commands/resume.rs:372-381 | a path "/X:..." loses the slash and has every '/' replaced by '\'; any other path is unchanged |
| Resume.ToWindowsPathAsWritten | src-tauri/src/commands/resume.rs:372-381 | when it does not panic it agrees with the corrected function; it panics only on a path starting with '/' whose second or third byte is inside a character |
| Resume.DriveLetterPath | src-tauri/src/commands/resume.rs:372-381 | "/C:/a/b" becomes "C:\a\b" |
| Resume.WindowsPathAsWrittenAgreesOnAscii | src-tauri/src/commands/resume.rs:372-381 | on ASCII paths the byte-slicing code agrees with the corrected conversion |
| Resume.WindowsPathAsWrittenPanics | src-tauri/src/commands/resume.rs:372-374 | for "/éab" the byte slice `&without_slash[1..2]` starts inside "é" and panics, while the corrected conversion leaves it unchanged |
| Resume.HistoryResource | src-tauri/src/commands/resume.rs:341-353 | a history resource path starts with '/' |
| Resume.HistoryResourceAgrees | src-tauri/src/commands/resume.rs:341-353 | it is the same filter that cursor.rs applies |
| Resume.FindCommonFilePrefix | src-tauri/src/commands/resume.rs:447-482 | it computes the same function as `find_common_prefix` in cursor.rs |
| Resume.HomeFallback | src-tauri/src/commands/resume.rs:438-442 | the home directory when there is one, else the "Could not determine workspace directory" error |
| Resume.CursorSessionCwd | src-tauri/src/commands/resume.rs:258-443 | a bad composite id is passed on, and a database path too short for a base is that error |
| Resume.WorkspaceLookup | src-tauri/src/commands/resume.rs:323-442 | the history's root when there is one, else the folder URI's, else the home directory or the workspace-directory error |
| Resume.WorkspaceOpenFailureReported | src-tauri/src/commands/resume.rs:318-319 | a workspace database that exists but does not open gives "Failed to open workspace DB: " and the error |
| Resume.NoRootGivesHome | src-tauri/src/commands/resume.rs:438-442 | with no root from the history or the folder URI the answer is the home directory, or the workspace-directory error without one |
| Resume.MissingWorkspaceGivesHome | src-tauri/src/commands/resume.rs:310-315 | without a workspace database the result is the home fallback |
| Resume.HistoryRootWins | src-tauri/src/commands/resume.rs:327-390 | a history that yields a root gives that root, URL-decoded and converted |
| Resume.HistoryRoot | src-tauri/src/commands/resume.rs:327-390 | a root needs a history string that parses as an array with at least one file path, and is the Windows form of the URL-decoded `Cursor.RootOf` of those paths |
| Resume.HistoryRootAsWritten | src-tauri/src/commands/resume.rs:356-385 | no root exactly when the corrected reader finds none; otherwise it panics when the prefix slice of resume.rs:474 panics, or else exactly when the conversion of the decoded, trimmed prefix panics, and gives that conversion, the trimmed prefix being a prefix of every path |
| Resume.HistoryRootAsWrittenAgreesOnAscii | src-tauri/src/commands/resume.rs:356-385 | ASCII paths whose decoded root is ASCII give the corrected reader's result |
| Resume.HistoryWideRootPanics | src-tauri/src/commands/resume.rs:372-374 | a lone file "/éab/x.txt" makes `&without_slash[1..2]` panic, where the corrected reader gives "/éab" |
| Resume.HistorySharedPrefixPanics | src-tauri/src/commands/resume.rs:474 | files "/éa/x" and "/éb/y" make the prefix slice panic inside "é", where the corrected reader gives a root |
| Resume.FolderUriRootAsWritten | src-tauri/src/commands/resume.rs:405-418 | panics exactly when the folder URI yields a path whose conversion panics; otherwise gives the corrected folder-URI root |
| Resume.FolderUriWidePathPanics | src-tauri/src/commands/resume.rs:408-410 | a folder-URI path "/éab" makes the conversion panic, where the corrected lookup answers "/éab" |
| Resume.WorkspaceLookupAsWritten | src-tauri/src/commands/resume.rs:323-442 | panics exactly when the history root as written panics, or, with no history root, when the folder URI was read and its print at byte 200 or its conversion panics; a history root gives the as-written root, and otherwise the result is the corrected lookup's |
| Resume.FolderUriNotDecoded | src-tauri/src/commands/resume.rs:395-422 | the folderUri root is used next, and the URL decoder does not affect it |
| Resume.HistoryRootNeedsPaths | src-tauri/src/commands/resume.rs:327-390 | the history yields a root exactly when it parses as an array holding at least one `file:///` resource, whatever the URL decoder |
| Resume.GetSessionCwd | src-tauri/src/commands/resume.rs:117-178 | cursor sessions go through the composite lookup; otherwise an open error is passed on and the lines are scanned |
| Resume.LogHead | src-tauri/src/commands/resume.rs:127 | `&s[..s.len().min(n)]` fails exactly when s is longer than n bytes and byte n falls inside a character; otherwise it gives a prefix of s |
| Resume.CursorSessionCwdAsWritten | src-tauri/src/commands/resume.rs:258-443 | before the workspace database is open it gives the corrected lookup's result; after, it is the as-written database lookup, with all four panics, while the corrected result is the corrected database lookup |
| Resume.FolderUriLogPanics | src-tauri/src/commands/resume.rs:403 | a folder URI of 199 ASCII bytes followed by "é" makes the print panic |
| Resume.GetSessionCwdAsWritten | src-tauri/src/commands/resume.rs:123-178 | the command as written panics when the session path's cut at byte 100 falls inside a character; otherwise Cursor ids take the as-written Cursor lookup, with its panics, and other providers take the corrected command's branches |
| Resume.SessionPathLogPanics | src-tauri/src/commands/resume.rs:127 | a session path of 99 ASCII bytes followed by "é" panics for every provider and file |
| Resume.SessionPathLogSafe | src-tauri/src/commands/resume.rs:127 | an ASCII path, or one of at most 100 bytes, prints without panic, and for a non-Cursor provider the command then gives a result |
| Gemini.OptArray | src-tauri/src/commands/adapters/gemini.rs:33-53 | an optional array field is absent when missing or null, present when it is an array, and otherwise fails the decode |
| Gemini.DecodeGeminiSession | src-tauri/src/commands/adapters/gemini.rs:33-53 | only an object decodes as a session |
| Gemini.DecodeGeminiMessage | src-tauri/src/commands/adapters/gemini.rs:55-85 | only an object decodes as a message, and its content is the field as given |
| Gemini.DecodeGeminiMessageShapes | src-tauri/src/commands/adapters/gemini.rs:55-85 | an empty object decodes with every field absent, a non-object does not decode, and a mistyped field fails the decode |
| Gemini.NormalizePath | src-tauri/src/commands/adapters/gemini.rs:122-125 | the normalised path has the same length, every '\' becomes '/', and letters are lower case |
| Gemini.NormalizeIdempotent | src-tauri/src/commands/adapters/gemini.rs:122-125 | normalising twice is normalising once |
| Gemini.NormalizeExample | src-tauri/src/commands/adapters/gemini.rs:122-125 | "C:\Work\App" and "c:/work/app" normalise to the same key |
| Gemini.Registered | src-tauri/src/commands/adapters/gemini.rs:104-108 | registering a path adds its hash key, which then holds the original path, and leaves every other key alone |
| Gemini.RegisterLaterWins | src-tauri/src/commands/adapters/gemini.rs:104-108 | when two paths have the same key, the later registration wins |
| Gemini.SeededKeys | src-tauri/src/commands/adapters/gemini.rs:111-119 | seeding adds exactly the keys of the sessions whose metadata cwd is a string |
| Gemini.Seeded | src-tauri/src/commands/adapters/gemini.rs:111-119 | seeding keeps every key, and every new or changed value is the cwd of some session |
| Gemini.GeminiHashResolver.constructor | src-tauri/src/commands/adapters/gemini.rs:92-97 | a new resolver has an empty table |
| Gemini.GeminiHashResolver.Resolve | src-tauri/src/commands/adapters/gemini.rs:99-102 | resolve gives the path stored under the hash, and None when there is none |
| Gemini.GeminiHashResolver.Register | src-tauri/src/commands/adapters/gemini.rs:104-108 | the table becomes the registered table, and the path's own hash then resolves to the path |
| Gemini.GeminiHashResolver.SeedFromSessions | src-tauri/src/commands/adapters/gemini.rs:111-119 | the loop over the sessions leaves the seeded table |
| Gemini.ExtractText | src-tauri/src/commands/adapters/gemini.rs:388-406 | a string gives itself, an object its string "text", and any scalar None |
| Gemini.FirstText | src-tauri/src/commands/adapters/gemini.rs:396-402 | an array gives the text of its first element that yields one, depth first, and None when none does |
| Gemini.ExtractTextNested | src-tauri/src/commands/adapters/gemini.rs:396-402 | text nested in an inner array is found before a later element |
| Gemini.FirstUserTextStops | src-tauri/src/commands/adapters/gemini.rs:376-386 | the title comes from the first decodable message that is a user message or has neither role nor type, and that message alone decides |
| Gemini.FirstUserText | src-tauri/src/commands/adapters/gemini.rs:376-386 | a title is the text of some user message |
| Gemini.FindFirst | src-tauri/src/commands/adapters/gemini.rs:376-386 | the search finds the first message that stops it, and None when none does |
| Gemini.FindFirstTail | src-tauri/src/commands/adapters/gemini.rs:376-386 | the search on the tail finds the same message one place earlier |
| Gemini.RoleOfName | src-tauri/src/commands/adapters/gemini.rs:408-422 | User exactly for user and human, System exactly for system, Function exactly for tool and tool_result, and Assistant otherwise |
| Gemini.GeminiRole | src-tauri/src/commands/adapters/gemini.rs:408-422 | `role` decides when present, else `type` is read through the same name table, and with neither the role is Assistant |
| Gemini.GeminiType | src-tauri/src/commands/adapters/gemini.rs:424-432 | error is Error, summary is Summary, anything else Message |
| Gemini.GeminiContent | src-tauri/src/commands/adapters/gemini.rs:434-451 | at most one item; exactly one when the content yields text, and then a Text item with that text and its byte length |
| Gemini.GeminiToolCalls | src-tauri/src/commands/adapters/gemini.rs:453-478 | a call exists exactly for type tool_use or tool_call with a name (else `tool`); it has status Success, that name, the input object or an empty map, and no output |
| Gemini.ToolNamePriority | src-tauri/src/commands/adapters/gemini.rs:462-465 | `name` is preferred over `tool` |
| Gemini.GeminiMessageToUniversal | src-tauri/src/commands/adapters/gemini.rs:287-297 | the conversion fails exactly when the value does not decode, with the parse error |
| Gemini.GeminiMessageFields | src-tauri/src/commands/adapters/gemini.rs:287-339 | the id is id, else uuid, else "gemini-<seq>"; time falls back to now; role, type, content and tool calls from the rules above; parent and model are copied |
| Gemini.SessionMetadata | src-tauri/src/commands/adapters/gemini.rs:237-256 | the metadata always holds filePath, and each optional key exactly when its value is known |
| Gemini.GeminiFileToSession | src-tauri/src/commands/adapters/gemini.rs:206-280 | a read error and a parse error are reported; a session has provider gemini, the hash of its path as id and the hash of its text as checksum |
| Gemini.SessionFallbacks | src-tauri/src/commands/adapters/gemini.rs:219-265 | messages fall back to history and then empty, the count is that length, the title is the first user text or else "Untitled Session", the first time is the start time or else now, and the last time is the last update or else the first |
| Gemini.GeminiProjectFields | src-tauri/src/commands/adapters/gemini.rs:163-199 | a directory's project has the directory's hash as id, the directory as path, provider gemini, its file count as session count, no messages or activity times, the name "Unknown" when the directory has no last name, and `project_hash` exactly when the first file reads and carries one |
| Gemini.ProjectsOfDirectories | src-tauri/src/commands/adapters/gemini.rs:163-202 | the loop over the map yields one project per directory, each built from its files, no directory twice |
| Gemini.GeminiSessionsToProjects | src-tauri/src/commands/adapters/gemini.rs:140-203 | a failed walk is returned as its error; otherwise there is one project per parent directory of the found files, built from the files in it in walk order |
| Gemini.FileCounted | src-tauri/src/commands/adapters/gemini.rs:150-157 | every found file with a parent is among the files of its directory's project |
| Session.ToMessage | src-tauri/src/commands/session.rs:48-94 | a kept entry keeps its fields; a missing uuid becomes a fresh id, a missing session id "unknown-session", a missing time now; role and content exist exactly when the entry has a message, and with a message the message id, model and stop reason are the message's own, while without one they and the usage are absent |
| Session.CountedHaveNoSidechain | src-tauri/src/commands/session.rs:321-330 | with exclude_sidechain no counted message is a sidechain |
| Session.KeptMessagesShape | src-tauri/src/commands/session.rs:43-49 | no kept message is a summary |
| Session.KeptMessages | src-tauri/src/commands/session.rs:38-97 | every kept line gives its message, and every message comes from a kept line |
| Session.SidechainFilterCommutes | src-tauri/src/commands/session.rs:132-140 | dropping sidechains from the kept messages gives the counted messages |
| Session.SummaryIsFirstText | src-tauri/src/commands/session.rs:43-46 | the session summary is that of the first summary line that carries one |
| Session.ActualSessionId | src-tauri/src/commands/session.rs:108-118 | the first session id other than "unknown-session", and "unknown-session" exactly when every message has it |
| Session.ShownCount | src-tauri/src/commands/session.rs:132-138 | with exclude_sidechain the count leaves out sidechain messages; otherwise it counts all |
| Session.SessionOf | src-tauri/src/commands/session.rs:108-181 | the session is named by its path, its count is the shown count, first and last times come from the unfiltered first and last messages, and the flags and summary from the lines |
| Session.FileSession | src-tauri/src/commands/session.rs:10-181 | a session comes only from a readable .jsonl file with at least one kept message |
| Session.FileSessions | src-tauri/src/commands/session.rs:16-181 | the sessions are exactly those of the files that give one |
| Session.SessionCountIsPageTotal | src-tauri/src/commands/session.rs:132-140 | with exclude_sidechain the session's message count equals the paginated total, while its first time is still that of the first kept message |
| Session.ReadSessionLines | src-tauri/src/commands/session.rs:36-104 | the line loop computes the kept messages and the summary |
| Session.ReadFileSession | src-tauri/src/commands/session.rs:10-181 | the per-file loop computes the file's session |
| Session.FileSessionsSnoc | src-tauri/src/commands/session.rs:10-181 | one more file adds its session, if it has one, at the end |
| Session.LoadProjectSessions | src-tauri/src/commands/session.rs:10-187 | the sessions are those of the files, as a permutation sorted by last_modified descending |
| Session.SummaryMessage | src-tauri/src/commands/session.rs:203-235 | a summary line with text becomes a "summary" message holding that text, with the usual id, session and time fallbacks |
| Session.LineMessage | src-tauri/src/commands/session.rs:200-290 | a line gives a message exactly when it is a summary with text or a kept entry |
| Session.LoadedWithoutSummaries | src-tauri/src/commands/session.rs:190-290 | leaving out the summary messages from a full load gives the kept messages |
| Session.LoadedSummaryCount | src-tauri/src/commands/session.rs:203-235 | a full load holds one summary message per summary line with text |
| Session.LoadSessionMessages | src-tauri/src/commands/session.rs:190-290 | a read error is passed on; otherwise the loop computes the full load |
| Session.PageOf | src-tauri/src/commands/session.rs:321-380 | total_count counts the kept messages; the page is exactly those with index in [offset, offset+limit); has_more iff offset+limit < total; next_offset is offset+limit or total |
| Session.NextPageContinues | src-tauri/src/commands/session.rs:372-373 | the page at next_offset continues the page before it, and is empty after the last page |
| Session.ReadAllYields | src-tauri/src/commands/session.rs:312-313 | the lines are read in order, and a failure gives the error of a line |
| Session.LoadSessionMessagesPaginated | src-tauri/src/commands/session.rs:295-381 | an open error and a line error are passed on; otherwise the loop computes the page |
| Session.ReadAllStops | src-tauri/src/commands/session.rs:312-313 | the first line error is the one reported |
| Session.GetSessionMessageCount | src-tauri/src/commands/session.rs:384-405 | a read error is passed on; otherwise the count of non-summary entries |
| Session.CountCoversPageTotal | src-tauri/src/commands/session.rs:398-404 | the count is never below the paginated total |
| Session.CountExceedsPageTotal | src-tauri/src/commands/session.rs:398-404 | an entry with neither session id nor time is counted but not paginated |
| Session.SearchHit | src-tauri/src/commands/session.rs:425-462 | a line is a hit exactly when it is a user or assistant entry with a message whose text contains the query without case, and the hit is its message |
| Session.SearchFile | src-tauri/src/commands/session.rs:420-465 | the loop over a file's lines computes its hits |
| Session.SearchMessages | src-tauri/src/commands/session.rs:408-467 | the hits of every file, and none when the projects folder is missing |
| Session.HitsMatch | src-tauri/src/commands/session.rs:408-467 | every hit is a chat message whose content matches the query |
| SessionWindow.Remaining | src-tauri/src/commands/session_test.rs:59-65 | remaining is total minus offset, saturated at 0 |
| SessionWindow.ChatWindowOf | src-tauri/src/commands/session_test.rs:59-77 | 0 <= start <= end <= total, end - start = toLoad = min(limit, remaining), and a window past the end is empty |
| SessionWindow.SaturationUnused | src-tauri/src/commands/session_test.rs:59-77 | when the page fits, the window is [total-offset-limit, total-offset) |
| SessionWindow.PagesWalkBackward | src-tauri/src/commands/session_test.rs:136-159 | the next page ends where this one starts |
| SessionWindow.PageIsSlice | src-tauri/src/commands/session_test.rs:136-159 | a page followed by the messages already shown is the suffix from its start |
| SessionWindow.FirstPage | src-tauri/src/commands/session_test.rs:29-47 | 200 messages, offset 0, limit 20 give [180, 200) |
| SessionWindow.PageAfterOneHundredTwenty | src-tauri/src/commands/session_test.rs:50-82 | total 300, offset 120, limit 20 give remaining 180 and [160, 180) |
| SessionWindow.BoundaryPages | src-tauri/src/commands/session_test.rs:84-114 | total 150: offset 140 loads 10, and offset 150 leaves 0 |
| SessionWindow.OffsetPastTotal | src-tauri/src/commands/session_test.rs:116-133 | an offset past the total saturates remaining to 0 |
| SessionWindow.ChatStyleOrder | src-tauri/src/commands/session_test.rs:136-159 | over 100 messages the first pages are [80, 100) and then [60, 80) |
| Capabilities.ForProvider | src-tauri/src/commands/adapters/provider_capabilities.rs:27-61 | exactly claude-code, codex, gemini and cursor support resume, and exactly those have a template and a CLI name; only gemini's resume type is interactive |
| Capabilities.BuildResumeCommand | src-tauri/src/commands/adapters/provider_capabilities.rs:66-70 | None exactly when there is no template; otherwise the template with every "{session_id}" replaced |
| Capabilities.InteractiveCommandOf | src-tauri/src/commands/adapters/provider_capabilities.rs:74-81 | Some exactly when the resume type is interactive, with the same substitution |
| Capabilities.OnlyGeminiIsInteractive | src-tauri/src/commands/adapters/provider_capabilities.rs:84-86 | `is_interactive` holds exactly for gemini |
| Capabilities.FillTrailingPlaceholder | src-tauri/src/commands/adapters/provider_capabilities.rs:66-70 | a template ending in the placeholder gets the id there |
| Capabilities.ShortTemplateUnchanged | src-tauri/src/commands/adapters/provider_capabilities.rs:66-70 | a template too short to hold the placeholder comes back unchanged |
| Capabilities.ClaudeResumeCommand | src-tauri/src/commands/adapters/provider_capabilities.rs:31 | claude-code gives "claude --resume <id>" |
| Capabilities.CodexResumeCommand | src-tauri/src/commands/adapters/provider_capabilities.rs:37 | codex gives "codex resume <id>" |
| Capabilities.GeminiResumeCommand | src-tauri/src/commands/adapters/provider_capabilities.rs:44 | gemini's template has no placeholder and comes back as "gemini" |
| Capabilities.CursorResumeCommand | src-tauri/src/commands/adapters/provider_capabilities.rs:52 | cursor's template has no placeholder and comes back as "cursor ." |
| Capabilities.GeminiInteractiveCommand | src-tauri/src/commands/adapters/provider_capabilities.rs:46 | gemini's interactive command is "/chat resume <id>" |
| Utils.AfterDashes | src-tauri/src/utils.rs:3-10 | the remainder after `n` dashes is a suffix of the name |
| Utils.ExtractProjectName | src-tauri/src/utils.rs:2-12 | the result is a suffix of the raw name, and a name not starting with '-' is unchanged |
| Utils.ProjectNameOfEncoded | src-tauri/src/utils.rs:3-10 | "-a-b-rest" with dash-free a and b gives "rest", keeping any dashes in it |
| Utils.ShortNameKept | src-tauri/src/utils.rs:3-10 | a name starting with '-' that holds fewer than three dashes is unchanged; with three or more it is what follows the third dash |
| Utils.AfterDashesCount | src-tauri/src/utils.rs:3-10 | the text after the n-th dash exists exactly when the name holds at least n dashes |
| Utils.EstimateMessageCount | src-tauri/src/utils.rs:16-19 | the estimate is ceil(size/1000) with a minimum of 1, so 0 and 1000 give 1 and 1001 gives 2 |
| Utils.EstimateMonotone | src-tauri/src/utils.rs:19 | the estimate never decreases as the size grows |
| Ordering.LaterFirstAsymmetric | src-tauri/src/commands/session.rs:184 | the newest-first order is asymmetric |
| Ordering.SortedNewestFirst | src-tauri/src/commands/session.rs:184 | a sorted sequence has no key less than a later one |
| Ordering.SortNewestFirst | src-tauri/src/commands/session.rs:184 | the sort is a permutation ordered by key descending |
| Stats.CountIn | src-tauri/src/commands/stats.rs:23-40 | a count is read exactly when the usage object holds an unsigned number under the key, and it fits in 32 bits |
| Stats.ReadContentUsage | src-tauri/src/commands/stats.rs:17-40 | the first tier reads each count and the tier from the content's usage object |
| Stats.OverlayResultUsage | src-tauri/src/commands/stats.rs:42-63 | every count present in tool_use_result.usage overrides the same count |
| Stats.ExtractTokenUsage | src-tauri/src/commands/stats.rs:10-77 | the three-tier imperative fallback computes the usage |
| Stats.UsageOf | src-tauri/src/commands/stats.rs:10-77 | a recorded usage wins; otherwise cache counts and tier come from the tool result, then the content; input and output come from there when either exists, else the result total counts as output for an assistant and as input for others |
| Stats.ResultUsageWins | src-tauri/src/commands/stats.rs:42-63 | a count from tool_use_result.usage is the final count |
| Stats.TotalTokensFallback | src-tauri/src/commands/stats.rs:65-73 | totalTokens is used only when input and output are both absent, as output for "assistant" and as input otherwise |
| Stats.DerivedUsageIsU32 | src-tauri/src/commands/stats.rs:10-77 | every derived count fits in 32 bits |
| Stats.TryFromEntry | src-tauri/src/commands/stats.rs:404-444 | summaries and entries with neither session id nor time are rejected with their errors; the rest convert with the session loader's defaults |
| Stats.EarliestIsLeast | src-tauri/src/commands/stats.rs:110-112 | the first time is one of the timestamps, and no timestamp is less |
| Stats.LatestIsGreatest | src-tauri/src/commands/stats.rs:113-115 | the last time is one of the timestamps, and no timestamp is greater |
| Stats.StatsOf | src-tauri/src/commands/stats.rs:83-131 | the total is the sum of the four category sums, and the count is the number of messages |
| Stats.GetSessionTokenStats | src-tauri/src/commands/stats.rs:80-131 | a load error is passed on, an empty session is an error, and otherwise the fold computes the stats |
| Stats.SessionTimesBound | src-tauri/src/commands/stats.rs:83-131 | the first and last times are the least and greatest timestamps |
| Stats.InputTotalAdds | src-tauri/src/commands/stats.rs:105-108 | the input sum over two runs of messages is the sum of their sums |
| Stats.SortedByTokens | src-tauri/src/commands/stats.rs:151 | a sorted list has total tokens non-increasing |
| Stats.ProjectTokenStats | src-tauri/src/commands/stats.rs:133-153 | the sessions that yield stats, as a permutation sorted by total tokens descending |
| Stats.AddDaily | src-tauri/src/commands/stats.rs:220-230 | a message adds its date, counts one more message there, and leaves the other days alone |
| Stats.AddHeat | src-tauri/src/commands/stats.rs:216-218 | the cell of the message's hour and weekday counts one more message and its tokens; other cells are unchanged |
| Stats.AddMessage | src-tauri/src/commands/stats.rs:193-267 | a message counts once and adds its tools; with a time it adds its date, its input, output, cache-creation and cache-read tokens, and its day and heat-map cell, and the span start becomes the earlier and the end the later of the old one and the time (a tie keeps the old); without one those are unchanged |
| Stats.AddMessageOrdersSpan | src-tauri/src/commands/stats.rs:198-206 | the session start stays at most its end, and a timed message lies between them |
| Stats.MinutesBetween | src-tauri/src/commands/stats.rs:273 | the duration is the whole minutes of the span, truncated, for spans that fit in 32 bits |
| Stats.SubMinuteSpan | src-tauri/src/commands/stats.rs:273 | 59.6 seconds is 0 minutes and 60 seconds is 1 |
| Stats.EndFile | src-tauri/src/commands/stats.rs:272-282 | the file's duration is appended when both ends are known, and its start date is added when it had messages; nothing else changes |
| Stats.ScanLines | src-tauri/src/commands/stats.rs:187-269 | the scan fails exactly when a line fails to read; otherwise it adds at most one message per line and no duration |
| Stats.ScanFiles | src-tauri/src/commands/stats.rs:173-283 | the scan fails exactly when a file fails to open or read; otherwise there is at most one duration per file |
| Stats.SummaryOf | src-tauri/src/commands/stats.rs:157-331 | the summary fails exactly when a file fails; it counts every file as a session, names the project after the path's last component or "Unknown", and the average is at most total tokens over sessions |
| Stats.Bump | src-tauri/src/commands/stats.rs:245-265 | a tool use adds one use, and adds one success when successful, and leaves the other tools alone |
| Stats.BumpAll | src-tauri/src/commands/stats.rs:238-250 | the content's tool_use blocks add exactly their names |
| Stats.BumpAllCounts | src-tauri/src/commands/stats.rs:238-250 | each name gains one use and one success per occurrence among the block names, and a name that does not occur keeps its tally |
| Stats.BlocksCounted | src-tauri/src/commands/stats.rs:238-250 | with no legacy call, a message adds to each tool as many uses and successes as it has tool_use blocks of that name |
| Stats.ActiveHours | src-tauri/src/commands/stats.rs:285-292 | a day with messages has between 1 and 24 active hours, messages/10 when in between; a day without has 0 |
| Stats.FinishDaily | src-tauri/src/commands/stats.rs:285-292 | finishing the days keeps the same dates |
| Stats.Finish | src-tauri/src/commands/stats.rs:318-324 | the total is the sum of the distribution; the averages are integer means, 0 when there is nothing to divide by |
| Stats.GetProjectStatsSummary | src-tauri/src/commands/stats.rs:157-331 | the loop over the files computes the summary, so a file error is the result exactly when some file fails |
| Stats.BumpAllKeeps | src-tauri/src/commands/stats.rs:238-250 | no tool ever has more successes than uses |
| Stats.AddMessageKeeps | src-tauri/src/commands/stats.rs:192-267 | each message keeps the tally's invariant |
| Stats.DailyEntriesShape | src-tauri/src/commands/stats.rs:220-292 | every daily entry is keyed by its date, has session count 1, and 1 to 24 active hours |
| Stats.ToolSuccessesBounded | src-tauri/src/commands/stats.rs:238-267 | every tool's successes are at most its uses |
| Stats.LegacyCallCounted | src-tauri/src/commands/stats.rs:255-265 | a named legacy tool_use adds one use, and one success only when a result exists without is_error true |
| Stats.BlockCallCounted | src-tauri/src/commands/stats.rs:238-250 | a tool_use block in assistant content adds one use and one success |
| Files.OperationName | src-tauri/src/commands/files.rs:528 | the operation's name is lower case, as the filter compares it |
| Files.ReadActivity | src-tauri/src/commands/files.rs:288-323 | Read needs a string file_path; content_after is output.file.content when a string, and size_after its byte length |
| Files.WriteActivity | src-tauri/src/commands/files.rs:326-352 | Write needs a string file_path and a `content` key; non-string content gives no content_after |
| Files.LineDelta | src-tauri/src/commands/files.rs:374-389 | at most one of lines_added and lines_removed is set, it is positive, neither is set when the line counts are equal, and added minus removed is the difference of the counts |
| Files.EditActivity | src-tauri/src/commands/files.rs:355-407 | Edit needs string file_path, old_string and new_string, and gives one change with the line delta and the original file as content_before |
| Files.GlobActivity | src-tauri/src/commands/files.rs:410-444 | Glob needs a string pattern, which becomes the path; size_after is the number of filenames and content_after "Found N files" |
| Files.TotalsBalance | src-tauri/src/commands/files.rs:460-475 | the summed additions minus removals are the net line change of the edits |
| Files.MultiEditTotals | src-tauri/src/commands/files.rs:455-478 | the loop keeps the edits that have both strings and sums their additions and removals |
| Files.MultiEditActivity | src-tauri/src/commands/files.rs:447-506 | MultiEdit needs a string file_path and an `edits` array |
| Files.MultiEditTotalsMeaning | src-tauri/src/commands/files.rs:480-503 | each total is reported only when positive, so both can be set, and their difference is the net line change |
| Files.ExtractFileActivity | src-tauri/src/commands/files.rs:270-285 | only Read, Write, Edit, Glob and MultiEdit yield an activity, each by its own extractor |
| Files.ActivityOf | src-tauri/src/commands/files.rs:288-506 | an activity carries the tool name, the message time, session and id, and the project |
| Files.ExtensionOf | src-tauri/src/commands/files.rs:536-540 | the extension is the text after the last '.', or the whole path when there is none |
| Files.AnyLowered | src-tauri/src/commands/files.rs:527-543 | the loop finds whether some filter value matches without case |
| Files.ShouldIncludeActivity | src-tauri/src/commands/files.rs:509-568 | the method computes the conjunction of the present filters |
| Files.NoFiltersKeepAll | src-tauri/src/commands/files.rs:509-568 | with no filters every activity is kept |
| Files.OperationFilterExact | src-tauri/src/commands/files.rs:527-532 | the operation filter keeps exactly the activities whose operation is listed, ignoring case |
| Files.DateFilterInclusive | src-tauri/src/commands/files.rs:510-524 | with two bounds that parse, the date filter keeps exactly the times between them, bounds included |
| Files.CollectCallActivities | src-tauri/src/commands/files.rs:53-62 | the loop over one message's tool calls keeps the included activities |
| Files.CollectMessageActivities | src-tauri/src/commands/files.rs:51-62 | the loop over the messages keeps the included activities |
| Files.CollectActivities | src-tauri/src/commands/files.rs:48-64 | the loop over the sessions keeps the included activities |
| Files.ActivitiesKept | src-tauri/src/commands/files.rs:48-64 | every collected activity passes the filters and comes from one of the five tools |
| Files.ScopeOf | src-tauri/src/commands/files.rs:25-86 | a relative project path and a relative source path are errors; "" and "*" mean all projects, and without a source path that is the SourcePathRequired error; with valid arguments, a path with Cursor and workspaceStorage components is a Cursor workspace under its base holding the path itself, or InvalidCursorWorkspace when no base is found, and any other path is the Claude project of that same path |
| Files.AllProjectsNeedsSource | src-tauri/src/commands/files.rs:40-45 | all projects without a source path is an error |
| Files.GetFileActivities | src-tauri/src/commands/files.rs:20-171 | scope and load errors are passed on; when both succeed the result is exactly the filtered activities of the loaded sessions, sorted by timestamp descending |
| Files.ResultNewestFirstAndKept | src-tauri/src/commands/files.rs:167-168 | the result is a permutation of the kept activities, newest first, each passing the filters |
| Files.ConvertLine | src-tauri/src/commands/files.rs:204-248 | a decoded non-summary line becomes a message with its uuid, session id, timestamp and tool calls, the given project id and source, and sequence number 0 |
| Files.ConvertLinesForFiles | src-tauri/src/commands/files.rs:191-259 | every decoded non-summary line is converted, in file order, and no other line is |
| Session.CountedSnoc | src-tauri/src/commands/session.rs:314-355 | a new line adds its message exactly when it is counted |
| Session.ReadAllStep | src-tauri/src/commands/session.rs:312-313 | a clean line extends a clean read by that line |
| Files.LoadMessagesForFiles | src-tauri/src/commands/files.rs:174-268 | an open or line error is passed on; otherwise each kept line is converted in order with the project id of the file path |
| SessionWriter.WrapI32 | src-tauri/src/commands/session_writer.rs:414-424 | the cast `as i32` gives a 32-bit value, and leaves a value that already fits unchanged |
| SessionWriter.UsageObject | src-tauri/src/commands/session_writer.rs:520-539 | the usage object holds exactly the counts that are present, as integers, and no other key |
| SessionWriter.UsageObjectNonEmpty | src-tauri/src/commands/session_writer.rs:539-541 | the usage object is non-empty exactly when some count is present |
| SessionWriter.MessageObject | src-tauri/src/commands/session_writer.rs:504-545 | `message` holds the role and content as given, the model exactly when present, and the usage exactly when it is non-empty |
| SessionWriter.ConvertToJsonl | src-tauri/src/commands/session_writer.rs:494-610 | the record carries its fresh uuid, and has no key beyond the fifteen the writer knows |
| SessionWriter.RecordEntries | src-tauri/src/commands/session_writer.rs:546-606 | each key of the record holds exactly what the writer puts under it, and a key it does not write is absent |
| SessionWriter.RecordIdentity | src-tauri/src/commands/session_writer.rs:546-553 | the record holds the session id, the timestamp, the lowercased role as `type` and the message object |
| SessionWriter.RecordConstants | src-tauri/src/commands/session_writer.rs:546-558 | isSidechain is false, cwd is the given path, and userType, version and gitBranch are fixed |
| SessionWriter.RecordRoleFields | src-tauri/src/commands/session_writer.rs:560-582 | requestId is present exactly for role assistant, holding "req_" and the dash-free uuid; thinkingMetadata exactly for role user |
| SessionWriter.RecordOptionalFields | src-tauri/src/commands/session_writer.rs:584-606 | parentUuid is present exactly when a previous uuid is given, and toolUse and toolUseResult exactly when present, holding those values |
| SessionWriter.SummaryMessage | src-tauri/src/commands/session_writer.rs:472-491 | the summary line has type "summary", the text, the session id, and a leafUuid equal to its own uuid |
| SessionWriter.WriteMessages | src-tauri/src/commands/session_writer.rs:201-211 | the writing loop produces the chained records |
| SessionWriter.ChainedTypes | src-tauri/src/commands/session_writer.rs:546-553 | every written record has the lower-cased role of its message as its type |
| SessionWriter.ChainLinks | src-tauri/src/commands/session_writer.rs:201-276 | the first record links to the starting uuid (none for a new session), and each later record's parentUuid is the previous record's uuid |
| SessionWriter.CreateClaudeProject | src-tauri/src/commands/session_writer.rs:91-139 | no home is an error, a missing parent is an error, an existing project is an error, a failed directory creation is an error with its message; otherwise the response names the project under the parent or the default projects folder |
| SessionWriter.CreateClaudeSession | src-tauri/src/commands/session_writer.rs:142-224 | a missing project and an existing session file are errors, and otherwise it succeeds; the response names the new file and counts the input messages, and the lines are the session layout |
| SessionWriter.SessionLayout | src-tauri/src/commands/session_writer.rs:175-211 | the first line is the file-history snapshot, then a summary line exactly when a summary is given, then the chained records, one per input message |
| SessionWriter.Snapshot | src-tauri/src/commands/session_writer.rs:179-188 | the snapshot line has type "file-history-snapshot", isSnapshotUpdate false, and the message id outside and inside with the timestamp inside |
| SessionWriter.GetLastMessageUuid | src-tauri/src/commands/session_writer.rs:623-648 | an open error is reported; otherwise the loop computes the last uuid |
| SessionWriter.LastUuid | src-tauri/src/commands/session_writer.rs:633-647 | it fails exactly when some line fails to read or is not JSON, and a found uuid is the uuid string of some line |
| SessionWriter.LastUuidStops | src-tauri/src/commands/session_writer.rs:633-646 | once a line fails to parse, later lines do not change the result |
| SessionWriter.LastUuidIsLast | src-tauri/src/commands/session_writer.rs:633-646 | the result is the uuid of the last non-blank line that carries a string uuid, None when there is none, and any undecodable line is an error |
| SessionWriter.AppendToClaudeSession | src-tauri/src/commands/session_writer.rs:227-286 | a missing file, a bad file name or path, an open error and a bad line are errors with their messages, and otherwise it succeeds; appended records chain from the file's last uuid, and the count is the number of input messages |
| SessionWriter.GatherStops | src-tauri/src/commands/session_writer.rs:315-346 | once a line fails to parse, later lines do not change the result |
| SessionWriter.GatherLines | src-tauri/src/commands/session_writer.rs:312-346 | the line loop computes the kept lines, the last summary and the first usable cwd |
| SessionWriter.Gather | src-tauri/src/commands/session_writer.rs:315-346 | it fails exactly when some line fails to read or is not JSON, and keeps at most one message per line |
| SessionWriter.GatheredAreMessages | src-tauri/src/commands/session_writer.rs:326-344 | no kept line is a summary or a sidechain line |
| SessionWriter.WithPlaceholderParents | src-tauri/src/commands/session_writer.rs:433-440 | every converted entry keeps its place, the first without a parent and the rest with "previous" |
| SessionWriter.InputOf | src-tauri/src/commands/session_writer.rs:382-431 | a record converts exactly when it has a message with a string role and a content; the input carries them, the model, the top-level toolUse and toolUseResult, no parent yet, and a usage exactly when the message has one |
| SessionWriter.ConvertRecords | src-tauri/src/commands/session_writer.rs:379-452 | the conversion loop computes the converted entries, skipping those without message, role or content |
| SessionWriter.RangeOf | src-tauri/src/commands/session_writer.rs:348-469 | a missing start id is an error, and so, once the start is found, is a missing end id ("End message ID not found: " and the id); a result is non-empty and carries the summary and cwd of the file |
| SessionWriter.SelectRange | src-tauri/src/commands/session_writer.rs:348-469 | the steps after the line loop give exactly the range of the gathered records |
| SessionWriter.ExtractMessageRange | src-tauri/src/commands/session_writer.rs:289-469 | a missing file and an open error are reported; otherwise line errors are passed on and the range is taken from the kept lines |
| SessionWriter.RangeInclusive | src-tauri/src/commands/session_writer.rs:348-457 | the start is the start id's position or 0 without one, the end the end id's position or the last record without one; with start at or before end the range holds the converted entries from start to end inclusive, and is an error when none converts |
| SessionWriter.RangeReversed | src-tauri/src/commands/session_writer.rs:348-371 | with those same ends, start after end is the invalid-range error naming both positions |
| SessionWriter.RangeAsWrittenPanics | src-tauri/src/commands/session_writer.rs:358-365 | with no kept lines and no end id, `len() - 1` underflows and the code as written panics; the corrected range reports that no message was found |
| SessionWriter.RangeAsWrittenAgrees | src-tauri/src/commands/session_writer.rs:348-469 | whenever the code as written does not panic, it agrees with the corrected range |
| SessionWriter.UsageReadBack | src-tauri/src/commands/session_writer.rs:412-539 | a written usage object reads back as the same usage |
| SessionWriter.WrittenRecordReadsBack | src-tauri/src/commands/session_writer.rs:379-610 | a written record reads back as its input message, without parent and with the usage as written |
| FixSession.ReadLines | fix_session.py:20-34 | blank and undecodable lines are dropped, and every other line is kept in order |
| FixSession.SnapshotFor | fix_session.py:45-59 | the prepended line is a file-history-snapshot line (its other fields are written out literally in the body) |
| FixSession.FixMessage | fix_session.py:61-90 | a fixed line is still an object |
| FixSession.AnySnapshot | fix_session.py:40 | the loop finds whether some line is a snapshot |
| FixSession.FixSessionFile | fix_session.py:12-103 | the script's outcome: not found, no messages, the crash on a non-object line, or the fixed lines |
| FixSession.FixOf | fix_session.py:15-90 | the session is fixed exactly when the file exists, at least one line parses and every parsed line is an object; the fixed lines then hold a snapshot, are objects, and are at least as many as the input |
| FixSession.FixedLines | fix_session.py:40-90 | the fixed lines are objects and at least as many as the input |
| FixSession.FixKeepsFields | fix_session.py:61-88 | a fixed line keeps every key, and the value of every key but `version` |
| FixSession.FixAddsMetadata | fix_session.py:70-88 | a present version becomes 2.0.28; user and assistant lines get gitBranch, "main" when it was missing; assistant lines get requestId, "req_" and the hex when it was missing; user lines get thinkingMetadata, the high-level default when it was missing |
| FixSession.FixAddsOnly | fix_session.py:63-88 | no other key is added: a line neither user nor assistant keeps its keys, version is never added, and only assistant lines gain requestId |
| FixSession.FixMessageIdempotent | fix_session.py:61-90 | fixing a fixed line again changes nothing |
| FixSession.FixedHasSnapshot | fix_session.py:41-90 | the output has a snapshot, has one line more than was read exactly when one was added, and then starts with it |
| FixSession.FixKeepsSnapshots | fix_session.py:64-68 | a fixed line is a snapshot exactly when the line it came from is, and snapshots pass through |
| FixSession.FixIdempotent | fix_session.py:12-103 | running the script on its own output changes nothing |
| FixSession.FixErrors | fix_session.py:15-36 | a missing file is reported, no readable line is the no-messages outcome, and a non-object line crashes |
| Update.ParseU32 | src-tauri/src/commands/update.rs:181-187 | a piece parses only as an optional '+' and ASCII digits, to a value that fits in 32 bits; every digit string below 2^32 parses to its value |
| Update.Parts | src-tauri/src/commands/update.rs:181-186 | the components are 32-bit values, each the value of some piece, and every piece that parses is among them |
| Update.ParsedExactly | src-tauri/src/commands/update.rs:181-186 | the kept values are exactly those of the pieces that parse |
| Update.CompareFrom | src-tauri/src/commands/update.rs:188-199 | the comparison from an index is -1, 0 or 1 |
| Update.CompareParts | src-tauri/src/commands/update.rs:188-199 | the loop over max(len) components, padding with 0, computes the comparison |
| Update.VersionIsNewer | src-tauri/src/commands/update.rs:179-200 | the method computes whether latest is newer than current |
| Update.VersionIsNewerOrEqual | src-tauri/src/commands/update.rs:202-222 | the method computes whether current is at least minimum |
| Update.IsNewer | src-tauri/src/commands/update.rs:179-200 | latest is newer only when the components of current compare below those of latest |
| Update.IsForced | src-tauri/src/commands/update.rs:122-137 | a forced update needs metadata with force_update set, and a minimum version, if given, not newer than current |
| Update.CompareFromFirstDifference | src-tauri/src/commands/update.rs:188-199 | latest is newer exactly when, at the first component where they differ, latest is larger; they compare equal exactly when every padded component agrees |
| Update.CompareFromFlip | src-tauri/src/commands/update.rs:188-199 | swapping the versions negates the comparison |
| Update.IsNewerIrreflexive | src-tauri/src/commands/update.rs:179-222 | no version is newer than itself, and every version is at least itself |
| Update.NewerOrEqualIsNotNewer | src-tauri/src/commands/update.rs:202-222 | current is at least minimum exactly when minimum is not newer than current |
| Update.IsNewerTransitive | src-tauri/src/commands/update.rs:179-200 | newer-than is transitive |
| Update.PartsZeroPadded | src-tauri/src/commands/update.rs:181-187 | appending ".0" appends a 0 component |
| Update.ZeroPaddedEqual | src-tauri/src/commands/update.rs:188-199 | "1.2" and "1.2.0" are equal: neither is newer |
| Update.SplitAppend | src-tauri/src/commands/update.rs:181-187 | splitting at '.' after appending a dot-free piece appends that piece |
| Update.PreReleaseDropped | src-tauri/src/commands/update.rs:181-187 | "1.0.0-beta" has the components [1, 0], since "0-beta" is not a number |
| Update.LatestVersion | src-tauri/src/commands/update.rs:119 | the latest version is the tag with all leading 'v' characters removed |
| Update.DmgUrl | src-tauri/src/commands/update.rs:140-148 | the download URL is that of the first asset whose name ends ".dmg", and None when there is none |
| Update.ProcessReleaseInfo | src-tauri/src/commands/update.rs:118-153 | latest version, has_update, metadata, forced flag, download URL, release URL and days until the deadline are those of the rules above |
| Update.ForcedNeedsMetadata | src-tauri/src/commands/update.rs:122-137 | without metadata nothing is forced; force_update without a minimum forces; a minimum newer than current does not force |
| SecureUpdate.LevelOf | src-tauri/src/commands/secure_update.rs:92-96 | Verified exactly with signature and checksum, Unverified exactly with neither, Trusted exactly with one |
| SecureUpdate.SignatureUrl | src-tauri/src/commands/secure_update.rs:74-78 | the URL of the first asset ending .sig, .asc or .signature, and None when there is none |
| SecureUpdate.SeparatorsEnd | src-tauri/src/commands/secure_update.rs:101-110 | the separator run `[:\s]*` is taken whole |
| SecureUpdate.ChecksumAt | src-tauri/src/commands/secure_update.rs:101-110 | a match at a position starts with "sha256" in any case and yields 64 hex digits |
| SecureUpdate.ChecksumAtMatches | src-tauri/src/commands/secure_update.rs:105 | "sha256" followed by any run of separators and 64 hex digits is a match, and those digits are reported |
| SecureUpdate.FirstChecksumFrom | src-tauri/src/commands/secure_update.rs:101-110 | the result is the leftmost match, and None when there is no match |
| SecureUpdate.ExtractChecksum | src-tauri/src/commands/secure_update.rs:101-110 | a found checksum is 64 hex digits |
| SecureUpdate.QuotedChecksumFound | src-tauri/src/commands/secure_update.rs:101-110 | "sha256" followed directly by 64 hex digits, with no earlier match, gives those digits |
| SecureUpdate.FirstIsLeftmost | src-tauri/src/commands/secure_update.rs:101-110 | the first match counts, whatever follows it |
| SecureUpdate.NoTagNoChecksum | src-tauri/src/commands/secure_update.rs:101-110 | a body without "sha256" in any case has no checksum |
| SecureUpdate.AnalyzeSecurityInfo | src-tauri/src/commands/secure_update.rs:59-99 | the download URL is the first .dmg, the signature and checksum are found as above, and the level follows from them |
| SecureUpdate.SecureUpdateInfoOf | src-tauri/src/commands/secure_update.rs:40-56 | the secure update info carries the version check and the security info, and is_verified holds exactly at level Verified |
| SecureUpdate.VerifyDownloadIntegrity | src-tauri/src/commands/secure_update.rs:113-135 | open and read failures are errors with their messages; otherwise the digests are compared without case |
| SecureUpdate.DigestCaseInsensitive | src-tauri/src/commands/secure_update.rs:134 | the comparison ignores the case of either digest, is symmetric and reflexive |

## Left out

- Directory walks, file opens and reads, file sizes and modification times: they come in as already-read lines, entries and results. The recursive walks (`find_rollout_files`, `find_gemini_sessions`, `find_cursor_session_dbs`, the WalkDir scans) are not modelled, and neither are the folder checks `get_codex_path`, `validate_codex_folder`, `get_cursor_path` and `validate_cursor_folder`.
- CodexCommands.ScanCodexProjects: always succeeds, because the `!path.exists()` check at its start, which gives the "CODEX_PATH_ERROR: Path does not exist" error, is a file-system query and is not modelled.
- SQLite queries in cursor.rs and resume.rs: their rows come in as values, including `count_cursor_messages` and `scan_cursor_workspaces`, which only run queries.
- Process spawning: `open_terminal_with_command` and `resume_session` start a terminal, and are left out except for the command line they are given.
- Network and retry: `check_for_updates`, `fetch_release_info` and `check_for_updates_secure` fetch a release; the model starts from the fetched release.
- `parse_metadata_from_body` and `calculate_days_until_deadline` are parameters of `Update.ProcessReleaseInfo`, since they parse JSON text and read the clock.
- SHA-256 (the Gemini project hash and the download digest) is a parameter and is not assumed injective.
- The clock (`Utc::now`) and fresh UUIDs (`Uuid::new_v4`) are parameters; no property relies on their values.
- RFC 3339 parsing and hour, weekday and date extraction are parameters or given fields. A parsed time comes in as nanoseconds on one clock, the precision chrono keeps, so minute spans are cut from the exact difference.
- SessionWriter.SessionLines: one `now` parameter stands for both clock reads of session_writer.rs:185 and 486, so the snapshot and the summary carry the same time, where the source may read two slightly different ones.
- Percent-decoding of URIs (`urlencoding::decode`) is a parameter; where the source leaves a folder URI undecoded, so does the model.
- Text is a sequence of characters. `trim`, `to_lowercase` and the regex class `\s` are modelled on ASCII whitespace and ASCII letters only, while Rust's `trim`, `to_lowercase` and regex crate are Unicode-aware. Byte lengths are UTF-8 lengths. The headline members (`CodexCommands.TruncateSummary`, `CodexCommands.ShortId`, `Cursor.CommonPrefix`, `Resume.ToWindowsPath`, `Resume.GetSessionCwd`, `Resume.CursorSessionCwd`, `SessionWriter.RangeOf`) are the corrected versions, which cut at character boundaries and report errors instead of panicking. The byte slices exactly as the source writes them, with their panics, are only in the as-written members named in Findings: `CodexCommands.TruncateSummaryAsWritten`, `CodexCommands.TitleAsWritten`, `Cursor.CommonPrefixAsWritten`, `Resume.ToWindowsPathAsWritten`, `Resume.HistoryRootAsWritten`, `Resume.FolderUriRootAsWritten`, `Resume.WorkspaceLookupAsWritten`, `Resume.GetSessionCwdAsWritten`, `Resume.CursorSessionCwdAsWritten` and `SessionWriter.RangeAsWritten`. The debug print of session.rs is left out (below).
- CodexAdapter.ParseRolloutFilename: `\d` is the ASCII digits 0-9, while in Rust's regex crate it is any Unicode decimal digit, so a name with, say, Arabic-Indic digits in its timestamp is rejected here but accepted by the source.
- SecureUpdate.ChecksumAt: `(?i)` is ASCII case folding, while Rust's regex crate folds Unicode simply, so "ſha256" (with a long s) is not matched here but is in the source.
- Session.LoadProjectSessions: an undecodable line carries no text in the model, so the debug print of session.rs:99-100, which cuts such a line at byte 200 and panics when that byte falls inside a character, is not modelled.
- Floating point: `success_rate`, the percentages, `estimate_message_count_from_size`'s f64 (modelled as integer ceiling division) and the JSON numbers that are floats.
- Stats.Finish: `most_active_hour`, the sorts of `most_used_tools` and `daily_stats` and the heatmap list are kept as maps, so their order and the tie-breaking of `max_by_key` are not modelled.
- `get_session_comparison` in stats.rs is not part of this model.
- The u32 counters in stats.rs are unbounded naturals; the 32-bit wrap-around of their sums is not modelled. The `as u32` casts of decoded token counts are modelled.
- HashMap iteration order: grouped projects come out in the order the map yields them, which the model leaves unspecified before any sort.
- serde's own error texts are not modelled: a decode failure is `None`, or an error whose text is a parameter.
- Paths are Unix paths; Windows separators appear only where the source converts them.
- The JSON serialisation of written lines (`serde_json::to_string`, `json.dumps`) is not modelled; lines are written as JSON values.
- The create, write and flush errors of the session writer and the backup rename of `fix_session.py` are not modelled.
- Files.GetFileActivities: loading the sessions of a scope (the walk over a project, all projects or a Cursor workspace) is a parameter.
- The checksum-asset lookup in `analyze_security_info` finds an asset whose result is never used, so it has no effect on the model.
- `src-tauri/src/commands.rs`, `project.rs`, `commands/gemini.rs`, `feedback.rs` and the module wiring are not part of this model. The first is a stale duplicate, and the others are directory walks or pass-throughs.
- The `Mutex` around the Gemini resolver and `spawn_blocking` in files.rs: the model is sequential.
- FixSession.SnapshotFor: states only that the added line is a snapshot, not its field values, since the body writes those fields out literally and an ensures would only repeat them.

## Findings

| source | as written | input that shows it | evidently intended | confidence | as-written member | corrected member |
|---|---|---|---|---|---|---|
| src-tauri/src/commands/codex.rs:268-274 | `&text[..100]` slices the summary at byte 100 | a first user message of 99 ASCII characters followed by "é" and more text: byte 100 falls inside "é" and the slice panics | cut at the last character boundary within 100 bytes, then add "..." | not executed | CodexCommands.TruncateSummaryMidChar | CodexCommands.TruncateSummary |
| src-tauri/src/commands/codex.rs:176 | `&session_id[..8]` takes the first 8 bytes of the session id, here and again at line 290 | a rollout file "rollout-2025-01-27T14-30-45-abc.jsonl" with no events: its session id "abc" is shorter than 8 bytes and the slice panics | at most the first 8 bytes, cut at a character boundary | not executed | CodexCommands.ShortSessionIdPanics | CodexCommands.ShortId |
| src-tauri/src/commands/cursor.rs:490 | `prefix_len` counts characters but `&first[..prefix_len]` slices bytes; resume.rs:474 repeats the same code | ["/éa", "/éb"] share two characters, and byte 2 falls inside "é", so the slice panics; ["/é/a", "/é/b"] gives "" instead of "/é" | slice at the shared characters, then cut at the last '/' | not executed | Cursor.AsWrittenPanicsInsideChar | Cursor.CommonPrefix |
| src-tauri/src/commands/resume.rs:372-374 | `len() > 2` counts bytes and `&without_slash[1..2]` slices bytes; lines 408-410 repeat it | a history root "/éab" (from a lone file "/éab/x.txt") or a folder-URI path "/éab": byte 1 of "éab" falls inside "é" and the slice panics | test the second character for ':' | not executed | Resume.HistoryWideRootPanics | Resume.ToWindowsPath |
| src-tauri/src/commands/session_writer.rs:358-365 | with no end id the range ends at `all_messages.len() - 1`, a `usize` subtraction | a session whose every line is a summary or a sidechain, extracted with neither id: the subtraction underflows and panics | report that there is no message to extract | not executed | SessionWriter.RangeAsWrittenPanics | SessionWriter.RangeOf |
| src-tauri/src/commands/resume.rs:127 | the debug print cuts the session path with `&session_file_path[..len.min(100)]`, a byte slice | a session path of 99 ASCII characters followed by "é": byte 100 falls inside "é" and the print panics before any lookup | print the path cut at a character boundary | not executed | Resume.SessionPathLogPanics | Resume.GetSessionCwd |
| src-tauri/src/commands/resume.rs:403 | the debug print cuts the folder URI's JSON text with `&folder_uri_json[..len.min(200)]`, a byte slice | a workspace whose history gives no root and whose folderUri text is 199 ASCII characters followed by "é": the print panics | print the text cut at a character boundary | not executed | Resume.FolderUriLogPanics | Resume.CursorSessionCwd |
