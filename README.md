# Chat component model

A Dafny model of the browser chat component of a small chat frontend
(`src/components/Chat.tsx`). The component keeps a list of messages, sends
prompts and free-text "instructions" to a backend, and shows replies.
Two parts of it are modelled and proved:

- **Display-content extraction** (`getDisplayContent`). This chooses the
  text a message is rendered from:
  - the `response` field of a JSON object;
  - otherwise the group captured by the regular expression
    `/"response"\s*:\s*"([^"]*)"/`;
  - otherwise the content unchanged.

  `JSON.parse` is passed in as a function. A throw from it lands in the
  `catch`, which returns the content unchanged.
- **The session state machine** (`sendMessage`, `sendInstructions`, the
  panel toggle and its Cancel button, and the two text boxes). It acts on the five
  pieces of React state, `messages`, `input`, `instructions`,
  `showInstructions` and `loading`. Each `async` handler is split at its
  first `await` into two events:
  - a submit event: the guard, the immediate state updates, and the request;
  - a completion event: everything after the first `await` (in
    `sendMessage` that includes the second `await`, on `response.json()`),
    the reply or failure, plus the `finally` that clears `loading`.

Modules:

- `Optional`: an absent or present property.
- `JsText`: the ECMAScript whitespace set (the characters `trim` removes and
  `\s` matches), `trim`, and the "blank after trim" test.
- `ResponsePattern`: the regular expression written as an explicit scanner.
  `IsMatch` is the declarative set of matches it denotes. The lemmas prove
  that the scanner returns the leftmost match, and that a match is unique at
  its start position. The pattern allows no backtracking: each `\s*` is
  followed by a non-space character, and `[^"]*` is followed by `"`.
- `DisplayContent`: `getDisplayContent` and its properties.
- `ChatSession`: the `Message` record, the reply texts chosen by JavaScript
  `||`, and the class `Chatbot`. The ghost field `pending` of `Chatbot`
  records which request is in flight.

A JSON-shaped text on which `JSON.parse` throws is shown as it is. The
throw jumps to the `catch` (Chat.tsx:36), so the regular expression at
Chat.tsx:32 is never tried (`ParseFailureKeepsContent`,
`ParseFailureSkipsPattern`).

## Model

| member | source | states |
|---|---|---|
| `JsText.SkipWhitespace` | src/components/Chat.tsx:32 | the first position at or after `p` that is not whitespace: only whitespace lies before it, and it is the end or a non-space character (one `\s*` run) |
| `JsText.IsWhitespace` | src/components/Chat.tsx:32 | the ECMAScript WhiteSpace and LineTerminator set, which `trim` removes and `\s` matches: it contains space, tab, newline and carriage return, and never `:`, `"`, `{` or `}` (so the pattern cannot backtrack) |
| `JsText.SkipWhitespaceBack` | src/components/Chat.tsx:25 | the trailing half of `trim`: the smallest position in `[lo, hi]` with only whitespace from it up to `hi`; it is `lo` or follows a non-space character |
| `JsText.Trim` | src/components/Chat.tsx:25 | `trim()` keeps a slice of the text such that everything outside it is whitespace and, if the slice is non-empty, it starts and ends with a non-space character |
| `JsText.TrimUnique` | src/components/Chat.tsx:25 | any cut of the text that meets that description yields exactly `Trim`'s result, so `trim` is fully determined |
| `JsText.TrimEmptyIff` | src/components/Chat.tsx:52 | the guard `!text.trim()` holds exactly when every character is whitespace (both directions) |
| `JsText.IsBlank` | src/components/Chat.tsx:52 | the guard `!text.trim()`, also used at line 100: holds exactly when every character of the text is whitespace |
| `JsText.TrimIdempotent` | src/components/Chat.tsx:56 | trimming already trimmed text changes nothing, so a user message's content is its own trim |
| `JsText.TrimKeepsNonBlank` | src/components/Chat.tsx:56 | text is blank exactly when its trim is blank, so the prompt sent is never blank |
| `ResponsePattern.SkipNonQuote` | src/components/Chat.tsx:32 | the end of a `[^"]*` run: no quote before it, and it is the end or a quote |
| `ResponsePattern.MatchAt` | src/components/Chat.tsx:32 | the scanner's answer at one start position, when present, is a match of the pattern there |
| `ResponsePattern.MatchAtComplete` | src/components/Chat.tsx:32 | every match of the pattern at position `i` is found by the scanner at `i`, and it is the only one there |
| `ResponsePattern.FindFrom` | src/components/Chat.tsx:32 | searching from `from` returns the first start position that matches (none before it matches), or nothing if no position from `from` on matches |
| `ResponsePattern.FirstMatch` | src/components/Chat.tsx:32 | `content.match(...)`: a returned match is a match of the pattern, and no earlier start position matches; nothing is returned only if no start position matches |
| `ResponsePattern.Captured` | src/components/Chat.tsx:34 | `responseMatch[1]`: exactly the characters strictly between the match's two quotes, with no `"` among them |
| `ResponsePattern.FirstMatchSound` | src/components/Chat.tsx:32-34 | what `match` returns is a match of the pattern, and no match starts earlier |
| `ResponsePattern.FirstMatchComplete` | src/components/Chat.tsx:32-34 | any match makes `match` succeed at a start no later than it, and with the same positions when both start at the same place |
| `ResponsePattern.FirstMatchNoneIff` | src/components/Chat.tsx:32-33 | `match` returns `null` exactly when the text has no match at all (both directions) |
| `ResponsePattern.CapturedHasNoQuote` | src/components/Chat.tsx:32-34 | a captured group is a contiguous slice of the text that contains no `"` |
| `DisplayContent.FromPattern` | src/components/Chat.tsx:32-39 | the fallback returns either the content or the group captured by a leftmost match |
| `DisplayContent.LooksLikeJson` | src/components/Chat.tsx:25 | the guard `trim().startsWith('{') && trim().endsWith('}')`: when it holds, the trimmed text has at least two characters, so the `{` and the `}` are different characters |
| `DisplayContent.LooksLikeJsonIff` | src/components/Chat.tsx:25 | the guard holds exactly when the first non-whitespace character is `{` and a later last non-whitespace character is `}` (both directions) |
| `DisplayContent.GetDisplayContent` | src/components/Chat.tsx:22-40 | total, with no precondition, even when the parse throws; the result is the content, the parsed `response` of JSON-shaped content, or the group captured by the leftmost match |
| `DisplayContent.ParseFailureKeepsContent` | src/components/Chat.tsx:25-39 | JSON-shaped content on which `JSON.parse` throws is returned as it is, and the pattern path is not taken |
| `DisplayContent.ParseFailureSkipsPattern` | src/components/Chat.tsx:25-39 | for `{"response": "hi",}` with a throwing parse, the fallback would give `hi`, but the result is the whole text |
| `DisplayContent.ParsedResponseShown` | src/components/Chat.tsx:25-29 | JSON-shaped content that parses to an object with a `response` key yields that key's value |
| `DisplayContent.NoMatchKeepsContent` | src/components/Chat.tsx:32-39 | on the pattern path, content with no match of the pattern is returned unchanged |
| `DisplayContent.PatternPathLeftmost` | src/components/Chat.tsx:32-35 | on the pattern path, the leftmost match determines the result: its captured group, a slice of the content without `"` |
| `DisplayContent.PatternPathSound` | src/components/Chat.tsx:32-35 | on the pattern path, the result is either the content or the captured group of the first match (no match starts before it), and that group holds no `"` |
| `ChatSession.FirstTruthy` | src/components/Chat.tsx:81 | the JavaScript or-chain of response, message and fallback: the response if it is present and non-empty, else the message if it is, else the fallback; never empty for a non-empty fallback |
| `ChatSession.Truthy` | src/components/Chat.tsx:81 | JavaScript truthiness of a string field in `data.response` and `data.message` (also at line 121): true unless the field is absent or the empty string |
| `ChatSession.ChatReply` | src/components/Chat.tsx:79-93 | a chat reply text is never empty: the first truthy of `response` and `message`, else `No response received`; on failure, the fixed apology |
| `ChatSession.InstructionsReply` | src/components/Chat.tsx:119-135 | an instructions reply text is never empty: the first truthy of `response` and `message`, else `Instructions updated successfully`; on failure, the fixed failure text |
| `ChatSession.Chatbot.constructor` | src/components/Chat.tsx:14-18 | empty messages, empty input and instructions, panel hidden, not loading, nothing in flight |
| `ChatSession.Chatbot.SubmitMessage` | src/components/Chat.tsx:50-62 | sends a request exactly when the input is not blank and nothing is loading; otherwise every field is unchanged. When accepted: appends one user message with the trimmed input, clears the input, sets `loading`, and sends the trimmed, non-blank prompt |
| `ChatSession.Chatbot.CompleteMessage` | src/components/Chat.tsx:64-96 | on reply or failure alike, appends exactly one assistant message with `ChatReply` after the unchanged earlier messages, and clears `loading`; nothing else changes |
| `ChatSession.Chatbot.SubmitInstructions` | src/components/Chat.tsx:99-111 | sends a request exactly when the instructions are not blank and nothing is loading; otherwise every field is unchanged. When accepted: sets only `loading`, appends nothing, and sends the trimmed instructions |
| `ChatSession.Chatbot.CompleteInstructions` | src/components/Chat.tsx:112-138 | appends exactly one assistant message with `InstructionsReply` and clears `loading`. A reply also clears the instructions and hides the panel; a failure leaves both as they were |
| `ChatSession.Chatbot.SendMessage` | src/components/Chat.tsx:50-97 | the whole handler: a rejected submit changes nothing; an accepted one ends with the user message and the reply appended, the input empty, and the session idle |
| `ChatSession.Chatbot.SendInstructions` | src/components/Chat.tsx:99-139 | the whole handler: a rejected submit changes nothing; an accepted one ends with one assistant message appended, the session idle, and the panel updated as `CompleteInstructions` states |
| `ChatSession.Chatbot.ToggleInstructions` | src/components/Chat.tsx:242-249 | flips the panel's visibility and nothing else; while loading (button disabled), changes nothing |
| `ChatSession.Chatbot.CancelInstructions` | src/components/Chat.tsx:215-221 | hides the panel and nothing else; while loading, changes nothing |
| `ChatSession.Chatbot.EditInput` | src/components/Chat.tsx:234-241 | sets the input and nothing else; while loading (box disabled), changes nothing |
| `ChatSession.Chatbot.EditInstructions` | src/components/Chat.tsx:206-213 | sets the instructions and nothing else; while loading, changes nothing |
| `ChatSession.PromptScenario` | src/components/Chat.tsx:50-97 | typing `2+2`, sending it, and getting the reply `{ response: "4" }` leaves exactly the user message `2+2` and the assistant message `4` |

## Left out

- `src/app/api/prompt/route.ts`: a pass-through HTTP proxy (environment variable, `fetch`, JSON relay, logging). It holds no logic beyond I/O.
- `fetch`, `response.ok`, `response.json()` and `console.error` are not modelled. A completion receives its outcome (`Replied` with optional `response`/`message`, or `Failed`) as a parameter. A non-`ok` status, a transport error, an undecodable body, and a body that decodes to `null` (reading `data.response` then throws) all end in `Failed`, as the `catch` makes them.
- `async`/`await` scheduling: submit and completion are two sequential events. Two clicks within one render, both reading a stale `loading == false`, are not modelled; the `pending` ghost field assumes one request at a time.
- `JSON.parse` internals: the parse is an arbitrary function from the text to `ParseResult`, and every property holds for all such functions.
- `DisplayContent.GetDisplayContent`: a `response` value that is not a string (a number, `null`, an object) is treated as an opaque string.
- `ChatSession.FirstTruthy`: only absent fields and `""` count as falsy. Non-string field values (`0`, `false`, numbers, objects) are not modelled.
- Rendering (`ReactMarkdown`, GFM, CSS classes, the "thinking" indicator), `scrollIntoView` and the `useEffect` that calls it are not modelled.
- The `disabled` attributes are modelled only as the rule that a disabled control delivers no event (`ToggleInstructions`, `CancelInstructions`, `EditInput`, `EditInstructions` do nothing while loading). The send buttons' `disabled` attributes mirror the guards that `SubmitMessage` and `SubmitInstructions` already model.
- Message timestamps (`new Date()`, `toLocaleTimeString`) are opaque integers passed in by the caller.
- Strings are sequences of Unicode scalar values, whereas JavaScript uses UTF-16 code units. Every character the model inspects (whitespace, `"`, `:`, `{`, `}`) lies in the Basic Multilingual Plane, so results agree on well-formed text.
- `Message` (Chat.tsx:7-11) has no tool list, and none is modelled.
