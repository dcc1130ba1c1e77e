# AI Dungeon Master: session store, turn rules and prompt builders

This project models the server of a small text-adventure "dungeon master"
backed by a local language model. The server keeps one game state per
session in an in-memory map: hp, inventory, location, quests, a role-tagged
turn history and the character sheet. Four handlers work on that map:

- start builds a new state, asks the model for an opening scene and stores the session;
- act applies keyword rules for the player's action ("rest" heals, "forest" and "market" move the hero), trims the history, asks the model to continue and appends its reply;
- export returns a stored state;
- import installs a saved state.

Two templates ground the model: a primer with the game-state facts and a
story seed for the opening scene.

The project has six modules:

- `Wrappers`: `Option` and `Result`.
- `JsText`: the JavaScript string built-ins the code relies on. These are `toLowerCase` (ASCII), `includes`, `join`, `trim` and the decimal rendering of an integer. Each is proved against a partner: `Split` for `join`, `ParseNat` for the digits, and an occurrence predicate for `includes`.
- `GameModel`: the `GameState`, `Turn` and `Character` values.
- `Prompts`: the system prompt, the state primer and the story seed.
- `Gateway`: the model call. The chat endpoint is a function parameter from the request to what came back (a reply, an error status or a transport fault).
- `Server`: the pure parts of the handlers (new state, history trim, keyword rules, message lists) and the class `SessionStore`. Its `sessions` map field is what the handlers modify.

The act handler mutates the stored state object before it awaits the model. So when the model call fails, the session keeps the applied keyword rules and the trimmed history, and the answer is a 500. `SessionStore.Act` states exactly that.

The hp ceiling is stated as the act handler's code gives it, not as "hp is at most 20 after any act". `ActState` proves that hp is at most 20 after an act if and only if it was at most 20 before or the lower-cased action contains "rest". An imported state with hp above 20 keeps that hp through every action without "rest".

## Model

| member | source | states |
|---|---|---|
| JsText.LowerChar | server/server.js:76 | An ASCII capital becomes its lower-case letter (code point + 32); every other character is unchanged; the result is never a capital. |
| JsText.ToLower | server/server.js:76 | `toLowerCase` keeps the length and lowers each character in place. |
| JsText.ToLowerIdempotent | server/server.js:76 | Lower-casing twice is the same as once. |
| JsText.ToLowerSlice | server/server.js:76 | Lower-casing commutes with taking a slice. |
| JsText.ToLowerAvoids | server/server.js:76 | A lower-case letter that occurs in neither case in the action is absent from the lowered action. |
| JsText.Includes | server/server.js:77-79 | `includes` finds a pattern that the text starts with, and never a pattern longer than the text. |
| JsText.IncludesIff | server/server.js:77-79 | `includes` is true exactly when the pattern occurs at some offset. |
| JsText.MissingCharExcludes | server/server.js:77-79 | A text lacking one of the pattern's characters does not include the pattern. |
| JsText.LoweredIncludes | server/server.js:76-79 | A keyword written in any letter case at some offset is found in the lowered action. |
| JsText.IncludesSuffix | server/server.js:77-78 | Whatever includes a pattern includes each suffix of it. |
| JsText.Join | server/prompts.js:12-13 | `join` of no items is ""; otherwise the result opens with the first item. |
| JsText.JoinAppend | server/prompts.js:12-13 | Joining two non-empty lists is joining each with one separator at the seam. |
| JsText.JoinAvoids | server/prompts.js:12-13 | A character held by neither the items nor the separator is absent from the join. |
| JsText.SplitJoin | server/prompts.js:13 | Splitting a "\n"-join at line breaks gives back the items, when no item holds a line break. |
| JsText.JoinPadded | server/prompts.js:12 | Joining with "c + pad" is joining with "c" after moving the pad onto each later item. |
| JsText.SplitJoinPadded | server/prompts.js:12 | Splitting a ", "-style join at the comma gives the first item and then every later item after the pad. |
| JsText.TrimStart | server/server.js:50 | A suffix of the input; everything dropped is white space; the result does not start with white space. |
| JsText.TrimEnd | server/server.js:50 | A prefix of the input; everything dropped is white space; the result does not end with white space. |
| JsText.Trim | server/server.js:50 | The result is a slice `s[i..j]` of the input where everything before `i` and from `j` on is white space; neither end of the result is white space; it is empty exactly when the input is all white space. |
| JsText.NatToString | server/prompts.js:17 | At least one decimal digit, all digits, no leading zero unless the number is 0. |
| JsText.ParseNatToString | server/prompts.js:17 | Reading the digits of a natural gives the natural back. |
| JsText.IntToString | server/prompts.js:17 | A leading "-" exactly for negatives, then the magnitude's digits as `NatToString` gives them (no leading zero). |
| JsText.IntToStringRoundTrip | server/prompts.js:17 | The digits after the sign read back as the magnitude. |
| JsText.IntToStringNoNewline | server/prompts.js:17 | The hp rendering never holds a line break. |
| Prompts.QuestLines | server/prompts.js:13 | The quest block's lines: ["None"] for no quests, otherwise one "- q" per quest in order. |
| Prompts.QuestsText | server/prompts.js:13 | The quest block is the quest lines joined by "\n". |
| Prompts.QuestBlockLines | server/prompts.js:13 | Cut at line breaks, the quest block gives back exactly its lines. |
| Prompts.InventoryText | server/prompts.js:12 | "empty" for no items; otherwise the items joined by ", ", which, when no item holds a comma, cut at commas gives the first item and then each later item after one space, in order. |
| Prompts.BackstoryText | server/prompts.js:28 | Never empty: the given backstory, or the default text when it is empty. |
| Prompts.PrimerLinesAreOneLine | server/prompts.js:14-21 | No line of the primer holds a line break when no substituted field does. |
| Prompts.BuildStatePrimer | server/prompts.js:11-22 | The primer is its lines (blank, header, location, hp, inventory, "Quests:", the quest lines, blank) joined by "\n". |
| Prompts.StatePrimerLines | server/prompts.js:11-22 | Line by line the primer reads: a blank line, "[GAME STATE]", "Location: <location>", "HP: <hp>", "Inventory: <inventory>", "Quests:", the quest lines, a blank line. |
| Prompts.InitialStorySeed | server/prompts.js:24-31 | The story seed is its five lines (blank, hero line, backstory line, scenery line, blank) joined by "\n". |
| Prompts.InitialStorySeedLines | server/prompts.js:24-31 | Line by line the seed reads: a blank line, "The hero <name>, a <className>, begins ..." with both names verbatim, "Backstory: <backstory or default>", the scenery line, a blank line. |
| Gateway.ModelName | server/server.js:21 | The configured model when one is set and non-empty, otherwise "llama3"; never empty. |
| Gateway.BuildRequest | server/server.js:46 | The request carries the model and the messages unchanged, no streaming, temperature 0.8 and top_p 0.95. |
| Gateway.ReplyText | server/server.js:50 | The narration is never blank: the trimmed content, or "(no response)" when content is absent or all white space. |
| Gateway.CallModel | server/server.js:45-51 | Success exactly on a reply, carrying its narration; an error status gives "Ollama error: <status> <body>"; a fault keeps its message. |
| Server.NewGameState | server/server.js:26-40 | hp 20, inventory ["Bedroll", "Waterskin"], location "Emberbrook crossroads", no quests, no history. Name and class default to "Arin" and "Ranger" and are never empty; backstory defaults to "". |
| Server.TrimHistory | server/server.js:41-43 | A suffix of the history whose length is the smaller of its own and maxTurns, and the history itself when it is short enough. |
| Server.TrimHistoryIdempotent | server/server.js:41-43 | Trimming twice is trimming once. |
| Server.ForestMentionsRest | server/server.js:77-78 | Every action that contains "forest" contains "rest". |
| Server.ApplyKeywords | server/server.js:76-79 | "rest" gives min(hp + 2, 20), otherwise hp is unchanged, and "forest" implies the heal. hp ends at most 20 iff it was or "rest" fired. "market" wins over "forest", neither leaves the location. Nothing else changes. |
| Server.ActState | server/server.js:76-81 | hp and location follow the keyword rules on the lower-cased action, with the hp-cap iff. Session id, inventory, quests and character are untouched. |
| Server.ActStateHistory | server/server.js:81 | The history after the trim holds 1 to 12 turns, min(old + 1, 12) of them. It ends with the user's action and is the newest part of the old history plus that turn. |
| Server.ActTurnShape | server/server.js:81-90 | After the reply the history holds at most 13 turns, ending with the user turn then the assistant reply; the hp cap is kept. |
| Server.ForestActionRests | server/server.js:76-79 | An action with "forest" in any case and no "m" both heals and moves to "Forest Edge". |
| Server.RestInTheForest | server/server.js:76-79 | "Rest in the Forest" heals and moves to "Forest Edge". |
| Server.MarketActionMoves | server/server.js:76-79 | An action with "market" in any case and no "s" moves to "Emberbrook Market" and leaves hp alone. |
| Server.GoToTheMarket | server/server.js:76-79 | "Go to the Market" moves to "Emberbrook Market" and leaves hp alone. |
| Server.ChatRole | server/server.js:86 | "assistant" stays "assistant"; any other role becomes "user". |
| Server.ChatHistory | server/server.js:86 | One message per turn, in order, with the turn's text and the mapped role. |
| Server.WithReply | server/server.js:63 | The history gains exactly one assistant turn with the reply, after the old history kept as it was; nothing else changes. |
| Server.StartPrompt | server/server.js:60 | The opening request is "Begin the adventure:", the story seed's lines, then "End with 2–3 choices.", joined by "\n". |
| Server.StartMessages | server/server.js:57-61 | The system prompt, the primer of the new state, then the user's request for the opening scene built from the story seed. |
| Server.ActMessages | server/server.js:83-88 | Three more messages than history turns: the system prompt, the primer, each history turn in order with its text and mapped role, then the request to continue. |
| Server.UpdateForAction | server/server.js:76-81 | The step-by-step in-place update (three keyword rules, then the trimmed history) yields `ActState`. |
| Server.StoreKeeps | server/server.js:64 | Storing a state under its own non-empty id keeps every key equal to its state's id, and keeps the hp cap when the state respects it. |
| Server.SessionStore.constructor | server/server.js:21-24 | An empty map, and the model is the configured one or "llama3". |
| Server.SessionStore.Narrate | server/server.js:62-64 | The reply is the model call's result. On success the state with the reply appended is stored under its id; on failure nothing is stored. |
| Server.SessionStore.Start | server/server.js:53-67 | A new session is stored under the fresh id only after the model answers, with the reply as its first turn. A failed call answers 500 and leaves the store unchanged. |
| Server.SessionStore.Act | server/server.js:69-93 | A missing or empty id or action is a 400 and an unknown id a 404, both leaving the store unchanged. Otherwise the store holds `ActState` whatever the model does. A failed call answers 500; a successful one stores and answers the state with the reply appended. |
| Server.SessionStore.Export | server/server.js:95-99 | The stored state verbatim, or a 404 for an unknown id; the store is untouched. |
| Server.SessionStore.Import | server/server.js:100-105 | A payload without an id is a 400 and changes nothing; otherwise it replaces whatever was stored under its id. |
| Server.ImportThenExport | server/server.js:95-105 | Exporting right after importing gives back exactly the imported state. |

## Left out

- HTTP and process plumbing is not modelled. That covers the Express app, CORS, JSON parsing, static files, `app.listen`, dotenv and the port (server/server.js:1-22, 107-110). Each handler takes the request fields as parameters and returns a `Response` value.
- The network call is a function parameter from request to outcome. The `fetch` internals, the URL and headers, and a response body that cannot be read or parsed are not modelled; an unreadable body becomes the outcome's body or fault message.
- Session ids come from `uuidv4`. Randomness cannot be modelled, so `Start` takes the id as a parameter that must be non-empty and not yet in the store.
- `toLowerCase` is modelled for ASCII letters only. Other letters are left unchanged, so non-ASCII case mapping is not captured.
- JavaScript truthiness is reduced to "absent or empty string is falsy". Request fields are `Option<string>`, and a missing `character` object is a sheet with every field absent. Non-string values in those fields are not modelled.
- An imported payload is taken to be a well-formed `GameState`; a missing `sessionId` is the empty string. Payloads of any other JSON shape are not modelled.
- States are values in a map, not shared objects. The source's aliasing between the stored object and the one sent back in the response is not modelled.
- Each handler runs as one atomic step. Requests that interleave at the model call's `await` are not modelled; in the source, two actions on the same session can race there.
- The error text of a thrown exception (`String(e.message || e)`) is not modelled. It is the fault's message or the "Ollama error" text that `CallModel` builds.
- Temperature and top_p are exact `real` constants. Floating point is not modelled.
- hp is an integer. JavaScript's rendering of non-integral or very large numbers in the primer is not modelled.
- The wording of the system prompt is a constant. No property of it is proved beyond its use as the first message.
