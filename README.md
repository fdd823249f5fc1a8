# Intent dispatch of the travel chat server

This project models, in Dafny, the chat endpoint of a travel-assistant server
(`chatController` in server/src/controllers/chat.controller.js). It also proves properties of
that model. The controller works in these steps:

1. It checks that the request carries a non-empty string `message`.
2. It scans a fixed, ordered table of six intent rules. Each rule has case-insensitive regular
   expressions.
3. The first matching pattern of the first matching rule decides the reply. That reply is
   either the rule's fixed text, or, for the Weather and Forecast rules, a weather lookup on
   capture group 1.
4. If no rule gives a non-empty reply, it asks the Gemini model.
5. It saves the `{user, bot}` pair and answers `{reply}`. If anything throws, it answers 500.

## Modules

- `Wrappers`: `Option`.
- `JsRegex`: the part of JavaScript regular expressions that the table uses, with the meaning
  `String.prototype.match` gives it:
  - literals compared with the ASCII case folding that the `i` flag amounts to for ASCII
    patterns;
  - `.`, greedy `.*`, `(a|b)`, `(x)?` and greedy `([a-zA-Z\s]+)` groups, with JavaScript's `\s`;
  - backtracking in priority order, the leftmost start, and `undefined` for a group that took
    no part.

  It also holds lemmas that let a match or a non-match be proved on a concrete text.
- `Helpers`: `getWeather` and `chatWithGemini`. The remote services are a `Services` parameter:
  what the weather endpoint and the model return for an argument, where `None` is any exception.
  Both helpers absorb failures into their fixed sentences.
- `IntentTable`: the six rules as constant data, with every pattern and reply copied from the
  source. A responder is either `Static(response)` or `WeatherAction`.
- `Chat`: the controller.
  - Specification functions: `FirstPattern`, `FirstRule`, `ScanFrom`, `Scan`, `Dispatch` and
    `Handle`.
  - Imperative code: `MatchIntents`, the nested loops with their `break`s; `ChatController`;
    and the `ChatStore` class, which stands for the chat collection.
  - Every outbound call is recorded in order as an `Effect`: weather lookup, model call or
    save attempt. "Which capability was used, with what argument" is therefore part of each
    contract.
- `ChatProperties`: first-match priority; static and action replies; the empty-reply case that
  scans on; the fallback; the status mapping.
- `Scenarios`: the messages sent by the quick-reply buttons of the chat page, each proved to
  get the controller's exact answer and calls. Two more messages are covered: one where an
  earlier rule shadows a matching weather pattern, and one that no rule matches.

Three facts about the code shape these answers:

- A failed save is not swallowed. `save()` is awaited inside the `try`, so its rejection reaches
  the `catch` and the answer is 500 with "An internal error occurred."
  (server/src/controllers/chat.controller.js:95, 98-101).
- The reply can be empty. `chatWithGemini` returns the model's text without a check, so an
  empty text from the model is saved and sent (server/src/utils/gemini.js:34-36).
- `/rental.*car/i` comes before `/rent.*car/i` in the Booking rule, so "I need a rental car in
  Rome." is decided by the former; the reply is the same
  (server/src/controllers/chat.controller.js:17-18).

Two buttons send the same text, "Help me book a flight to Paris.": "Book Flight" and
"Hotel in Tokyo" (client/src/Pages/Chat.jsx lines 7 and 9). So `BookFlightButton` covers both.

## Model

| member | source | states |
|---|---|---|
| JsRegex.LitAtFolds | server/src/controllers/chat.controller.js:8-58 | a literal of an `i`-flagged pattern matches at a position exactly when every character equals the text's character there, ignoring ASCII case |
| JsRegex.DotRun | server/src/controllers/chat.controller.js:8-48 | `.*` first takes the longest run without a line terminator: every character of the run is matched by `.`, and the one after it is a line terminator or the end |
| JsRegex.WordRun | server/src/controllers/chat.controller.js:26-48 | `([a-zA-Z\s]+)` first takes the longest run of letters and white space, stopping at the first other character |
| JsRegex.DotRunIs | server/src/controllers/chat.controller.js:8-48 | the greedy run of `.` is the only length with those properties |
| JsRegex.WordRunIs | server/src/controllers/chat.controller.js:26-48 | the greedy run of `[a-zA-Z\s]` is the only length with those properties |
| JsRegex.MatchAt | server/src/controllers/chat.controller.js:77 | a match of the remaining terms from a position ends between that position and the end of the text |
| JsRegex.Backtrack | server/src/controllers/chat.controller.js:77 | a greedy quantifier that backs off from `k` characters to `lo` ends its match at least `lo` characters on |
| JsRegex.BacktrackFails | server/src/controllers/chat.controller.js:8-48 | a greedy `.*` or `([a-zA-Z\s]+)` fails exactly when the rest of the pattern matches after none of the run lengths from the longest down to the least allowed |
| JsRegex.BacktrackLongestFirst | server/src/controllers/chat.controller.js:8-48 | a greedy run that succeeds gives what the rest of the pattern gives after the longest run it fits after, every longer run having failed; with a group the run is captured |
| JsRegex.TryOptions | server/src/controllers/chat.controller.js:77 | an alternation's match ends within the text |
| JsRegex.TryOptionsInOrder | server/src/controllers/chat.controller.js:16-57 | an alternation group tries its options left to right: the result is that of the first option that occurs there, captured as the group, with the rest matching after it; `null` exactly when no option fits |
| JsRegex.Exec | server/src/controllers/chat.controller.js:77 | `message.match(pattern)` is non-null exactly when the pattern matches at some position, and then it reports a position where it matches with no earlier one matching |
| JsRegex.SearchFrom | server/src/controllers/chat.controller.js:77 | `match` finds the leftmost start: the result matches there, its array is that match's groups, no earlier start matches, and `null` means no start matches |
| JsRegex.NoMatchWithoutLiteral | server/src/controllers/chat.controller.js:77 | a pattern one of whose literals occurs nowhere in the message gives `null` |
| JsRegex.NoMatchWithoutChar | server/src/controllers/chat.controller.js:77 | a pattern containing a literal one of whose characters occurs nowhere in the message, ignoring case, gives `null` |
| JsRegex.NoMatchWithoutPair | server/src/controllers/chat.controller.js:77 | a pattern containing a literal one of whose pairs of adjacent characters occurs nowhere in the message, ignoring case, gives `null` |
| JsRegex.MismatchAt | server/src/controllers/chat.controller.js:8-58 | a literal does not match at a position where one of its characters differs from the text, ignoring ASCII case |
| JsRegex.ExecFindsMatch | server/src/controllers/chat.controller.js:77 | if the pattern matches at some position, `match` succeeds at that position or further left |
| JsRegex.BacktrackSkips | server/src/controllers/chat.controller.js:77 | a greedy run backs off over every length at whose end the next literal or alternation cannot start |
| JsRegex.SearchSkips | server/src/controllers/chat.controller.js:77 | the leftmost search passes over every position where the pattern's first literal cannot start |
| JsRegex.WordGroupCaptured | server/src/controllers/chat.controller.js:26-37 | a match of a pattern whose only group is a final `([a-zA-Z\s]+)`, every earlier term a literal, `.` or `.*`, has exactly one group, and it is a non-empty run of letters and white space |
| Helpers.GetWeather | server/src/utils/weather.js:3-24 | the result is never empty; it is "Unable to fetch weather data at the moment." exactly when the lookup failed, and otherwise the report line built from the answer |
| Helpers.ChatWithGemini | server/src/utils/gemini.js:14-41 | an empty message gives "Sorry, I'm unable to respond right now." without asking the model; otherwise the model's text, or that sentence when the call failed |
| IntentTable.StaticRepliesNonEmpty | server/src/controllers/chat.controller.js:9-61 | every fixed reply of the table is non-empty |
| IntentTable.ActionMatchCapturesCity | server/src/controllers/chat.controller.js:26-39 | whenever a Weather or Forecast pattern matches, `match[1]` is defined and is a non-empty run of letters and white space |
| Chat.FirstPattern | server/src/controllers/chat.controller.js:76-85 | the index of the first pattern of a rule that matches, with none before it matching; `None` exactly when no pattern matches |
| Chat.FirstRule | server/src/controllers/chat.controller.js:75-88 | the index of the first rule with a matching pattern, with no earlier rule matching; `None` exactly when no rule matches |
| Chat.Respond | server/src/controllers/chat.controller.js:79-83 | a fixed responder yields its text and calls nothing; the weather action yields a non-empty text and makes exactly one call, `getWeather(match[1])` |
| Chat.ScanFrom | server/src/controllers/chat.controller.js:75-88 | the scan only appends calls, and every call it appends is a weather lookup |
| Chat.Scan | server/src/controllers/chat.controller.js:73-88 | the scan calls nothing but weather lookups |
| Chat.Dispatch | server/src/controllers/chat.controller.js:73-93 | the model is asked, with the message, exactly when the scan leaves `reply` falsy; the model is asked at most once and last; every other call is a weather lookup |
| Chat.IsValidMessage | server/src/controllers/chat.controller.js:68 | the guard that rejects a falsy `message` or one whose `typeof` is not "string" lets through exactly the non-empty strings |
| Chat.Truthy | server/src/controllers/chat.controller.js:87-91 | `reply` is falsy exactly when it is still `null` or is the empty string |
| Chat.Response.Status | server/src/controllers/chat.controller.js:69-100 | the status is 200 exactly for a reply, a 4xx exactly for a bad message, and a 5xx exactly for an internal error |
| Chat.Response.Body | server/src/controllers/chat.controller.js:69-100 | the body is `{error}` exactly for a bad message; a reply carries its own text as `reply`, and an internal error a non-empty `reply` |
| Chat.RuleStep | server/src/controllers/chat.controller.js:76-86 | a rule with no matching pattern leaves the loop state as it was; a fixed rule sets `reply` to its text and calls nothing; a weather rule sets a truthy `reply` and appends exactly one weather lookup |
| Chat.Handle | server/src/controllers/chat.controller.js:65-102 | 400 exactly for an invalid message, with no call made; otherwise the calls of `Dispatch` in order, then exactly one save, of the message and the final reply; 500 exactly when the save fails, otherwise that reply |
| Chat.ChatStore.constructor | server/src/controllers/chat.controller.js:95 | a fresh collection is empty |
| Chat.ChatStore.Save | server/src/controllers/chat.controller.js:95 | `save()` succeeds exactly when the store accepts writes, and then appends the one record; on failure nothing is stored |
| Chat.MatchIntents | server/src/controllers/chat.controller.js:73-88 | the nested loops with their two `break`s compute exactly `Scan`: the reply and the calls in order |
| Chat.ChatController | server/src/controllers/chat.controller.js:65-102 | the response and calls are exactly `Handle` for the store's state; the collection gains one record `{user, bot}` exactly when the answer is 200, with `bot` equal to the reply sent |
| ChatProperties.UnmatchedRulesSkipped | server/src/controllers/chat.controller.js:75-88 | rules with no matching pattern, met while `reply` is falsy, change nothing |
| ChatProperties.FirstMatchingRuleWins | server/src/controllers/chat.controller.js:75-88 | when the first matching rule gives a non-empty reply, that reply is the answer and its calls are the only calls |
| ChatProperties.LaterRulesIgnored | server/src/controllers/chat.controller.js:75-88 | any table that agrees with this one up to the deciding rule gives the same outcome, so later rules are never looked at |
| ChatProperties.FirstRulePrefix | server/src/controllers/chat.controller.js:75-88 | the first matching rule depends only on the rules up to it |
| ChatProperties.LaterPatternsIgnored | server/src/controllers/chat.controller.js:76-85 | the first matching pattern depends only on the patterns up to it |
| ChatProperties.StaticRuleAnswers | server/src/controllers/chat.controller.js:81-82 | a deciding rule with a fixed reply answers exactly that text, and neither weather nor model is called |
| ChatProperties.WeatherRuleAnswers | server/src/controllers/chat.controller.js:79-80 | a deciding Weather or Forecast rule answers exactly `getWeather(match[1])` of the first matching pattern's match, and that lookup is the only call |
| ChatProperties.EmptyReplyScansOn | server/src/controllers/chat.controller.js:80-87 | when the first matching rule's reply is "", the scan does not stop: it goes on with the next rule, keeping the reply "" and that rule's own calls |
| ChatProperties.EmptyReplyFallsBack | server/src/controllers/chat.controller.js:87-93 | if no later rule matches either, the answer is the model's, after those calls |
| ChatProperties.NoMatchAsksModel | server/src/controllers/chat.controller.js:91-93 | when no pattern of any rule matches, the answer is exactly `chatWithGemini(message)`, and it is the only call |
| ChatProperties.TableRepliesNonEmpty | server/src/controllers/chat.controller.js:5-63 | every reply a rule of the table can give is non-empty |
| ChatProperties.TableFirstMatchDecides | server/src/controllers/chat.controller.js:75-88 | for this table, the first rule with a matching pattern always gives the answer and its calls |
| ChatProperties.TableAsksModelIffNoMatch | server/src/controllers/chat.controller.js:87-93 | for this table, the model is asked exactly when no pattern of any rule matches |
| ChatProperties.TableWeatherCallsHaveCity | server/src/controllers/chat.controller.js:30-39 | for this table, every weather lookup is passed a defined city made of letters and white space, never `undefined` |
| ChatProperties.InvalidMessageRejected | server/src/controllers/chat.controller.js:68-70 | a missing, empty or non-string message gives 400 with `{error: "Message must be a string."}`, and nothing is called or saved |
| ChatProperties.FailedSaveAnswers500 | server/src/controllers/chat.controller.js:95-101 | a failed save gives 500 with `{reply: "An internal error occurred."}`, after the save of the computed reply was attempted |
| ChatProperties.SuccessAnswersSavedReply | server/src/controllers/chat.controller.js:95-97 | on success the status is 200, and the `reply` sent is the `bot` field of the record saved |
| Scenarios.ResetPasswordButton | client/src/Pages/Chat.jsx:6 | "How can I reset my password?" gets the Account Management reply through `/reset.*password/i`; only the save is called |
| Scenarios.BookFlightButton | client/src/Pages/Chat.jsx:7-9 | "Help me book a flight to Paris." gets the Booking reply; only the save is called |
| Scenarios.WeatherButton | client/src/Pages/Chat.jsx:8 | "What's the weather in New York?" looks up "New York" exactly once and answers with the lookup's result |
| Scenarios.ForecastButton | client/src/Pages/Chat.jsx:10 | "Will it rain tomorrow in Berlin?" passes the Weather rule, then looks up "Berlin" through the Forecast rule |
| Scenarios.ExchangeButton | client/src/Pages/Chat.jsx:11 | "What's the exchange rate for USD to EUR?" gets the Travel Assistance reply |
| Scenarios.TopSpotsButton | client/src/Pages/Chat.jsx:12 | "What are the top tourist spots in Sydney?" gets the fixed Travel Assistance reply; the city is matched but not used |
| Scenarios.RentCarButton | client/src/Pages/Chat.jsx:13 | "I need a rental car in Rome." gets the Booking reply |
| Scenarios.AppCrashButton | client/src/Pages/Chat.jsx:14 | "The app keeps crashing on my phone." gets the Technical Support reply |
| Scenarios.DarkModeButton | client/src/Pages/Chat.jsx:15 | "Can you add a dark mode feature?" gets the Technical Support reply through its last pattern |
| Scenarios.BookingBeforeWeather | server/src/controllers/chat.controller.js:75-88 | "Book flight, weather in Rome" matches a Weather pattern, yet the earlier Booking rule answers and no lookup is made |
| Scenarios.UnmatchedMessage | server/src/controllers/chat.controller.js:91-93 | "Tell me a joke." matches no pattern, so the model is asked once with it and its answer is sent and saved |

## Left out

- Asynchrony: `async`/`await` and concurrent requests are not modelled. Each request is one sequential run.
- Remote services: the HTTP call to the weather endpoint and the Gemini SDK call are not modelled. They are the `Services` parameter, a total function from argument to answer or failure.
- Side effects: the API-key reads, the `console` logging and the request body's parsing are not modelled. The model takes `req.body` to be an object, so `message` is absent, a non-string or a string. That holds for `express.json()` of Express 4 (body-parser 1.x), which sets `{}` when no JSON body is parsed; under Express 5 `req.body` stays `undefined` then, and the destructuring at server/src/controllers/chat.controller.js:66 would throw before the `try`. Which Express version runs is not fixed by the files modelled.
- Module load: server/src/utils/gemini.js:4-9 throws when the Gemini key is missing. That happens when the module loads, not inside a request.
- Temperature: weather.js:19 prints `data.main.temp`, a floating-point number, as JavaScript renders it. The model takes that rendering as a given string.
- Persistence: the Mongoose `chatModel` (../models/chat) is not part of this model. Its `save()` is `ChatStore.Save`, which succeeds or fails according to whether the store accepts writes. Timestamps and the document's schema are out.
- The response object: `res.json` and `res.status` are taken as never throwing, so the only failure inside the `try` is the save. Both helpers catch everything.
- Regular expressions: only the constructs the table uses are modelled.
- Characters: the text is a sequence of Unicode characters, whereas JavaScript indexes UTF-16 code units. A `.` or `[a-zA-Z\s]` facing a character outside the Basic Multilingual Plane therefore consumes one step here but two code units in JavaScript. This never arises for the messages in the scenarios.
- The chat page: client/src/Pages/Chat.jsx is not modelled beyond its button messages (state, speech recognition and synthesis, the axios request).
- JsRegex.MatchAt: its contract states only where a match ends. What it matches is fixed by its definition, which follows the pattern grammar term by term. It is checked through `SearchFrom`'s leftmost-match contract, the literal lemmas and the concrete scenarios. It is not compared to a second, independent regex semantics.
- JsRegex.Backtrack: its own contract states only where a match ends. The longest-first back-off is stated by `BacktrackFails` and `BacktrackLongestFirst`.
- JsRegex.TryOptions: its own contract states only where a match ends. The left-to-right order and the captured option are stated by `TryOptionsInOrder`.
- Helpers.ChatWithGemini: a first part without `text` makes server/src/utils/gemini.js:34-36 return `undefined` without throwing; the controller would then save and send an undefined reply. `Services` answers a text or a failure only, so that reply is not modelled.
- Dead patterns: two observations about the table are not proved. The second and third Weather patterns can never decide, because the first one matches whenever they do. And the `(for)?` group of the first Travel pattern is always skipped. Wherever it could take "for" starting at some position e, the `.*` could instead run three characters further, to e + 3. That longer run is tried first, and it already succeeds with the group skipped.
