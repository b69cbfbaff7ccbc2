# Polling function: a Dafny model

This project models the Slack polling function in
`functions/polling_function.ts`. The function has two halves:

- **Open callback.** It posts a poll of eight Block Kit blocks: who asked,
  a divider, the question, one line per option, a divider, and a "Close poll"
  button. It then seeds the reactions `one`, `two` and `three` on the posted
  message. Each seeding attempt has its own try, so one failure does not
  stop the others. The callback returns `{completed: false}` so the button
  stays live.
- **`close_poll` handler.** It runs on every click of the button, but acts
  only when the clicking user is the poll's creator. It then reads the message's reactions and tallies them in the order
  `three`, `two`, `one`, storing each count minus one as a string. It then
  rewrites the message into a four-section summary and writes a row to the
  `poll_results` datastore. The row's `responses` field is the tally as
  JSON.

Slack client calls are not performed. Each one is an input that says what
the call did: answered ok, answered not-ok with an `error`, or threw. Each
handler is a method that builds a trace of the effects it would cause:
calls made and lines logged. Each method is proved equal to a
specification function over the same inputs. Properties are then proved
about those functions.

Modules:
- `Wrappers`: `Option`.
- `Decimal`: `Number.prototype.toString` for integers, and a decimal reader
  that inverts it.
- `JsObject`: a plain JS object as an insertion-ordered list of string
  properties, with property read and assignment.
- `Json`: `JSON.stringify` of such an object, and a reader that inverts it.
- `Slack`: Block Kit blocks, the function's inputs, the click payload,
  reaction entries, datastore items, effects, call outcomes and the
  exceptions the handlers catch.
- `Messages`: the posted and the closed message, plus a reader for the
  posted one.
- `Tally`: the nested tally loop as an imperative method, and the function
  that specifies it.
- `PollOpen`: the open callback.
- `PollClose`: the close handler.
- `Scenarios`: concrete runs.

The code does not do several things a reader might expect of a poll. The
model follows the code, and each of the following points is a `Scenarios`
lemma or a contract in the table:

- A raw count of 0 is stored as `-1`. The code has no floor at zero.
- A marker missing from the snapshot is not defaulted to 0. Its key is
  absent from the tally, and the closed line reads `undefined vote(s)`.
- A non-ok `chat.postMessage` answer is not reported as an error. Reading
  `msgResp.message.ts` throws a TypeError inside each seeding try. The
  TypeError is logged three times, and the callback still returns
  `{completed: false}`.
- Nothing stops a second close. Each close writes another row under a new
  id.

## Model

| member | source | states |
|---|---|---|
| Tally.LastCount | functions/polling_function.ts:186-191 | No contract of its own: the count of the last entry with a given name. Pinned by `LastCountIsLast`. |
| Tally.Votes | functions/polling_function.ts:189-191 | No contract of its own: `(count - 1).toString()`. Pinned by `IntToStringRoundTrip` and `SmallVotes`. |
| Tally.Results | functions/polling_function.ts:183-194 | No contract of its own: the tally of a snapshot. Pinned by `TallyReactions`, `ResultsLookup`, `ResultsKeys`, `ResultsIgnoreOthers` and `ResultsLastWins`. |
| Json.Stringify | functions/polling_function.ts:246 | The text begins with `{` and ends with `}`. It is fully pinned by `StringifyRoundTrip`. |
| Messages.PollBlocks | functions/polling_function.ts:68-125 | No contract of its own: the posted poll's blocks. Pinned by `PollBlocksRoundTrip`. |
| Messages.ClosedBlocks | functions/polling_function.ts:199-232 | No contract of its own: the closed poll's blocks. Pinned by `ClosedMessageShowsVotes`. |
| PollOpen.SeedStep | functions/polling_function.ts:135-145 | No contract of its own: one seeding attempt's effects. Pinned by `StepCalls`. |
| PollOpen.OpenEffects | functions/polling_function.ts:128-146 | No contract of its own: the open callback's effects. Pinned by `Open`, `OpenSeedsEveryMarker`, `OpenPostThrew` and `OpenPostNotOk`. |
| PollOpen.OpenResultOf | functions/polling_function.ts:147-157 | No contract of its own: the callback's return value. Pinned by `Open`, `OpenSeedsEveryMarker` and `OpenPostThrew`. |
| PollOpen.ErrorText | functions/polling_function.ts:148-151 | No contract of its own: the generation error's text. Pinned by `OpenPostThrew`. |
| PollClose.SaveResult | functions/polling_function.ts:250-257 | No contract of its own: the result once the write has been attempted. Pinned by `CloseSavesRecord`, `SavedAt` and `CloseSuccessLogged`. |
| PollClose.ErrorText | functions/polling_function.ts:250-263 | No contract of its own: the save and closure error texts. Pinned by `CloseUpdateThrew` and `LunchSaveFails`. |
| PollClose.RecordOf | functions/polling_function.ts:242-247 | No contract of its own: the datastore row. Pinned by `CloseSavesRecord`. |
| PollClose.AfterTally | functions/polling_function.ts:197-257 | No contract of its own: everything after the tally. Pinned by `FinishClose`, `AfterTallyCalls`, `SavedAt` and `CloseUpdateThrew`. |
| PollClose.CloseOutcome | functions/polling_function.ts:161-265 | No contract of its own: the handler's trace and result. Pinned by `HandleClose` and the `Close…` lemmas. |
| PollClose.VotesShown | functions/polling_function.ts:212-228 | No contract of its own: what a closed line shows for a marker. Pinned by `ClosedMessageShowsVotes` with `ResultsLookup`. |
| PollClose.CloseNoMessage | functions/polling_function.ts:172-179 | A matching click that carries no message throws reading `ts` before any call. The trace is empty and the result is that closure error. |
| PollClose.CloseUpdateThrew | functions/polling_function.ts:197-263 | A throwing `chat.update` leaves the read and the update as the whole trace, so no row is written. The result is the closure error whose text is "An error was encountered during poll closure: `…`" around the thrown message. |
| PollClose.CloseUpdateNotOkLogged | functions/polling_function.ts:236-240 | A non-ok `chat.update` is logged with its error right after the update, and the write follows. |
| Tally.TallyReactions | functions/polling_function.ts:183-194 | The nested loop (markers three, two, one; every snapshot entry; assign on a name match) computes exactly `Results(rs)`. |
| Tally.TallyMarker | functions/polling_function.ts:186-193 | The inner loop for one marker the tally does not hold yet. The result is the tally so far followed by the marker's entry: its last count minus one, or nothing when it is absent. |
| Tally.ResultsLookup | functions/polling_function.ts:184-192 | The tally's value for key `k` is the last raw count of `k` minus one, as a decimal string, when `k` is a marker present in the snapshot. Otherwise there is no such key: no default, no floor. |
| Tally.ResultsKeys | functions/polling_function.ts:183-194 | The tally's keys are exactly the markers present in the snapshot; no other name becomes a key; the keys stand in the order three, two, one. |
| Tally.ResultsInOrder | functions/polling_function.ts:184 | The tally is the entry for three, then for two, then for one. |
| Tally.ResultsIgnoreOthers | functions/polling_function.ts:187 | Inserting a reaction whose name is not a marker, anywhere in the snapshot, leaves the tally unchanged. |
| Tally.ResultsLastWins | functions/polling_function.ts:186-191 | Appending an entry for a marker makes that entry's count minus one the marker's value, whatever came before. |
| Tally.LastCountIsLast | functions/polling_function.ts:186-191 | The count used is that of the last entry with the name. It is missing exactly when no entry has the name. |
| Tally.ResultsForKeys | functions/polling_function.ts:184-192 | Tallying any list of markers creates keys only among those markers. |
| Tally.ResultsEntry | functions/polling_function.ts:189-191 | Every property of the tally is a present marker whose value is `Votes` of its last count. |
| Tally.ResponsesDecode | functions/polling_function.ts:246 | The stored `responses` text parses back to the tally, order included. Each stored value reads back as the marker's last count minus one. |
| Tally.EntryDecodes | functions/polling_function.ts:189-191 | Each property's name and value need no JSON escaping. The value reads back as the last count minus one. |
| Tally.VotesPlain | functions/polling_function.ts:191 | A count's string form contains no quote, backslash or control character. |
| Decimal.IntToStringRoundTrip | functions/polling_function.ts:189-191 | Reading back the string form of any integer, negative ones included, gives that integer. |
| Decimal.IntToStringInjective | functions/polling_function.ts:191 | Distinct counts are stored as distinct strings. |
| Decimal.NatToStringValue | functions/polling_function.ts:191 | The digits written for a natural number have that value. |
| Decimal.NatToString | functions/polling_function.ts:191 | The numeral is non-empty, all digits and has no leading zero. |
| Decimal.IntToString | functions/polling_function.ts:189-191 | The numeral is digits and a minus sign, and starts with `-` exactly when the number is negative. |
| JsObject.Put | functions/polling_function.ts:191 | Assignment sets the key's value and leaves every other key's value alone. An existing key keeps its place; a new key goes last. |
| JsObject.Lookup | functions/polling_function.ts:212-228 | A property read yields nothing exactly when the key is absent. |
| JsObject.PutNew | functions/polling_function.ts:191 | Assigning an absent key appends the property. |
| JsObject.PutLast | functions/polling_function.ts:191 | Re-assigning the last-inserted key replaces its value in place. |
| JsObject.KeysAppend | functions/polling_function.ts:183-194 | The keys of two property lists joined are the keys of each, in order. |
| Json.StringifyRoundTrip | functions/polling_function.ts:246 | For an object of plain strings, `Parse(Stringify(d)) == Some(d)`, properties in insertion order. |
| Json.ParseMembersOf | functions/polling_function.ts:246 | The member list written for a non-empty object reads back as that object. |
| Json.ParseMemberOf | functions/polling_function.ts:246 | One written `"key":"value"` member reads back as itself, and the rest of the text is left untouched. |
| Messages.PollBlocksRoundTrip | functions/polling_function.ts:68-125 | The posted poll is 8 blocks. Its only actions block is the last, holding just the `close_poll` button in `actions_block`. The asker's id (or `undefined`), the question and the three options can be read back exactly, in order. |
| Messages.BetweenOf | functions/polling_function.ts:74 | Text put between a fixed prefix and suffix is recovered exactly. |
| PollOpen.Open | functions/polling_function.ts:57-158 | The open callback's effects are `OpenEffects` of the call outcomes: the post, then the seeding loop's per-marker effects. Its result is `{completed: false}`, or the generation error when posting threw. |
| PollOpen.OpenSeedsEveryMarker | functions/polling_function.ts:128-146 | Once the poll is posted, the calls are the post, then `reactions.add` for one, two and three on the posted message, whatever each attempt does. The result is `{completed: false}`. |
| PollOpen.OpenPostThrew | functions/polling_function.ts:128-152 | A throwing post is the only call. The result is an error whose text is "An error was encountered during poll generation: `…`" around the thrown message. |
| PollOpen.OpenPostNotOk | functions/polling_function.ts:134-146 | A non-ok post leads to no reaction attempt. Exactly three TypeErrors reading `ts` are logged, and the result is `{completed: false}`. |
| PollOpen.SeedCalls | functions/polling_function.ts:134-146 | The seeding loop's calls are one `reactions.add` per marker, in order, on the posted message, or none when nothing was posted. |
| PollOpen.FailedSeeding | functions/polling_function.ts:135-145 | Without a posted message, every marker's attempt logs the same TypeError and nothing else. |
| PollOpen.StepCalls | functions/polling_function.ts:135-145 | One seeding attempt makes at most the one `reactions.add` call, on the posted message. A non-ok answer logs its `error` and a throw logs its message, and nothing else happens. Without a posted message the TypeError reading `ts` is logged instead; after a throwing post nothing is attempted. |
| PollClose.HandleClose | functions/polling_function.ts:161-265 | The handler's trace and result are `CloseOutcome` of the call outcomes. A click by anyone but the creator, or when the function got no interactivity, has an empty trace and no return value. |
| PollClose.FinishClose | functions/polling_function.ts:197-257 | After the tally: the update; its error is logged when it answered non-ok; the throw case stops the handler. Then the write; a non-ok write gives the save error, a throw the closure error, and success is logged and gives `{outputs: {}}`. |
| PollClose.CloseByOtherUser | functions/polling_function.ts:176 | When the clicking user is not the creator, the handler calls nothing, logs nothing and returns nothing. |
| PollClose.CloseCallOrder | functions/polling_function.ts:177-248 | With a usable snapshot, the calls are `reactions.get`, `chat.update` with the closed message, then `apps.datastore.put` with the row. Only a throwing update stops the write; a non-ok one does not. |
| PollClose.AfterTallyCalls | functions/polling_function.ts:197-248 | After the read, the calls are the update, then the write unless the update threw. Logging adds no call. |
| PollClose.CloseUnusableSnapshot | functions/polling_function.ts:177-264 | A `reactions.get` that throws, answers non-ok, or returns a message without `reactions` is the only call. The result is the closure error carrying, respectively, the thrown message, the TypeError reading `reactions`, or the TypeError reading `forEach`. |
| PollClose.CloseSavesRecord | functions/polling_function.ts:239-257 | Unless the update threw, one row reaches `poll_results`. The row has the fresh uuid, the creator's id, the poll's question, and `responses` that parse back to the tally. The result is `{outputs: {}}` on success, the save error carrying the write's error when non-ok, and the closure error when the write threw. |
| PollClose.CloseTwiceSavesTwice | functions/polling_function.ts:171-257 | Two successful closes of the same poll both succeed, and each writes its own row under its own uuid. Nothing prevents a second close. |
| PollClose.SavedAt | functions/polling_function.ts:236-257 | The row is written right after the update and its optional error log. The result depends on the write alone. |
| PollClose.CloseSuccessLogged | functions/polling_function.ts:236-257 | Unless the update threw, a successful write makes the "A new row saved" log the last effect, and the result is `{outputs: {}}`. |
| PollClose.ClosedMessageShowsVotes | functions/polling_function.ts:197-232 | The closed message is 4 sections: the banner quoting the question, then for options one, two and three in order, `:marker:  option - V vote(s)`. Here V is the marker's last count minus one, or `undefined` when the marker is missing. The close button is gone. |
| PollClose.ClosedLine | functions/polling_function.ts:208-231 | Option `k`'s closed line shows its marker, its text and its shown vote count. |
| Slack.CallsAppend | functions/polling_function.ts:128-248 | The calls of two traces joined are the calls of each, in order. |
| Scenarios.SmallVotes | functions/polling_function.ts:189-191 | Raw counts 0, 1, 2 and 3 are stored as "-1", "0", "1" and "2". |
| Scenarios.LunchTally | functions/polling_function.ts:183-194 | Raw counts one 3, two 2, three 1 tally to `[three: "0", two: "1", one: "2"]`. |
| Scenarios.LunchResponses | functions/polling_function.ts:246 | That tally is stored as `{"three":"0","two":"1","one":"2"}`, written as the three member texts joined by commas inside braces. |
| Scenarios.StringifyThree | functions/polling_function.ts:246 | A three-property object is stored as its three members, in insertion order, separated by commas inside braces. |
| Scenarios.LunchVotesShown | functions/polling_function.ts:212-228 | The closed lines of that poll show 2, 1 and 0 votes. |
| Scenarios.LunchOtherUser | functions/polling_function.ts:176 | Another user's click on the lunch poll does nothing. |
| Scenarios.LunchCounts | functions/polling_function.ts:186-189 | The lunch snapshot's last counts are 1, 2 and 3. |
| Scenarios.ZeroCount | functions/polling_function.ts:189-191 | A lone `one` with raw count 0 tallies to `[one: "-1"]`. |
| Scenarios.ZeroCounts | functions/polling_function.ts:186-189 | That snapshot has a count only for `one`. |
| Scenarios.MissingMarkers | functions/polling_function.ts:212-228 | With that snapshot the closed lines show `-1`, `undefined` and `undefined`. |
| Scenarios.LunchSaveFails | functions/polling_function.ts:240-252 | When the lunch poll's write answers non-ok with `error`, the result is the save error, whose text is "Failed to save a row in datastore: " followed by `error`. |
| Scenarios.LunchSaveFailsCalls | functions/polling_function.ts:177-248 | In that run the calls are `reactions.get`, `chat.update` with the closed message, then `apps.datastore.put` with the lunch row, in that order. |
| Scenarios.LunchOpen | functions/polling_function.ts:128-157 | When the lunch poll is posted as C1/T1 and every add answers ok, the effects are the post and the adds of one, two and three on T1, with nothing logged; the result is `{completed: false}`. |

## Left out

- The handlers do not check for missing inputs before the first call.
  Required inputs are enforced by the SDK's input schema, which is not part
  of this model.

- The function definition, workflow, trigger, manifest and datastore
  schema are configuration and are not part of this model. The datastore
  is named only by its `poll_results` constant.
- The Slack client, the network and `await` are not modelled. Each call's
  outcome is an input: ok, not-ok with an `error`, or thrown with a
  `message`. The fields of a successful answer that the code reads are
  inputs too: the posted channel and `ts`, and the reaction list or its
  absence. Concurrency between clicks is not modelled.
- `crypto.randomUUID()` is not modelled; the uuid is an input.
- `console.error`, `console.log` and `console.table` appear in the trace only
  as `LogError(text)` and `LogRowSaved`. The text `console.error` prints for
  an `Error` object is reduced to its message. `console.table`'s output is
  not modelled.
- Exception messages are modelled only as far as the code uses them:
  `Raised(message)` for an error a call threw, and V8's "Cannot read
  properties of undefined (reading 'p')" for the TypeErrors. Results are
  datatypes; `ErrorText` gives each error result's `error` string.
- `JSON.stringify` is modelled only for objects whose keys and values need
  no escaping, which covers every object the code stringifies.
  `parseInt(reacji.count)` is modelled as the count itself: counts are
  natural numbers, and Number precision is not modelled.
- `interactivity?.interactor.id` is modelled as an optional user id. The
  rest of the interactivity payload is not modelled.
- PollClose.ClosedMessageShowsVotes: states the closed message's text
  content only. The JSON field names of the blocks (`type`, `text`,
  `emoji`) are represented by the Block datatype's constructors, not as
  text.
