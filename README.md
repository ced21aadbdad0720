# doy-backend core, modelled in Dafny

doy-backend is the server of a birthday-reminder service. It has two parts:

- **A conversational agent.** A user chats with a language model that can call tools. The tools add, remove and edit the user's contacts' birthdays, set the user's `paid` flag (stop_sending, start_sending, unsubscribe), change the time zone, and set the reminder cadence.
- **An hourly batch.** It texts every user whose local time is 17:00 about the birthdays of their contacts 0, 1, 2, 3 or 7 days ahead. It uses a cache-aside lookup over the database.

This project models four pieces of that core:

- the context window the agent builds from the stored conversation;
- the switch from a tool's name to its handler, and the reply it gives;
- the tool handlers as updates of the store's tables;
- the upcoming-birthday lookup with its cache, and the reminder batch with its operator alerts.

The modules, one per concern:

- `Wrappers` (wrappers.dfy): `Option` and `Result`.
- `Text` (text.dfy): decimal rendering, zero padding, `join`, substring search.
- `Dates` (dates.dfy): the Gregorian calendar, adding days, `YYYY-MM-DD` rendering, date-only parsing.
- `Schema` (schema.dfy): the `User`, `Contact` and `MessagePreferences` rows, the store's constraints, the errors operations raise.
- `Json` (json.dfy): `JSON.stringify` of a string and of a tool result, and the parse that reads it back.
- `BirthdayLookup` (lookup.dfy): the raw SQL as a pure function over the tables, and the cache-aside `DataService` class.
- `AgentTools` (tools.dfy): one pure `...Effect` function per handler, and the `Store` class whose methods update its tables in place.
- `RecurringMessages` (reminders.dfy): the templates, the operator alert, and the `ReminderService` class with its nested loops.
- `Agent` (agent.dfy): cut-over, window walk, dispatch, reply, and the `LlmAgent` class.

## How the model is built

The outside world enters only as parameters:

- The language model is an oracle `Llm` from the window to a completion, or to nothing when the request throws or no choice comes back. A completion is the finish reason, the text (absent for null), the tool calls (each with its name, its arguments as JSON text, and its own JSON text), and the JSON text of the whole array.
- The text gateway is a `Transport` that gives the outcome of the n-th post: delivered, rejected with a status text, or a thrown error.
- The clock enters as `today`, as `hourOf`, which gives the current hour in a time zone, and as two creation times of message rows: `now` for the user's row, written before the model is asked, and `later` for the assistant's row, written after it answered. The lemmas about the next window take `now < later`, since the two rows are created by separate writes around the model request.
- The store is a `Db` value of three tables plus id counters. The cache is a map from key to stored result.

Methods change state as the source does:

- `BuildContextWindow` walks the history with the source's loop.
- The `Store` methods reassign its table fields.
- `ReminderService` appends to logs of the posts it made and the emails it sent.
- `DataService` writes its cache map and counts its database queries.

Each method is proved against a pure function. The properties the source promises are proved as lemmas about those functions.

`Respond` takes the dispatcher as a parameter. So the lemmas about the reply hold for any handler table. `LlmAgent.ProcessUserMessage` instantiates it with `DispatchFor`, the model of `executeToolUse`.

Where the tools' stated intent differs from what the code does, the model follows the code:

- **`irrelevant`.** It is a case of the switch, but it calls a method the management tools do not define. The model makes it throw (`NotAFunction`). It is not in the catalogue the tool classes declare.
- **The cache key.** It holds only the target date, not the lead time. A hit therefore returns whatever was stored for that date (`StaleHitAcrossLeadTimes`).
- **The cut-over.** The time of the newest message with a recorded tool call. Every message created at or after it stays eligible, including earlier rows with the same timestamp.
- **Tool arguments.** `processUserMessage` hands `executeToolUse` the call's `arguments` member, which is JSON text, without parsing it (src/agent/agent.service.ts:168). Every field a handler reads from that string is `undefined`. The handlers' input is therefore `ToolArgs` with optional fields, and an exchange passes `Undecoded`, where none is defined (`UndecodedDispatch`). The outcomes:
  - add_birthday and edit_birthday fail on the invalid date.
  - edit_cadence throws on `undefined.includes`.
  - remove_birthday deletes every contact of the user and confirms "Removed birthday for undefined".
  - change_timezone writes nothing and confirms "Timezone changed to undefined".
  - When a handler throws, the assistant row is already stored with the tool calls' JSON and no recorded call.

  The handler lemmas in `AgentTools` hold for any input, decoded or not.
- **Stopping reminders.** stop_sending, start_sending and unsubscribe write only the user's `paid` column. Neither the lookup's query nor the batch reads it, so the batch's posts are the same before and after (`PaidIsNotRead`, `StopSendingKeepsReminders`). Only the cadence (the preferences row) and the contacts decide who is texted.

## Model

| member | source | states |
|---|---|---|
| Text.JoinContainsParts | src/agent/agent.tools.ts:195 | the text `join(', ')` produces contains every part |
| Dates.AddDays | src/data/data.service.ts:33 | moving a calendar date forward by whole days gives a calendar date |
| Dates.AddDaysCompose | src/data/data.service.ts:33 | adding m days and then n days is adding m + n days |
| Dates.AddDaysAdvances | src/data/data.service.ts:33 | adding days never moves a date back, and adding at least one day moves it forward |
| Dates.AddDaysDistinct | src/data/data.service.ts:33 | different day counts added to one date give different dates |
| Dates.ParseFormat | src/data/data.service.ts:34 | reading back the `YYYY-MM-DD` rendering of a date gives the date |
| Dates.FormatInjective | src/data/data.service.ts:34 | distinct dates render to distinct `YYYY-MM-DD` texts |
| Dates.Parse | src/agent/agent.tools.ts:51 | an accepted birthday text always yields a day the calendar has |
| Dates.AddDaysWithinMonth | src/data/data.service.ts:33 | moving forward within a month only advances the day |
| Dates.CountFromFirst | src/agent/agent.tools.ts:51 | the day-th day from the first of a month is that date when the month has it, and otherwise the day past the month's length in the next month |
| Dates.ParseRollsOver | src/agent/agent.tools.ts:51-75 | every `YYYY-MM-DD` text with month 1 to 12 and day 1 to 31 is accepted, and a day past the month's end rolls over into the next month, as `new Date` reads it |
| BirthdayLookup.ContactsOn | src/data/data.service.ts:42-46 | the filtered contacts joined to a user are exactly that user's contacts on the target's month and day, in any year |
| BirthdayLookup.QueryUsers | src/data/data.service.ts:68-78 | each row is a listed user with an enabling preferences row and their filtered contacts; every such user has one |
| BirthdayLookup.QuerySound | src/data/data.service.ts:41-77 | every returned user has a preferences row whose flag for the lead time is set; every returned contact is that user's and falls on the target's month and day |
| BirthdayLookup.QueryComplete | src/data/data.service.ts:50-70 | every user with an enabling row is returned with all their matching contacts; with none, they are returned with an empty list |
| BirthdayLookup.QueryNeedsPreferences | src/data/data.service.ts:69 | a user without a preferences row is never returned |
| BirthdayLookup.QueryUnsupportedLeadTime | src/data/data.service.ts:71-77 | a lead time outside 0, 1, 2, 3, 7 returns nobody |
| BirthdayLookup.QueryUsersDistinct | src/data/data.service.ts:78 | grouping by user id returns each user at most once |
| BirthdayLookup.CacheKeyInjective | src/data/data.service.ts:33-34 | two target dates share a cache key only when they are the same date |
| BirthdayLookup.LookupHit | src/data/data.service.ts:37-39 | on a hit the stored value is returned, the database is not queried and the cache is unchanged |
| BirthdayLookup.LookupMiss | src/data/data.service.ts:39-89 | on a miss the query's result is returned and stored under the key; no other key changes |
| BirthdayLookup.LookupTwice | src/data/data.service.ts:32-90 | an immediate second lookup of the same date hits, returns an equal value and does not query, whatever the database holds then |
| BirthdayLookup.StaleHitAcrossLeadTimes | src/data/data.service.ts:34-37 | a result stored for tomorrow with lead time 1 is returned tomorrow for lead time 0, although the query for lead time 0 returns nobody |
| BirthdayLookup.DataService.GetCachedBirthdays | src/data/data.service.ts:20-30 | the value stored under the key if there is one, otherwise null |
| BirthdayLookup.DataService.FetchUsersWithBirthdays | src/data/data.service.ts:32-90 | returns the lookup's users, leaves the lookup's cache, and counts one query exactly on a miss |
| AgentTools.RemoveMatching | src/agent/agent.tools.ts:59-64 | exactly the contacts outside the `(userId, name)` filter remain |
| AgentTools.RemoveMatchingIdempotent | src/agent/agent.tools.ts:59-64 | deleting the same filter again deletes nothing more |
| AgentTools.SetBirthday | src/agent/agent.tools.ts:69-77 | only the birthday of the filtered contacts changes; ids, names, owners, phone numbers and order stay |
| AgentTools.ContactTextsMentionInputs | src/agent/agent.tools.ts:47-79 | the add, remove and edit confirmations contain the contact's name and the date text as given |
| AgentTools.AddBirthdayEffect | src/agent/agent.tools.ts:47-56 | succeeds iff the date is defined and parses, the name is defined and the user exists; then exactly one contact is appended with that name, owner and birthday, and every other row stays; failure (an invalid or undefined date, an undefined name, no user) changes nothing; the store's constraints are kept |
| AgentTools.RemoveBirthdayEffect | src/agent/agent.tools.ts:58-66 | never fails; a contact remains iff it was there and is not the user's contact of that name (an undefined name matches every contact of the user); users and preferences stay; constraints are kept; the confirmation shows an undefined name as `undefined` |
| AgentTools.RemoveBirthdayIdempotent | src/agent/agent.tools.ts:58-66 | removing the same name twice leaves the store and the result as removing it once |
| AgentTools.RemoveWithoutNameRemovesAll | src/agent/agent.tools.ts:58-66 | with an undefined name the filter is the user alone: every contact of the user is deleted, and the confirmation names `undefined` |
| AgentTools.EditBirthdayEffect | src/agent/agent.tools.ts:68-79 | succeeds iff the date is defined and parses; then every contact of the user with that name (every contact of the user, for an undefined name) gets the date, and nothing else about any contact, nor their number, changes; constraints are kept |
| AgentTools.PatchUsers | src/agent/agent.tools.ts:100-103 | only the row with that id gets the patched field (an undefined time zone writes nothing); ids and order stay |
| AgentTools.PatchUsersKeepsIds | src/agent/agent.tools.ts:100-103 | the set of user ids, and their uniqueness, are unchanged by a user update |
| AgentTools.UpdateUserEffect | src/agent/agent.tools.ts:99-113 | succeeds iff the user exists; then exactly that row's field is written and every other row and table stays; failure changes nothing; constraints are kept |
| AgentTools.TimezoneText | src/agent/agent.tools.ts:163 | the confirmation contains the time zone text |
| AgentTools.ChangeTimezoneWithoutZone | src/agent/agent.tools.ts:158-164 | with an undefined time zone the update still needs the user's row but writes nothing, and confirms a change to `undefined` |
| AgentTools.WithCadence | src/agent/agent.tools.ts:175-179 | a flag is set iff its lead time is in the cadence array; the row's id and owner stay |
| AgentTools.CadenceIgnoresOrderAndDuplicates | src/agent/agent.tools.ts:175-190 | two arrays that name the same lead times give the same flags, whatever their order, duplicates and other numbers |
| AgentTools.PrefsIndex | src/agent/agent.tools.ts:167-169 | finds a preferences row of the user, or reports that there is none |
| AgentTools.PrefsIndexUnique | src/agent/agent.tools.ts:167-169 | with the unique owner column, the lookup finds the user's one row |
| AgentTools.CadenceOutputMentions | src/agent/agent.tools.ts:195 | the confirmation lists every number of the cadence array |
| AgentTools.EditCadenceEffect | src/agent/agent.tools.ts:166-196 | fails iff the cadence is undefined (calling `includes` on it throws) or the user has no row and does not exist; failure changes nothing; on success the user has a row whose flags are the cadence's; rows of other users stay |
| AgentTools.EditCadencePreservesValid | src/agent/agent.tools.ts:166-193 | the update-or-create keeps the store's constraints |
| AgentTools.PrefsUpdateKeepsValid | src/agent/agent.tools.ts:172-181 | rewriting a row's flags under its own id and owner keeps the store's constraints |
| AgentTools.PrefsAppendKeepsValid | src/agent/agent.tools.ts:183-192 | creating the row of a user who has none, under the next id, keeps the store's constraints |
| AgentTools.EditCadenceLeavesOneRow | src/agent/agent.tools.ts:166-193 | after a successful edit the user has exactly one preferences row |
| AgentTools.EditCadenceIdempotent | src/agent/agent.tools.ts:166-196 | editing the cadence twice with the same array gives the store and result of editing it once |
| AgentTools.Store.AddBirthday | src/agent/agent.tools.ts:47-56 | the in-place update leaves the tables and returns the result `AddBirthdayEffect` gives, and keeps the constraints |
| AgentTools.Store.RemoveBirthday | src/agent/agent.tools.ts:58-66 | the in-place update matches `RemoveBirthdayEffect` and keeps the constraints |
| AgentTools.Store.EditBirthday | src/agent/agent.tools.ts:68-79 | the in-place update matches `EditBirthdayEffect` and keeps the constraints |
| AgentTools.Store.UpdateUser | src/agent/agent.tools.ts:100-103 | the in-place update matches `UpdateUserEffect` and keeps the constraints |
| AgentTools.Store.StopSending | src/agent/agent.tools.ts:99-105 | the user's `paid` becomes false, as `UpdateUserEffect` states |
| AgentTools.Store.StartSending | src/agent/agent.tools.ts:107-113 | the user's `paid` becomes true, as `UpdateUserEffect` states |
| AgentTools.Store.Unsubscribe | src/agent/agent.tools.ts:150-156 | the user's `paid` becomes false, as `UpdateUserEffect` states |
| AgentTools.Store.ChangeTimezone | src/agent/agent.tools.ts:158-164 | the user's `timeZone` becomes the given text, and an undefined one writes nothing, as `UpdateUserEffect` states |
| AgentTools.Store.EditCadence | src/agent/agent.tools.ts:166-196 | the find-then-update-or-create matches `EditCadenceEffect` and keeps the constraints |
| RecurringMessages.ReminderTextInjective | src/recurring-messages/recurring-messages.service.ts:66-70 | two reminders are the same text only for the same lead time and contact name |
| RecurringMessages.FailureEmailMentions | src/recurring-messages/recurring-messages.service.ts:34-40 | the operator alert names the contact, the user and the error |
| RecurringMessages.AttemptsForMembers | src/recurring-messages/recurring-messages.service.ts:51-56 | the attempts for a user are exactly one per returned contact, with that contact's text |
| RecurringMessages.PlannedCount | src/recurring-messages/recurring-messages.service.ts:48-58 | there are exactly as many attempts as (user, contact) pairs of users at the send hour |
| RecurringMessages.PlannedSound | src/recurring-messages/recurring-messages.service.ts:48-58 | every attempt is for a user at hour 17 and one of that user's returned contacts, and posts the lead time's text with the contact's name to the user's own phone |
| RecurringMessages.PlannedComplete | src/recurring-messages/recurring-messages.service.ts:48-58 | every returned contact of every user at hour 17 gets its attempt |
| RecurringMessages.FailureEmailsSound | src/recurring-messages/recurring-messages.service.ts:30-42 | every operator email is the alert for an attempt whose post was not delivered |
| RecurringMessages.FailureEmailsComplete | src/recurring-messages/recurring-messages.service.ts:30-42 | every post that was not delivered has its alert |
| RecurringMessages.AllDeliveredNoEmails | src/recurring-messages/recurring-messages.service.ts:30-33 | when every post is delivered there is no email |
| RecurringMessages.RunAttemptsShape | src/recurring-messages/recurring-messages.service.ts:62-73 | every post of a batch goes to a user at hour 17, to that user's own phone, with the template of one of the batch's lead times |
| RecurringMessages.RunQueriesCount | src/recurring-messages/recurring-messages.service.ts:66-70 | a batch queries the database at most once per lead time; not at all when every lead time's key is cached; once per lead time when none is cached and the keys are distinct |
| RecurringMessages.FetchQueriedIffMiss | src/recurring-messages/recurring-messages.service.ts:66-70 | the i-th lookup of a batch queries the database iff its key was neither in the cache at the start nor the key of an earlier lookup of the batch |
| RecurringMessages.FreshRunQueriesEach | src/recurring-messages/recurring-messages.service.ts:66-70 | a batch that starts with an empty cache queries the database once for each of its lead times when they increase |
| RecurringMessages.RunLeadTimesIncrease | src/recurring-messages/recurring-messages.service.ts:66-70 | the batch's lead times 0, 1, 2, 3, 7 increase, so a batch on an empty cache queries five times |
| RecurringMessages.DistinctDueKeys | src/data/data.service.ts:33-34 | increasing lead times read distinct cache keys |
| RecurringMessages.LookupKeys | src/data/data.service.ts:34-87 | a lookup queries iff its key is missing, and leaves its key in the cache |
| RecurringMessages.FetchesFollowMisses | src/recurring-messages/recurring-messages.service.ts:66-70 | each lookup of a batch queries exactly at the misses of the batch's keys read in order |
| RecurringMessages.RunQueriesAreMisses | src/recurring-messages/recurring-messages.service.ts:66-70 | the batch's query count is the number of misses of its keys |
| RecurringMessages.MissesIndex | src/data/data.service.ts:34-87 | a read of a cache that writes each missed key misses iff its key was neither cached at the start nor read before |
| RecurringMessages.MissesCount | src/data/data.service.ts:34-87 | such reads miss at most once each; never when every key is cached; once each when no key is cached and the keys are distinct |
| RecurringMessages.RunEmailsSound | src/recurring-messages/recurring-messages.service.ts:45-73 | every operator email of a batch is the alert, naming the contact, the user and the error, for one of the batch's posts that was not delivered |
| RecurringMessages.RunAllDelivered | src/recurring-messages/recurring-messages.service.ts:62-73 | a batch all of whose posts are delivered sends no email |
| RecurringMessages.MissAttemptsAreDue | src/recurring-messages/recurring-messages.service.ts:45-56 | after a miss every attempt is for the user's own contact on the target's month and day, and the user's preferences enable the lead time |
| RecurringMessages.AttemptsForRequests | src/recurring-messages/recurring-messages.service.ts:51-56 | the posts for a user's contacts depend only on the user's phone |
| RecurringMessages.PlannedRequestsAgree | src/recurring-messages/recurring-messages.service.ts:48-58 | the posts of one lead time depend only on the users' ids, phones and time zones and on their contacts |
| RecurringMessages.QueryUsersAgree | src/data/data.service.ts:41-78 | the query over users who agree on id, phone and time zone, with the same contacts and preferences, returns lists that agree on those |
| RecurringMessages.PaidIsNotRead | src/data/data.service.ts:41-78 | writing a user's `paid` flag changes none of the batch's posts, for any lead time and target date |
| RecurringMessages.StopSendingKeepsReminders | src/agent/agent.tools.ts:99-105 | stop_sending and unsubscribe leave every post of the batch in place |
| RecurringMessages.ReminderService.SendTextMessage | src/recurring-messages/recurring-messages.service.ts:17-43 | one post of the text to the user's phone; exactly one alert email iff the post was not delivered |
| RecurringMessages.ReminderService.SendMessagesForUpcomingBirthdays | src/recurring-messages/recurring-messages.service.ts:45-59 | after the lookup, the posts made are the planned attempts in loop order; the emails are their alerts; a failure does not stop the loops |
| RecurringMessages.ReminderService.ProcessBirthdayMessages | src/recurring-messages/recurring-messages.service.ts:61-73 | lead times 0, 1, 2, 3, 7 in turn, each lookup seeing the cache the previous left; every planned post of every lead time is made and every failure alerted |
| Json.Stringify | src/agent/agent.service.ts:183 | a stringified string is enclosed in quotation marks |
| Json.UnescapeEscapeAll | src/agent/agent.service.ts:183 | reading back an escaped string gives the string |
| Json.ParseStringify | src/agent/agent.service.ts:183 | `JSON.parse(JSON.stringify(s))` is `s` |
| Json.ToolResultJson | src/agent/agent.service.ts:183 | a serialised tool result opens with its type member and closes the object |
| Json.ToolResultJsonOutput | src/agent/agent.service.ts:183 | the output member of a serialised tool result reads back as the output |
| Agent.Reverse | src/agent/agent.service.ts:72 | the newest-first listing is the stored order reversed, element by element |
| Agent.CutoverIsNewestCall | src/agent/agent.service.ts:54-60 | there is a cut-over iff some message records a tool call, and it is the time of the newest such message |
| Agent.OnOrAfterMembers | src/agent/agent.service.ts:69-71 | the filter keeps exactly the messages created at or after the time |
| Agent.EligibleMembers | src/agent/agent.service.ts:54-75 | a message is eligible iff there is no cut-over or it was created at or after the cut-over |
| Agent.OnOrAfterInTimeOrder | src/agent/agent.service.ts:69-72 | the filter keeps the time order |
| Agent.NewestFirst | src/agent/agent.service.ts:72 | the history the walk receives is ordered newest first |
| Agent.PickedIsQuotaPrefix | src/agent/agent.service.ts:95-106 | the quota counts accepted messages only: the walk keeps the first three messages the unbounded alternation walk accepts, and a skipped message consumes nothing |
| Agent.PickedAlternates | src/agent/agent.service.ts:93-105 | at most three messages are taken; the newest is the assistant's; each older one has the other role |
| Agent.PickedIsSubsequence | src/agent/agent.service.ts:95-106 | the taken messages form a subsequence of the newest-first history |
| Agent.OldestFirst | src/agent/agent.service.ts:99-102 | the repeated `unshift` lists the taken messages oldest first, element by element |
| Agent.AlternatesAppend | src/agent/agent.service.ts:108-113 | gluing two alternating runs whose ends differ in role gives an alternating run |
| Agent.OldestFirstAlternates | src/agent/agent.service.ts:95-106 | the oldest-first turns alternate, from the oldest taken message to the newest |
| Agent.ContextWindowAlternates | src/agent/agent.service.ts:88-113 | the window holds at most five turns, starts with a user turn, alternates throughout and ends with the new message verbatim |
| Agent.ContextWindowTakes | src/agent/agent.service.ts:95-111 | before the new message come the taken messages, newest last; the `Hello` turn opens the window iff the oldest taken message is the assistant's |
| Agent.PickedFromIsPicked | src/agent/agent.service.ts:95-106 | the walk by index from position i takes what the walk over the remaining history takes |
| Agent.BuildContextWindow | src/agent/agent.service.ts:88-113 | the loop, the prepend and the push build exactly the window `ContextWindow` describes |
| Agent.ToolNamedNameOf | src/agent/agent.service.ts:194-218 | every case of the switch is reached by its own name |
| Agent.ToolNamed | src/agent/agent.service.ts:194-221 | a name selects a case only when it is that case's name |
| Agent.CatalogDispatches | src/agent/agent.service.ts:31-44 | every catalogued tool has a handler, and `irrelevant` is not catalogued |
| Agent.DispatchUnknown | src/agent/agent.service.ts:219-220 | any other name gives the `Unknown tool` result, without an error and without touching the store |
| Agent.DispatchRoutes | src/agent/agent.service.ts:194-218 | each name reaches its own handler |
| Agent.UndecodedDispatch | src/agent/agent.service.ts:168-221 | with no field defined, add_birthday and edit_birthday fail on the invalid date and change nothing; edit_cadence throws on `includes` and changes nothing; remove_birthday deletes every contact of the user; change_timezone writes nothing and succeeds iff the user exists |
| Agent.RespondStoresMessage | src/agent/agent.service.ts:115-122 | once the conversation exists or can be created, the old rows stay and the new message is stored after them, verbatim, as a user row |
| Agent.RespondText | src/agent/agent.service.ts:152-159 | a reply that is not a tool call changes no table and returns the text, or the diagnostic with the finish reason when the text is empty; it is stored as an assistant row with no tool, created after the model answered |
| Agent.RespondNullText | src/agent/agent.service.ts:152-159 | a null reply text fails the create of the assistant's row: the user's row stays stored, no table changes, and the next window is the one the earlier rows give |
| Agent.RespondCompletionFails | src/agent/agent.service.ts:139-144 | when the model request throws, the user's row stays stored, no table changes, and the next window is the one the earlier rows give |
| Agent.UnansweredRequestSkipped | src/agent/agent.service.ts:93-106 | an unanswered user row, the newest of the conversation, is passed over by the walk that first expects the assistant, so it leaves the window unchanged |
| Agent.RespondToolCall | src/agent/agent.service.ts:161-183 | after a successful tool call, run on the undecoded arguments, the store is the tool's; the assistant row records the call's JSON, the tool name and its output; the reply is the tool result as JSON, whose output member reads back as the output |
| Agent.RespondToolCallFails | src/agent/agent.service.ts:152-170 | when the tool throws, the reply is the error, the store is what the handler left, and the last stored row is the assistant's with the tool calls' JSON and no recorded call |
| Agent.RespondUndecodedRemove | src/agent/agent.service.ts:161-183 | a remove_birthday call in an exchange deletes every contact of the user, whatever name the model gave, and replies with the removal of `undefined` |
| Agent.RespondUndecodedThrows | src/agent/agent.service.ts:152-170 | an add_birthday, edit_birthday or edit_cadence call in an exchange fails, leaves the store unchanged, and leaves the assistant row with no recorded call |
| Agent.ReplyAppends | src/agent/agent.service.ts:115-178 | an exchange appends the request and at most one assistant row, created at the reply's time |
| Agent.RespondMovesCutover | src/agent/agent.service.ts:152-178 | after a successful tool call the next cut-over is the creation time of the assistant's row, and that row is the only eligible one: the request and everything before it drop out |
| Agent.CallAfterRequest | src/agent/agent.service.ts:54-71 | a recorded call created after the request, which is no older than the rows before it, becomes the cut-over and is the only eligible row |
| Agent.OnOrAfterNone | src/agent/agent.service.ts:69-71 | the filter on a time later than every row keeps nothing |
| Agent.RespondToolCallNextWindow | src/agent/agent.service.ts:54-113 | after a successful tool call the next window is exactly `Hello`, the recorded call and the next message |
| Agent.CutoverAfterCall | src/agent/agent.service.ts:54-60 | a row recording a tool call that is no older than any row before it becomes the cut-over |
| Agent.TimeOrderExtend | src/agent/agent.service.ts:115-159 | a user row no older than the stored rows, then an assistant row no older than it, keep the rows in time order |
| Agent.RespondKeepsTimeOrder | src/agent/agent.service.ts:115-159 | the stored rows stay in time order when the user's row is no earlier than every row and the assistant's row no earlier than the user's |
| Agent.LlmAgent.ExecuteToolUse | src/agent/agent.service.ts:191-222 | the switch calls the selected handler on the store and returns its result, as `DispatchEffect` states |
| Agent.LlmAgent.Answer | src/agent/agent.service.ts:148-188 | the rows stored, the tool run on the undecoded arguments and the reply after the model answered are those `Reply` gives |
| Agent.LlmAgent.ProcessUserMessage | src/agent/agent.service.ts:48-189 | the reply, the store and the conversations afterwards are those `Respond` gives, with the tool run on the undecoded arguments, including the stored request when the model request throws; every conversation stays in time order |

## Left out

- The language model call is an oracle. The `tools` argument it receives is left out: the constructor builds the tool list in a local and never assigns the field. The turns pushed onto the window after the call are left out too, because nothing reads them.
- Role values other than `user` and `assistant` are not represented. A row with another role would never be accepted by the window walk.
- Several conversations of one user are not represented. The model keeps one conversation per user, while the cut-over query ranges over all of the user's messages.
- Message ids are not represented. A stored reply is identified by its position, the last row.
- Ordering among messages with equal creation times is not modelled. The newest-first listing is the stored order reversed, which requires rows in time order (`InTimeOrder`).
- Agent.RespondText, Agent.Reply: a message row is assumed to require its text; the message table's definition is not part of this model. A null reply text that is not a tool call is therefore a failed create (`MissingContent`) after the user's row is stored, not the `Unexpected response format` diagnostic, which the model returns only for an empty text. `RespondNullText` states that outcome.
- Dates.Parse: `new Date(text)` accepts many formats; the model reads only `YYYY-MM-DD` with a year of four or more digits, a month of 1 to 12 and a day of 1 to 31, rolling a day past the month's end into the next month. Any other text is an invalid date, and the store rejects it.
- Lone UTF-16 surrogates cannot occur in Dafny strings. `JSON.stringify`'s `\u` escapes for them are not modelled.
- Redis expiry, the connection, cache errors, and the JSON round trip of the cached value are left out. The value read is the value written.
- The SQL engine's row order is left out. The query returns users in table order.
- RecurringMessages.ReminderService.ProcessBirthdayMessages: a failing raw query or cache write inside `fetchUsersWithBirthdays` throws out of the batch and skips the remaining lead times. The model's database and cache never fail, so this path is not modelled.
- The clock advancing during a batch is left out. One `today` and one `hourOf` serve the whole batch.
- The alert email is sent without awaiting it; the model appends it to the email log in order.
- The controller's call to the missing `sendMorningMessage`, the module wiring and all logging are left out.
- AgentTools.AddBirthdayEffect: when both the date and the name are undefined, which validation error the store reports first is not known from the code; the model reports the invalid date.
- Agent.HandlerEffect: `irrelevant` calls a handler method that does not exist. It is modelled as a thrown `NotAFunction`, with no output text.
