# Blacklist import engine, modelled in Dafny

This project models the core of the import service in `index.js`. The service
takes moderation observations from two message queues: a scraper feed and a
chat-log feed. Each observation is a user id, an offense category and the user's
roles, seen in one guild (server). The service merges each observation into a
blacklist database. It also keeps a small session state machine that reports
"import done" for each guild.

- `wrappers.dfy` (`Wrappers`): `Option`, and a lookup by key.
- `categories.dfy` (`Categories`):
  - the `typeHierarchy` rank, computed with `indexOf` exactly, so an unknown
    category ranks -1;
  - the blacklist status an observed category implies;
  - the chat feed's translation from server categories to user categories.
- `reconciler.dfy` (`Reconciler`): the three tables as finite maps.
  - `BadServers`: id → category.
  - `Users`: id → (last username, avatar, category, status).
  - `Imports`: (id, server) → (category, roles, appealed, created, updated, reason).
  - `Reconcile` is the compare-then-write merge that `processUserScraper` and
    `processUserChat` share, from the Users lookup to the Imports upsert. The
    lemmas beside it cover:
    - status derivation;
    - never-demote and the new-user placeholders;
    - the import upsert;
    - idempotence;
    - category precedence.
- `session.dfy` (`Session`): the whole process state as one value, `World`. It
  holds the tables, `serverDoesntExist`, `totalUsers`, `totalUsersChat`,
  `_guildId`, `oldGuildId`, whether the import-done timer is pending, `wasDone`
  and the notifications sent. Each event is a pure step:
  - a guild id being assigned (the `guildId` setter);
  - the timer firing (`TimerFired`, in place of real time);
  - a scraper or chat task running;
  - the periodic chat report.
  `Run` applies a sequence of events in order.
- `properties.dfy` (`Properties`): what one call guarantees and what holds over
  whole event traces:
  - stickiness of whitelisted and permanently blacklisted users;
  - the never-demote rule;
  - the short-circuit once a server is marked missing;
  - one report per session when the timer fires (the debounce).
- `importer.dfy` (`Importer`): the process as the class `Importer`.
  - Its fields are the tables, the globals, the two task queues and the
    notifications.
  - Its handlers update the fields in place.
  - Each handler is proved to perform the corresponding `Session` step.
  - The queue drains (`processQueueScraper` / `processQueueChat`) are loops that
    shift the front task and run it. They are proved equal to `Run` over the
    queued items in order.

Notifications (webhook posts) are kept as a list of messages. How they are
delivered is not modelled.

The model follows what the code does, including these points:

- An observation with an unknown category is not rejected. Its rank is -1, the
  same as `indexOf` gives. A new user is inserted with that category. A stored
  user is never replaced by it, because -1 is not greater than any rank.
- The chat feed ignores an unknown server. It logs it, sets no flag and sends no
  notice. The chat feed never touches the guild session: only the scraper
  consumer assigns `guildId`.
- There is one global guild session, not one per server.
- A re-observed import row counts as "updated" even when nothing in it changes.
- After the timer has reported a guild (`wasDone` is set), assigning the same
  guild again leaves `wasDone` set. If the timer fires again, the second run is
  reported as usual (`Properties.SessionEndsWithOneReport`). But if another
  guild is assigned first, the switch sends no report: `wasDone` is only
  cleared, and the counts carry over into the next guild's report. A
  missing-server flag set during that second run also survives the switch, so
  every scraper record of the next guild is skipped until the timer fires.
  `Properties.RerunAfterReportCarriesOver` states this.

## Model

| member | source | states |
|---|---|---|
| `Categories.IndexOf` | index.js:175-176 | the result is -1 exactly when the category is absent; otherwise it is the first position holding it |
| `Categories.Rank` | index.js:123 | the rank is between -1 and 4 |
| `Categories.RankIsIndexOf` | index.js:175-176 | the rank equals `typeHierarchy.indexOf(t)`. It is -1 exactly for a category outside the hierarchy; otherwise the hierarchy holds the category at that rank |
| `Categories.RankIsPosition` | index.js:123 | OTHER, LEAKER, CHEATER, SUPPORTER and OWNER rank 0, 1, 2, 3 and 4 |
| `Categories.RankInjective` | index.js:175-178 | two categories with the same defined rank are the same category |
| `Categories.DeriveStatus` | index.js:153-173 | the status is permanent exactly for SUPPORTER or OWNER or when the stored status is permanent; otherwise it is blacklisted |
| `Categories.ConvertServerType` | index.js:240-253 | the result is a user category or the input unchanged |
| `Categories.ConvertServersTypeToUsersType` | index.js:239-254 | the list keeps its length; each element is translated on its own |
| `Categories.ConvertServerTypeTable` | index.js:239-254 | CHEATING→CHEATER; RESELLING, ADVERTISING and OTHER→OTHER; LEAKING→LEAKER; anything else is unchanged |
| `Categories.ConvertServerTypeIdempotent` | index.js:239-254 | user categories are left alone, so translating twice is the same as translating once |
| `Reconciler.JoinRoles` | index.js:202 | no roles give ""; one role gives itself; the length is the sum of the role lengths plus 2 per ", " separator |
| `Reconciler.JoinRolesAppend` | index.js:202 | joining two non-empty role lists together gives the two joins with one ", " between them, so with the one-role case the joined string is `roles.join(", ")` |
| `Reconciler.Reconcile` | index.js:148-236 | a whitelisted user leaves every table unchanged. Otherwise the Users keys gain the id and the Imports keys gain (id, server). The outcome is Added exactly when the import row was missing. All other rows are unchanged, and BadServers is never written |
| `Reconciler.WrittenUser` | index.js:153-199 | the status written to a user row is always blacklisted or permanently blacklisted, never whitelisted or none |
| `Reconciler.WrittenImport` | index.js:209-233 | the row always gets the joined roles, appealed false and updatedAt now. A missing row is created with the observed category, createdAt now and an empty reason. A stored row keeps createdAt and reason, and takes the observed category exactly when its rank is strictly higher (or it is the same category); otherwise it keeps its own |
| `Reconciler.ReconcileStatus` | index.js:153-173 | the status written is permanent exactly for SUPPORTER or OWNER or a stored permanent status; otherwise it is blacklisted |
| `Reconciler.ReconcileUserRow` | index.js:175-199 | a new user gets "EMPTY", the default avatar and the observed category. A stored user keeps its name and avatar, and its category is replaced only by a strictly higher rank, so the new rank is the larger of the two |
| `Reconciler.ReconcileImportRow` | index.js:202-233 | the row gets the joined roles, appealed false and updatedAt now. A stored row keeps createdAt and reason; its category is replaced only by a strictly higher rank; the outcome is Updated. A missing row is inserted as (category, roles, unappealed, now, now, ""); the outcome is Added |
| `Reconciler.WrittenUserIdempotent` | index.js:171-199 | writing the same category to a user row twice gives the row of the first write |
| `Reconciler.WrittenImportIdempotent` | index.js:209-233 | writing the same observation to an import row twice at the same time gives the row of the first write |
| `Reconciler.ReconcileIdempotent` | index.js:148-236 | reconciling the same observation twice leaves the tables as the first pass left them |
| `Reconciler.ReconcilePrecedence` | index.js:175-188 | for a fresh user, observing two categories of different rank in either order leaves the higher-ranked one; an unknown category (rank -1) loses to any known one |
| `Session.Count` | index.js:235-236 | a skipped whitelisted user changes no counter. Otherwise new + updated grows by exactly one, and `new` is the one that grows exactly for an added import row |
| `Session.Merge` | index.js:158-169 | BadServers is never written. A whitelisted user leaves the tables and counters alone and adds one notice with the joined roles. Otherwise no notice is added, one counter grows by one, and it is `new` exactly when the import row was missing |
| `Session.ScraperStep` | index.js:122-237 | BadServers, the chat counters and the session fields are unchanged. The missing-server flag ends up set exactly when it was set already or the server is unknown |
| `Session.ChatStep` | index.js:256-369 | an undefined or unknown server changes nothing. The scraper counters, the flag and the session fields are never touched |
| `Session.ScraperTaskStep` | index.js:429-438 | without an id, or while the server is marked missing, the task changes nothing |
| `Session.ChatTaskStep` | index.js:474-482 | without an id the task changes nothing; it never touches the scraper counters, the flag or the guild session |
| `Session.GuildIdStep` | index.js:97-117 | the new id becomes current; the old id is remembered; the timer is pending; the tables and chat counters are unchanged |
| `Session.TimerStep` | index.js:73-91 | the timer is no longer pending; the tables, chat counters and guild ids are unchanged |
| `Session.ChatEmbedStep` | index.js:371-377 | the chat counters are reset. A report of the old counts is added exactly when they were not both zero |
| `Properties.ScraperUnknownServer` | index.js:128-140 | an unknown server sets the flag and sends one notice; the tables and counters are unchanged |
| `Properties.ScraperIncomplete` | index.js:142-146 | a record without an id or a category changes no table, counter, flag or notification |
| `Properties.ScraperWhitelisted` | index.js:158-169 | a whitelisted user is only reported (user, server, joined roles); nothing else changes |
| `Properties.ScraperCountsOne` | index.js:202-236 | a reconciled record writes the reconciled tables. new + updated grows by exactly one, and `new` is the one that grows exactly when the import row was missing |
| `Properties.ChatUsesServerCategory` | index.js:262-368 | a chat record is reconciled with its server's translated category. new + updated on the chat counters grows by exactly one, and `new` is the one that grows exactly when the import row was missing. The scan counters and the notifications are unchanged |
| `Properties.ChatIncomplete` | index.js:274-278 | for a known server, a chat record without an id, or whose translated category is empty, changes nothing |
| `Properties.ChatWhitelisted` | index.js:289-301 | a whitelisted chat user is only reported (user, server, joined roles) on the chat feed; nothing else changes |
| `Properties.ScraperStepTables` | index.js:122-237 | the only table change a scraper record can make is its reconciliation with the record's own category |
| `Properties.ChatStepTables` | index.js:256-369 | the only table change a chat record can make is its reconciliation under the server's translated category |
| `Properties.ScraperStepNoReport` | index.js:133-168 | a scraper record adds at most one notice (server unknown or whitelisted user) and never an import-done report |
| `Properties.ChatStepNoReport` | index.js:294-300 | a chat record adds at most one notice (whitelisted user) and never an import-done report |
| `Properties.TimerResetsSession` | index.js:77-88 | the pending timer reports the guild's counts, resets the counters and the flag, and sets `wasDone` |
| `Properties.AssignSameGuild` | index.js:97-103 | assigning the current id, or the first id, changes no counter, flag or notification |
| `Properties.AssignNewGuild` | index.js:103-116 | a change from a defined id clears `wasDone`. If `wasDone` was set, nothing else changes. Otherwise the old guild is reported, and its counters and the flag are reset |
| `Properties.RunKeepsUsers` | index.js:158-200 | over any event sequence, a stored user stays stored and its rank never falls. A permanent status stays permanent, a whitelisted row never changes, and no import row disappears |
| `Properties.SessionSendsNoReport` | index.js:97-116 | while the same guild stays current, no import-done report is sent and the pending timer stays pending |
| `Properties.SessionEndsWithOneReport` | index.js:73-116 | a session of any length followed by the timer sends exactly one report, for that guild, with the accumulated counts. The counters are reset afterwards |
| `Properties.ServerMissingShortCircuit` | index.js:432-433 | once the flag is set, further scraper tasks and re-assignments of the same guild change nothing, so the missing server is reported once |
| `Properties.RerunAfterReportCarriesOver` | index.js:103-106 | after the timer reported, a rerun of the same guild sends no report when another guild is assigned before the timer fires again. Its counts and its missing-server flag carry over |
| `Importer.Importer.constructor` | index.js:15-26 | the given tables, zero counters, no guild, no pending timer, `wasDone` false, empty queues and no notifications |
| `Importer.Importer.SetGuildId` | index.js:97-117 | the state after is `GuildIdStep` of the state before; only the session fields, the counters, the flag and the notifications may change |
| `Importer.Importer.ScanDoneTimerFires` | index.js:77-88 | the state after is `TimerStep` of the state before |
| `Importer.Importer.WriteUser` | index.js:148-200 | reports whether the stored user is whitelisted; if so Users is unchanged, otherwise the written row is stored under the id |
| `Importer.Importer.WriteImport` | index.js:202-233 | reports whether the (id, server) row was missing and stores the written import row under that key |
| `Importer.Importer.MergeRecord` | index.js:148-236 | the tables, the feed's counters and the notifications after are those of the shared merge step |
| `Importer.Importer.ProcessUserScraper` | index.js:122-237 | the state after is `ScraperStep` of the state before; the queues and chat counters are untouched |
| `Importer.Importer.ProcessUserChat` | index.js:256-369 | the state after is `ChatStep` of the state before |
| `Importer.Importer.SendTotalUsersChatEmbed` | index.js:371-377 | the state after is `ChatEmbedStep` of the state before |
| `Importer.Importer.ConsumeScraper` | index.js:426-439 | assigns the item's guild id, as `GuildIdStep` does, and appends the item to the scraper queue |
| `Importer.Importer.ConsumeChat` | index.js:472-482 | appends the item to the chat queue and changes nothing else |
| `Importer.Importer.RunScraperTask` | index.js:429-438 | the state after is `ScraperTaskStep` of the state before |
| `Importer.Importer.RunChatTask` | index.js:474-482 | the state after is `ChatTaskStep` of the state before |
| `Importer.Importer.ProcessQueueScraper` | index.js:380-389 | the queue ends empty, and the state is that of running every queued scraper task front first. The chat queue is unchanged |
| `Importer.Importer.ProcessQueueChat` | index.js:391-400 | the queue ends empty, and the state is that of running every queued chat task front first. The scraper queue is unchanged |

## Left out

- Webhook delivery through axios (index.js:28-59). Notifications are appended to
  `outbox`; the message text, embed colour and delivery failures are not modelled.
- The MySQL connection and the SQL text (index.js:61-71). The tables are maps.
  `NOW()` is an integer clock reading passed in. A drain gives every task the
  same reading.
- An undefined guild id. The first query then gets an undefined bind parameter.
  The driver rejects it, and the task's `try/catch` swallows the error, so the
  model changes nothing. Other storage failures are not modelled.
- A NULL category in BadServers: categories are strings here.
- A JSON `id` that is a number rather than a string is not modelled. Absent roles
  are the empty list, which is what the destructuring default gives.
- Roles that are present but not an array (for example JSON `null`) are not
  modelled: `roles` is always a list. In the code `roles.length` then throws. For
  a stored or new user that happens at index.js:202, after the Users row was
  written, so the Imports row and the counter are skipped. For a whitelisted user
  it happens at index.js:163, before the notice. The task's `try/catch` swallows
  the error.
- A `type` that is not a string (a number, say) is not modelled: categories are
  strings.
- The AMQP connect and consume plumbing and the JSON parsing (index.js:402-490).
  Only the consume callbacks' effects are modelled.
- Real time: the 90-second timer, the 10-minute interval, the 500 ms pauses and
  the 100 ms polling (index.js:77-90, 378, 434, 478, 380-400). The timer firing is
  the explicit event `TimerFired`. A drain runs until its queue is empty. The
  endless wait for new messages is not modelled.
- Concurrency between the two consumers. The setter and the timer callback send
  a webhook before they reset the counters; each handler is modelled as one
  atomic step, and steps interleave only at event boundaries.
- Console logging and dotenv configuration.
