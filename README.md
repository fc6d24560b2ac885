# Potolkoff bot: request store, intake wizard and callback data

A Dafny model of the core of a Telegram bot for a ceiling-installation studio
(`bot.js`). Three parts of it are modelled and proved:

- **The request store and its lifecycle.** `createRequest` appends a request
  with status `новая`. The admin's two status buttons (`admin_status_progress_<id>`,
  `admin_status_done_<id>`) are gated by the check `ctx.from.id.toString() === ADMIN_ID`.
  They find the first record with the id and rewrite only its status. The contact
  button looks a record up. `/myrequests` filters by customer. The admin's
  "all requests" button sorts a copy newest first. `requests.json` becomes an
  in-memory `seq<Request>` in the class `Store.RequestStore`; creation times are
  integers, and ids are naturals given by the caller, not assumed unique.
- **The intake wizard `request_wizard`** as a cursor machine. `Wizard.Step` is
  the eight step handlers as one function `(cursor, draft, update) -> (cursor', draft')`.
  The class `Wizard.Session` applies it, and carries the scene actions `req_confirm`,
  `req_cancel`, `req_edit` and the service shortcut `^req_service_\d+`. `trim`,
  `length`, `toLowerCase`, the `isNaN`/`parseFloat` test and the formatted dates
  are fields of the parameter `Wizard.Platform`.
- **Callback data.** The bot builds `admin_contact_${id}` and the two status strings,
  and its handlers read them back with `split('_')[k]` and `parseInt`.
  `Text` models `split`, `join`, decimal printing and `parseInt`. `Callbacks`
  proves that every natural id survives the round trip, and that each of the
  five `req_service_N` buttons selects its own entry of the services table.

Modules: `Text` (text.dfy), `Callbacks` (callbacks.dfy), `Requests`
(requests.dfy, pure), `Store` (store.dfy, class and in-place sort), `Wizard`
(wizard.dfy, pure step function and session class).

### Behaviour as written

The model follows the handlers as written. In these places they differ from the
flow that the bot's prompts describe:

- The service, area, address and date-choice handlers call `ctx.wizard.next()`
  on every update. An invalid area or a short address is reported, but the
  cursor still moves on (`AreaStepAlwaysAdvances`, `AddressStepAlwaysAdvances`).
- Every date choice moves the cursor to the typed-date handler, not only
  "manual". So the next text message, which the prompt asks to be the contacts,
  replaces the chosen date (`FixedDateReplacedByNextMessage`).
- The address length is checked after `trim`.
- `req_confirm` is a scene action. It stores the draft as it stands at whatever
  step it is pressed (`Session.Confirm`).
- Leaving the scene does not discard `ctx.session.request`; the next entry
  resets it to `{}` in the first handler (`Session.Leave`, `Session.Enter`).
- The service buttons are a scene action that fires at any step. A service
  button pressed after the service step sends the wizard back to the area
  handler, keeps the other fields of the draft and overwrites the service
  (`ServiceShortcut`, `Session.PressService`).
- Ids come from `Date.now()` and are not unique. A record whose id is already
  taken can never be reached by its buttons (`DuplicateIdIsShadowed`).

## Model

| member | source | states |
|---|---|---|
| `Text.NatToDecimal` | bot.js:92-96 | the decimal text of an id in a template literal: non-empty, all digits, leading zero only for 0 |
| `Text.LeadingDigits` | bot.js:707 | the longest all-digit prefix, the part `parseInt` reads |
| `Text.ParseInt` | bot.js:751 | `parseInt` gives a number exactly when a digit follows the optional sign, `NaN` otherwise |
| `Text.ParseIntOfNatToDecimal` | bot.js:784 | printing a natural and parsing it back gives the natural |
| `Text.ParseIntOfIntToString` | bot.js:702 | `parseInt(n.toString()) === n` for every integer, negative ones included |
| `Text.IntToStringInjective` | bot.js:702 | distinct caller ids have distinct `toString()` texts |
| `Text.Split` | bot.js:751 | `split` with a one-character separator gives at least one piece, and no piece holds the separator |
| `Text.Field` | bot.js:751 | `split(sep)[k]` is defined exactly when there are more than k pieces |
| `Text.JoinSplit` | bot.js:751 | joining the pieces of a split gives back the string |
| `Text.SplitJoin` | bot.js:751 | splitting a join of separator-free pieces gives back the pieces |
| `Callbacks.ServiceOf` | bot.js:335-344 | the service index read from field 2 selects a service exactly when it is a number in 0..4, and the result is then in the services table |
| `Callbacks.ContactRoundTrip` | bot.js:700-707 | for every id, `admin_contact_${id}` (built at line 92) matches the handler's pattern, and field 2 parses back to the id |
| `Callbacks.StatusRoundTrip` | bot.js:744-751 | for every id and both kinds, `admin_status_<kind>_${id}` (lines 95-96) matches its pattern, and field 3 parses back to the id |
| `Callbacks.ContactIdOfMatching` | bot.js:700-707 | any data the contact pattern accepts decodes to the value of its digits |
| `Callbacks.StatusIdOfMatching` | bot.js:777-784 | any data a status pattern accepts decodes to the value of its digits |
| `Callbacks.StatusPatternsDisjoint` | bot.js:744-777 | no data matches both status patterns, so each press reaches a single handler |
| `Callbacks.ServiceRoundTrip` | bot.js:334-344 | `req_service_N` selects `services[N]` for each of the five buttons |
| `Requests.StatusOf` | bot.js:793 | the status buttons set 'в работе' or 'выполнена', never 'новая' |
| `Requests.DisplayName` | bot.js:47 | the stored user name is never empty; it is the username when there is a non-empty one, else the non-empty first name |
| `Requests.AdminIsUnique` | bot.js:700-705 | at most one caller id passes the admin check, and it is the number ADMIN_ID spells; without ADMIN_ID nobody passes |
| `Requests.FindFirst` | bot.js:753 | `find` returns the first record with the id, or nothing when no record has it |
| `Requests.Lookup` | bot.js:751-753 | `find` with an id that is `NaN` finds nothing |
| `Requests.ApplyStatus` | bot.js:744-774 | non-admin: store unchanged, denied. Id not found: store unchanged, no customer notice. Otherwise only the status of the first record with the id changes, and the notice goes to that record's customer with its id and new status |
| `Requests.LookupIgnoresStatus` | bot.js:753-760 | rewriting a status does not move what `find` finds |
| `Requests.StatusChangeIdempotent` | bot.js:786-794 | pressing the same status button twice gives the same store and answer as pressing it once |
| `Requests.ContactLookup` | bot.js:700-716 | non-admin: denied. An admin gets "not found" exactly when no record has the id, and otherwise the first record with it |
| `Requests.ContactButtonFindsRequest` | bot.js:707-709 | the contact button of the first record with an id shows that record |
| `Requests.StatusButtonChangesRequest` | bot.js:751-761 | a status button built for the first record with its id changes exactly that record |
| `Requests.FreshRequestReachedByButtons` | bot.js:95-96 | for a newly created request with an unused id, its notification's status buttons change only that request's status |
| `Requests.DuplicateIdIsShadowed` | bot.js:45 | when a new request's id is already taken, lookups by that id find an earlier record |
| `Requests.UserRequests` | bot.js:676 | `/myrequests` holds exactly the records of the caller, and is no longer than the store |
| `Requests.UserRequestsAppend` | bot.js:676 | the filter keeps store order: it distributes over concatenation |
| `Requests.NewRequestListedLast` | bot.js:52 | a customer's new request shows up last in that customer's listing |
| `Requests.StatusChangeKeepsListings` | bot.js:760 | a status change keeps every listing's length, and leaves other customers' listings equal |
| `Requests.MyRequests` | bot.js:674-681 | "no requests" exactly when the caller has none, else the caller's records in store order |
| `Requests.StatusEmoji` | bot.js:686 | each of the three statuses has its marker, and '❓' marks exactly the other statuses |
| `Store.RequestStore.constructor` | bot.js:21-32 | the store starts as the loaded list |
| `Store.RequestStore.Create` | bot.js:42-55 | exactly one record is appended, with status 'новая', the caller's id and time, the name chosen as in line 47: the username, else the first name, else 'Не указано' (`DisplayName`), and the draft as data; earlier records are unchanged |
| `Store.RequestStore.ChangeStatus` | bot.js:744-807 | the store and answer become those of `ApplyStatus`; the store is unchanged unless the change happened |
| `Store.RequestStore.AdminRequests` | bot.js:810-827 | non-admin: denied. Empty store: "no requests". Otherwise a permutation of the store, newest first; the store is not written |
| `Store.SortNewestFirst` | bot.js:827 | the array ends ordered by creation time, non-increasing, and is a permutation of what it held |
| `Wizard.Step` | bot.js:114-300 | every step handler keeps the cursor or moves it on by one; the text handlers act only on a message with non-empty text (`ctx.message && ctx.message.text`) |
| `Wizard.ServiceShortcut` | bot.js:334-348 | the shortcut jumps to the area handler from any step and sets the service decoded from the press; the other fields of the current draft stay. A missing draft starts empty, which models the `{}` fallback of line 343; inside the scene the draft is always present |
| `Wizard.Run` | bot.js:114-300 | over any run of updates that reach the step handlers, the cursor never goes back, and moves at most once per update |
| `Wizard.ServiceStepAlwaysAdvances` | bot.js:143-160 | the service handler moves on whatever arrives; only a press sets the service |
| `Wizard.ShortcutMatchesServiceStep` | bot.js:334-348 | the shortcut leaves the same draft and the same cursor as a press reaching the service handler |
| `Wizard.ServiceButtonsSelectService` | bot.js:123-131 | each of the five service buttons puts its own service in the draft |
| `Wizard.AreaStepAlwaysAdvances` | bot.js:162-175 | the area handler moves on in every case, and writes the area only for text that parses to a positive number, nothing else |
| `Wizard.AddressStepAlwaysAdvances` | bot.js:177-205 | the address handler moves on in every case, and writes the trimmed address only if it is longer than 5, nothing else |
| `Wizard.DateChoiceAlwaysAdvances` | bot.js:207-240 | the date-choice handler always moves on to the typed-date handler, and changes only the date |
| `Wizard.DateButtonRecordsChoice` | bot.js:209-232 | what each of the five date buttons writes; an unknown choice leaves the date as it was |
| `Wizard.FixedDateReplacedByNextMessage` | bot.js:233-248 | after a fixed date choice, the next text message longer than 3 replaces that date, and the wizard moves to the contacts handler |
| `Wizard.ManualDateStepGuard` | bot.js:242-252 | the typed-date handler stores the trimmed text and moves on only if it is longer than 3; otherwise cursor and draft stay |
| `Wizard.ContactsStepGuard` | bot.js:254-264 | the contacts handler stores the trimmed text and moves on only if it is longer than 5; otherwise cursor and draft stay |
| `Wizard.CommentStepKeepsCursor` | bot.js:266-270 | the comment handler never moves the cursor; the skip word after lower-casing leaves the comment as it was, other text is stored trimmed |
| `Wizard.Session.constructor` | bot.js:623 | a new session has no scene and no draft |
| `Wizard.Session.Enter` | bot.js:667-671 | entering runs the first handler at once: cursor 1, draft `{}` |
| `Wizard.Session.Handle` | bot.js:114-300 | an update that no scene action takes goes to the handler at the cursor |
| `Wizard.Session.PressService` | bot.js:334-348 | the service button action applies `ServiceShortcut` to the session |
| `Wizard.Session.Leave` | bot.js:316 | leaving drops the cursor and keeps `ctx.session.request` |
| `Wizard.Session.Confirm` | bot.js:303-317 | confirming appends exactly one request, holding the draft as it stands and the caller's display name, to the store, then leaves the scene with the cursor dropped |
| `Wizard.Session.Cancel` | bot.js:320-324 | cancelling leaves the scene and stores nothing |
| `Wizard.Session.Edit` | bot.js:327-331 | editing leaves the scene and stores nothing; there is no partial edit |

## Left out

- Telegram transport is not modelled: `ctx.reply`, `answerCbQuery`, `editMessageText`, `telegram.sendMessage`. The customer notice is returned as a value (`Requests.Notice`), and the admin notification template and its delivery (bot.js:58-111) are not modelled.
- Reading and writing `requests.json` and JSON encoding are not modelled; the store is the in-memory list. That an unreadable file loads as an empty list is I/O behaviour; the constructor takes the loaded list.
- `Date.now()`, `toISOString`, `new Date(...)` and `toLocaleDateString` are not modelled. Ids and creation times are parameters, and the formatted dates of "today" and "tomorrow" are fields of `Wizard.Platform`.
- `trim`, `length` (which counts UTF-16 units), `toLowerCase`, `isNaN` and `parseFloat` are not defined here; they are fields of `Wizard.Platform`, with `isNaN` and `parseFloat` merged into the single field `parseArea`. The wizard lemmas hold for any behaviour of these fields that a `Platform` can express.
- Wizard.AreaAccepted, Requests.Draft.area: the area is a Dafny `real`, so the value `Infinity` is not modelled. `parseFloat` returns it for texts such as "Infinity" or "1e999", and the area handler accepts and stores it, because it is not `NaN` and it is greater than 0.
- Text.NatToDecimal, Text.IntToString: ids and caller ids are JavaScript numbers (doubles), here unbounded integers. The printing of ids and caller ids, and the round trips `Callbacks.ContactRoundTrip` and `Callbacks.StatusRoundTrip`, agree with JavaScript only for safe integers (below 2^53); the exponent notation JavaScript prints from 1e21 upwards, which the `\d+$` patterns reject, is not modelled.
- Text.ParseInt: does not skip leading whitespace, does not read a `0x` prefix as hexadecimal, and does not model the precision loss of numbers above 2^53. No button the bot builds has any of these.
- SortNewestFirst: its contract does not state stability, that is, that records with equal creation times keep their store order, as JavaScript's `sort` does. The insertion sort only moves a record past strictly older ones.
- The price calculator wizard (bot.js:481-617) is not modelled, because its estimate is floating-point arithmetic (`parseFloat`, `* 0.9`, `* 1.2`, `Math.round`). Its price table is not modelled either.
- Which handler an update reaches is decided by Telegraf: scene actions before step handlers, stage before global handlers, `/^calc_/` versus `calc_cancel`. This is framework behaviour; the model makes the chosen handler explicit, as a `Wizard.Session` method or a `Wizard.Input`.
- Concurrent admin presses can race between reading and writing the file. Concurrency is not modelled.
- Static content, menus, keyword text replies (bot.js:845-859, they depend on Cyrillic `toLowerCase`), express, dotenv, `launch` and signal handling are not modelled, and neither are the stray statements at bot.js:1050-1065, which sit outside any handler.
- Starting the wizard from a menu button (bot.js:929, 1162) is the same `ctx.scene.enter` as the `/request` command, and is covered by `Session.Enter`.
