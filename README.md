# A verified model of the payments bot's order lookup, cache and Airtable client

This project models the sequential core of the Telegram bot that operators use
to record payments into Airtable. It covers:

- the payment form and its router (`bot/handlers.py`): the start handlers, the
  steps attachment → amount → note → order → order selection, the cancel and
  skip escapes, the resolution of the typed order reference against the known
  orders, the inline-button callback, and the save step that builds the
  Airtable record and the confirmation;
- the on-disk orders cache (`bot/cache_manager.py`): freshness, loading,
  fetch-and-store with a stale fallback, and `get_orders`;
- the Airtable client (`bot/airtable_client.py`): the paginated listing of
  order names with its status filter, and `create_record` with its three
  attempts and its error messages.

The Dafny modules follow the program's files:

| module | file | contents |
|---|---|---|
| `Wrappers` | `wrappers.dfy` | `Option` and `Result` |
| `Text` | `text.dfy` | Python's `isspace`, `strip`, `lower`, `split()`, `replace` and slicing on strings |
| `States` | `states.dfy` | the `PaymentForm` steps |
| `Airtable` | `airtable_client.dfy` | `get_order_names` and `create_record` |
| `Cache` | `cache_manager.dfy` | the `OrdersCache` class with the cache file as its state |
| `OrderResolution` | `order_resolution.dfy` | tokenising, fuzzy matching, intersection, options, callback data and buttons of `process_order` |
| `Handlers` | `handlers.dfy` | the router and the `PaymentDialog` class, one operator's form state and data |

The outside world is modelled as inputs:

- The clock is a `real` argument.
- What `get_order_names` returned or raised is a `Result`.
- Each HTTP response of the listing is one element of a sequence.
- Each POST attempt's outcome is one element of a sequence.
- The fuzzy scorer `fuzz.partial_ratio` is a function returning a score in 0..100.
- Python's `float` is a function returning `None` where it raises.
- Whether the order menu could be sent is a flag.
- The file URL `bot.get_file` resolves to is an `Option`, `None` where it raises.

The cache file is the `file` field of an `OrdersCache`. The form's state and
data are the `state` and `data` fields of a `PaymentDialog`.

Four points where the code behaves otherwise than a first reading suggests,
and which the model follows:

- **The cache document can make `get_orders` raise.** `_load_from_cache`
  calls `data.get` on whatever `json.load` returned. A cache file holding
  valid JSON that is not an object (a list, say) raises `AttributeError`. A
  file that is not valid UTF-8 (a write cut off inside a Cyrillic character,
  say, since the file is written with `ensure_ascii=False`) raises
  `UnicodeDecodeError`, and a file the process may not read, or a directory
  in its place, raises an `OSError`. The loader catches none of these.
  `Cache.Load` returns `Err` for each of them. The error
  reaches `process_order`'s outer `except`, which reports "❌ Не удалось найти
  заказы" and saves the raw input. `Handlers.PaymentDialog.LookUpOrder` models
  that path.
- **Matched orders come in set order.** `found_orders` is built by iterating
  a Python `set` of indices, and that order is not the candidate list's
  order. The model promises each matching order exactly once, in an order it
  does not fix.
- **Freshness uses the file's mtime.** `is_cache_fresh` compares the clock
  with the file's modification time, not with the stored `updated_at`.
- **A caption can be a start command.** aiogram's `CommandStart` reads the
  message's text or, when there is none, its caption, and compares the first
  whitespace-separated word with "/start". `cmd_start` is registered first,
  so a photo captioned "/start" is welcomed and does not start the form, and
  "/start" followed by a tab or a newline is a start command too.

## Model

| member | source | states |
|---|---|---|
| Text.Strip | bot/handlers.py:148 | `str.strip`: the result is no longer than the input, neither starts nor ends with whitespace, and is empty exactly when the input is all whitespace |
| Text.StripIdempotent | bot/handlers.py:148 | stripping an already stripped text changes nothing |
| Text.StripCutsOnlyWhitespace | bot/handlers.py:148 | the stripped text is a contiguous piece of the input, with only whitespace cut off before and after it |
| Text.Lower | bot/handlers.py:149 | `str.lower` lowers each character in its place (`LowerChar`), keeps the length and which characters are whitespace, and every character of its result is already lower case |
| Text.LowerIdempotent | bot/handlers.py:149 | lower-casing a lower-cased text changes nothing |
| Text.ReplaceChar | bot/handlers.py:111 | `replace(",", ".")` keeps the length, turns every comma into a point, leaves no comma behind and keeps every other character |
| Text.Split | bot/handlers.py:164 | `split()` yields tokens that are non-empty and contain no whitespace |
| Text.SplitWord | bot/handlers.py:164 | a non-empty text without whitespace splits into itself alone |
| Text.SplitAtSpace | bot/handlers.py:164 | splitting at a whitespace character gives the tokens of the left part followed by those of the right part, so the tokens are exactly the maximal runs of non-whitespace |
| Text.SplitKeepsNonSpace | bot/handlers.py:164 | the tokens of `split()`, glued together, are the input with its whitespace removed: no character is lost or invented |
| Text.SplitEmptyIffBlank | bot/handlers.py:164 | `split()` gives no token exactly when the text is all whitespace |
| Text.Prefix | bot/handlers.py:189 | `opt[:50]` is a prefix of `opt` whose length is the smaller of 50 and `len(opt)` |
| States.NextAdvancesOneStep | bot/states.py:4-9 | each forward transition of the form moves exactly one step along attachment, amount, note, order, order selection |
| OrderResolution.MatchTokens | bot/handlers.py:164-176 | one index set per token; index `i` is in token `k`'s set exactly when candidate `i` scores at least 80 against that token |
| OrderResolution.Intersection | bot/handlers.py:178-182 | an index is in the intersection exactly when it is in every token's set, including the one-set case |
| OrderResolution.InSomeOrder | bot/handlers.py:184 | `found_orders` names each matched index exactly once, in some order, and each entry is the original (not lower-cased) candidate at its index |
| OrderResolution.Options | bot/handlers.py:148-185 | the options end with the stripped raw input; before it come, each once, exactly the candidates whose lower-cased form scores at least 80 against every token; with no token (blank input) the options are exactly `[raw]` |
| OrderResolution.BlankInputHasNoTokens | bot/handlers.py:164-180 | whitespace-only input lower-cases to whitespace and has no tokens, so the matched set is empty |
| OrderResolution.CallbackData | bot/handlers.py:189 | the callback data starts with "order:" and is at most 56 characters long |
| OrderResolution.CallbackRoundTrip | bot/handlers.py:189-213 | removing the "order:" prefix from an option's callback data gives back the option's first 50 characters, which is the whole option when it is at most 50 long |
| OrderResolution.Buttons | bot/handlers.py:187-190 | one button per option, in order, labelled with the option, and its data decodes to the option's first 50 characters |
| Handlers.StartCommandHasSlash | bot/handlers.py:45 | a text or caption whose first whitespace-separated word is "/start" (or "/start@") contains '/', so no keyboard label is taken for the command |
| Handlers.EscapesWorkEverywhere | bot/handlers.py:45-93 | in every state "Отмена" reaches `handle_cancel` ahead of the step handlers, and "Добавить оплату" and an attachment whose caption is not a start command start the form |
| Handlers.IdleRoutes | bot/handlers.py:45-101 | with no active form only the start, cancel and form-starting handlers can run |
| Handlers.StepHandlersNeedTheirStep | bot/handlers.py:95-210 | each step handler runs only in its own step: "Пропустить" in the attachment step, a text in the amount, note or order step, "order:" callback data in the selection step |
| Handlers.NoteText | bot/handlers.py:133 | the note stored for a text is the stripped text; the branch for an empty text gives the same |
| Handlers.BuildFields | bot/handlers.py:221-242 | "Отправитель" is always present, as `first_name` plus " " and `last_name` when that is set; "Сумма", "Примечание" and "Заказ" are present exactly when the stored value is truthy, and hold that value; "Вложение" holds the file URL exactly when a file id is stored and its URL was resolved |
| Handlers.BuildSummary | bot/handlers.py:246-255 | the confirmation shows order, amount and note exactly when truthy, the attachment mark whenever a file id is stored, and the sender |
| Handlers.PaymentDialog.Start | bot/handlers.py:41-53 | `/start` welcomes an authorized user and refuses anyone else |
| Handlers.PaymentDialog.StartByButton | bot/handlers.py:55-61 | "Добавить оплату" moves an authorized user to the attachment step, keeping the stored data; for anyone else nothing changes |
| Handlers.PaymentDialog.StartByAttachment | bot/handlers.py:63-84 | an attachment stores the file id (the largest photo, else the document, video or audio) and moves to the amount step, from any state; an unauthorized user changes nothing |
| Handlers.PaymentDialog.Cancel | bot/handlers.py:86-93 | with no active state it answers "Нет активного диалога" and changes nothing; otherwise it clears the state and all data |
| Handlers.PaymentDialog.SkipAttachment | bot/handlers.py:95-99 | skipping the attachment stores None and advances exactly one step |
| Handlers.PaymentDialog.ProcessAmount | bot/handlers.py:101-121 | skip stores None and advances one step; a positive parsed amount is stored and advances one step; a text that does not parse or is not positive leaves state and data unchanged |
| Handlers.PaymentDialog.ProcessNote | bot/handlers.py:123-136 | skip stores "" and any other text stores the stripped text; both advance exactly one step |
| Handlers.PaymentDialog.SaveAndFinish | bot/handlers.py:218-271 | the record sent is the field map of the stored data; the reply is the confirmation when `create_record` returned and the error message when it raised; the form is cleared either way |
| Handlers.PaymentDialog.LookUpOrder | bot/handlers.py:157-207 | a failed lookup is reported and the raw input saved as the order; no candidates, or a menu that could not be sent, saves the raw input; otherwise exactly the `Options` are offered as buttons, stored, and the form waits at the selection step with the cache updated as `get_orders` does |
| Handlers.PaymentDialog.ProcessOrder | bot/handlers.py:139-207 | skip saves an empty order; "Отмена" cancels; a shortcut ("цех", "дом", "не знаю" after stripping and lower-casing) saves the stripped input without touching the cache; any other input is resolved as by `LookUpOrder` |
| Handlers.PaymentDialog.SelectOrder | bot/handlers.py:210-215 | the callback data after "order:" is stored as the order and the form is saved and cleared |
| Handlers.PaymentDialog.EntryStep | bot/handlers.py:45-93 | `cmd_start` only answers; "Добавить оплату" moves an authorized user to the attachment step with the data kept; an attachment stores its file id and moves to the amount step; "Отмена" answers that there is no dialog or clears state and data; an update no handler accepts changes nothing; none sends a record |
| Handlers.PaymentDialog.FormStep | bot/handlers.py:95-136 | skipping the attachment stores None and moves to the amount step; in the amount step, skip stores None, a positive parsed amount is stored, and both move to the note step, while a text that does not parse or is not positive changes nothing; in the note step, skip stores "" and other text is stored stripped, and both move to the order step; none sends a record |
| Handlers.PaymentDialog.OrderStep | bot/handlers.py:139-215 | the order step saves an empty order on skip, the stripped input for a shortcut, and otherwise resolves the input against `get_orders` as `LookUpOrder` does; the selection step saves the text after "order:" as the order, and leaves the cache alone |
| Handlers.PaymentDialog.Receive | bot/handlers.py:45-215 | every update ends as the handler `Route` picks leaves it: that handler's reply, new step, stored data and record, and no record and no cache change outside the order steps; an unauthorized user never gets a form or a record; "Отмена" always ends the dialog; every update keeps the step, ends the form, (re)starts it or advances one step; a record is sent only from the order and selection steps |
| Handlers.PaymentDialog.HandledMovesAlongTheForm | bot/handlers.py:45-215 | whatever handler runs, the form keeps its step, ends, is (re)started or moves one step forward; a record comes only from the order and selection steps, and never for an unauthorized user |
| Handlers.PaymentDialog.OrderTakenEndsOrChooses | bot/handlers.py:139-207 | the order step either ends the form or waits at the selection step without sending a record |
| Cache.OrdersCache.IsCacheFresh | bot/cache_manager.py:11-21 | fresh exactly when the file exists and `now - mtime < 86400` |
| Cache.OrdersCache.LoadFromCache | bot/cache_manager.py:23-29 | the stored list; `[]` for a missing file, UTF-8 text that is not JSON, or an object without "orders"; the raised error for a file that cannot be read as UTF-8 text (not valid UTF-8, no permission, a directory); an error for JSON that is not an object |
| Cache.OrdersCache.FetchAndCacheOrders | bot/cache_manager.py:31-44 | a successful fetch overwrites the file with `{updated_at, orders}` and returns the list; a failed one loads the existing file, or gives `[]` without one |
| Cache.OrdersCache.GetOrdersNow | bot/cache_manager.py:46-50 | a fresh cache is loaded; otherwise the orders are fetched and cached |
| Cache.FreshnessWindow | bot/cache_manager.py:11-21 | a missing file is never fresh; a file written at `t` is fresh strictly before `t + 86400` and stale from then on |
| Cache.FreshCacheIsServedWithoutFetch | bot/cache_manager.py:46-48 | with a fresh cache the fetch outcome plays no part and the file is not rewritten |
| Cache.StaleCacheIsRefreshed | bot/cache_manager.py:31-40 | with a stale or missing cache and a successful fetch, the fetched list is returned unchanged and written with the current time |
| Cache.FailedFetchFallsBack | bot/cache_manager.py:41-44 | when the fetch fails the file is kept; an existing file, however old, is loaded, and without one the result is `[]` |
| Cache.LoadFailsOnlyOnUncaughtErrors | bot/cache_manager.py:23-29 | loading gives `[]` for a missing file, a file that is not JSON or an object without "orders"; it fails exactly when the read raises something other than FileNotFoundError (with that error) or the JSON is not an object, the two exceptions the loader does not catch |
| Cache.WrittenListIsReadBack | bot/cache_manager.py:27-39 | what a successful fetch writes is what a later load reads, and a later `get_orders` within 24 hours returns it without fetching |
| Airtable.GetOrderNames | bot/airtable_client.py:49-83 | an unset table id raises before any request; otherwise the first request has no offset, each later one carries the previous page's offset and is made only because that offset was truthy, the loop stops at the first page without one or at the first failure, and the result is the names of all pages read |
| Airtable.NamesOfAppend | bot/airtable_client.py:68-76 | the names of two record runs, one after the other, are the names of each in turn |
| Airtable.NamesComeFromContributingRecords | bot/airtable_client.py:68-76 | every listed name is the stripped "Name" of a record whose status, stripped, is not "Расчет", "Отменен" or "Отложен" and whose "Name" is a non-empty string |
| Airtable.ContributingRecordsAreListed | bot/airtable_client.py:68-76 | every such record does contribute its stripped name |
| Airtable.ListingIsNamesInOrder | bot/airtable_client.py:57-80 | a successful listing is the names of the records read, in record order within a page and then page order; it fails exactly when a response read before the last page raised |
| Airtable.StatusMessage | bot/airtable_client.py:39-44 | a status error's message is the body's `error.message` when the body has one; `str(e)` when the body is an object missing it; the raw text, or `str(e)` when that is empty, when reading the body raised |
| Airtable.Decisive | bot/airtable_client.py:28-38 | the loop ends on one of the first three attempts |
| Airtable.CreateRecord | bot/airtable_client.py:24-46 | every attempt posts `{"records": [{"fields": fields}]}`; at most three attempts; only network errors and timeouts are retried; a status error or an unexpected error ends the loop at once; success returns the response; three network errors or timeouts give up with the message saying three attempts were made |

## Left out

- `bot/main.py` is not part of this model: logging, the webhook and polling
  lifecycle, and reading the environment are runtime plumbing.
- The aiogram transport is not modelled. Sending a message, the reply
  keyboards and `callback.answer()` are left out. Replies are values, and the
  only keyboard kept is the order choice.
- Telegram limits callback data to 64 bytes, and the model does not check
  that limit. Whether the order menu could be sent is an input flag.
- The Telegram file URL is an input, `None` where `bot.get_file` raises. The
  URL text itself (the bot token and the file path) is not modelled.
- The confirmation message is modelled as the set of lines it shows. The HTML
  text, line joining and number formatting are left out.
- If `send_message` raises after `create_record` succeeded, the code sends
  the error message instead. The model does not capture this.
- `fuzz.partial_ratio` is an arbitrary function into 0..100. Its algorithm is
  not modelled.
- Python's `float` is an arbitrary partial function. NaN and infinities are
  not modelled: a parsed amount is a real number.
- Text.Lower: covers ASCII, Latin-1 and Cyrillic capitals (with Ё and the
  other Cyrillic capitals U+0400–U+040F), not all of Unicode's case mappings.
- Handlers.IsStartCommand: a first word "/start@name" naming the bot's own
  username is a start command for aiogram. The bot's username comes from a
  call to Telegram, so the model never treats a non-empty mention as a start
  command. The empty mention, "/start@", is accepted, as aiogram does.
- The "Отмена" branches inside `process_amount`, `process_note` and
  `process_order` are modelled. `handle_cancel` is registered first, so the
  router never reaches them.
- Airtable.GetOrderNames: requires that the server eventually answers with a
  last page or an error (`Ends`), because a server that returns an offset
  forever makes the loop run forever.
- Airtable.CreateRecord: the twenty-second timeout and the one-second sleep
  between attempts are not modelled, since time is not part of the model.
- httpx and the HTTP status codes are left out. Each response or attempt is an
  abstract outcome.
- In the cache document, "orders" is modelled as absent or a list of strings.
  Other JSON values under "orders" are not modelled.
- Cache.OrdersCache.FetchAndCacheOrders: failures to create the directory or
  write the file are not modelled. The file is stamped with the time of the
  call, not the later time the write finishes.
- Concurrency is not modelled. The model has one operator's dialog at a time,
  not the per-chat map of FSM storage. Races on the shared cache file are
  left out.
- OrderResolution.InSomeOrder: does not fix the order of the matched orders,
  because Python's set iteration order is not determined by the set's
  contents.
