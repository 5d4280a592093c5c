# Pie-shop accounting bot, modelled in Dafny

The system is a Telegram bot that keeps a small bakery's daily books. It
has several parts:

- **Daily entries.** Each chat records how many pies of each configured type
  were made, how many were left at the end of the day, how many were written
  off, and the day's expenses.
- **Prices.** Each chat keeps a price per type.
- **Statistics.** The bot builds reports for today, the last week, this month
  or a custom date range: revenue, write-off loss, expenses and profit.
- **Access.** Only the chats on an allow-list may use the bot.
- **Conversation.** It is driven by one pending action per chat. A menu
  button or an inline-keyboard selector sets the action; the next text
  message is read as its input.

This project models the bot's core:

- the per-chat conversation state machine: the message handler, the
  callback handler and `/start`;
- the store layer, which maps each database reply to what the bot sees,
  and the statistics aggregation;
- the inline keyboards;
- the report text;
- the shared helpers: number formatting, the allow-list check and the date
  validator.

What the JavaScript built-ins do is modelled too: `parseInt`, `parseFloat`,
`String(n)`, `trim`, `split`, `replace` and `startsWith`.

The modules follow the program's files:

| module | models |
|---|---|
| `Utils` | `utils.js` |
| `Db` | `db.js`, with the database replies as parameters |
| `Keyboards` | `keyboards.js` |
| `Report` | `generateAndSendReport` in `bot.js` |
| `Bot` | the handlers in `bot.js`, as the class `Bot.Bot` whose field `userState` plays the module-level `userState` object |
| `BotProperties` | the promises of the conversation, stated over `Bot`'s step functions |
| `JsString`, `JsNumber` | the built-ins listed above |
| `Seqs`, `Wrappers`, `Config`, `Replies` | generic sequence functions, `Option`, the configured pie types and currency, and the outbound actions |

How the model is built:

- Each handler method of `Bot.Bot` is proved equal to a pure step function:
  `MessageStep`, `PendingStep`, `MenuStep`, `CallbackStep`, and below them
  the per-case functions (`PieQuantityInput`, `RemainingAccepted`,
  `PeriodPressed`, `WriteOffPressed` and the rest). The step function gives
  the chat's new pending action, the writes the handler asks of the store
  (`StoreCall`), and the messages it sends (`Reply`), in order. The "## Model"
  row of each `Bot.Bot` method, and the source lines it cites, also stand for
  the step function it is proved equal to.
- The properties in `BotProperties` are proved about those step functions.
- The database is not modelled. Each handler receives the replies the store
  would give (`StoreReplies`).
- The clock is not modelled. It is passed in as a `Clock`.

Where the code and its own test disagree, the model follows the code:

- After a batch is added, `bot.js:94` passes the whole object returned by
  `addManufacturedToDb` (`db.js:40-43`) to `formatNumber`.
- `formatNumber` returns "0" for anything that is not a number
  (`utils.js:10-12`), so the reply always says "Всего сегодня: 0."
- `__tests__/bot.test.js:79-80` expects the running total there.
- The model renders "0". `BotProperties.AddedBatchIgnoresTotal` proves the
  confirmation is the same whatever total the store reads back.

## Model

| member | source | states |
|---|---|---|
| `JsString.Trim` | utils.js:22 | `trim` leaves `s` less only whitespace at each end: the result sits inside `s` with whitespace before and after it, and a non-empty result neither starts nor ends with whitespace |
| `JsString.TrimUnpadded` | utils.js:22 | an entry with no surrounding whitespace is its own trim |
| `JsString.Split` | utils.js:22 | `split(',')` always yields at least one piece, and no piece contains the separator |
| `JsString.JoinSplit` | utils.js:22 | joining the pieces of a split with the separator gives back the string |
| `JsString.SplitJoin` | utils.js:22 | splitting a join of separator-free pieces gives back exactly those pieces |
| `JsString.ReplaceFirst` | bot.js:137 | `replace(',', '.')` keeps the length, and leaves a text with no comma unchanged |
| `JsString.ReplaceFirstAt` | bot.js:137 | only the first comma is replaced; the rest of the text is untouched |
| `JsString.StartsWithPrefix` | bot.js:219-220 | a selector built as prefix + text starts with the prefix, and `substring(prefix.length)` gives back the text |
| `JsNumber.Decimal` | keyboards.js:48-50 | `String(n)` for a natural number is a non-empty digit string with a leading zero only for 0 |
| `JsNumber.DecimalValue` | keyboards.js:48-50 | reading back the digits written for `n` gives `n` |
| `JsNumber.CanonicalDecimal` | keyboards.js:48-50 | writing the value of a canonical digit string gives back the string |
| `JsNumber.ParseInt` | bot.js:90 | `parseInt` yields a negative number only when the text after leading whitespace starts with '-' |
| `JsNumber.ParseIntRoundTrip` | bot.js:90 | `parseInt(String(i), 10) == i` for every integer |
| `JsNumber.ParseIntOfPrefix` | bot.js:90 | after leading whitespace, `parseInt` reads the longest run of digits and ignores what follows ("10abc" is 10, "3.7" is 3) |
| `JsNumber.ParseIntNoDigits` | bot.js:90-91 | text whose first significant character is neither a digit nor a sign followed by a digit parses to NaN, which the handlers refuse |
| `JsNumber.ParseFloat` | bot.js:137 | `parseFloat` never yields a non-number, and it yields a negative value or -Infinity only when the trimmed text starts with '-' |
| `JsNumber.ParseFloatOfInteger` | bot.js:137 | `parseFloat(String(i))` is `i` for every integer |
| `JsNumber.ParseFloatOfDecimal` | bot.js:137 | `parseFloat("whole.fraction")` is the exact value of those digits, so "12.5", which the comma replacement also gives for "12,5", reads as 12.5 |
| `Utils.Grouped` | utils.js:13 | the ru-RU grouping is digits and no-break spaces, starting with a digit, with a separator exactly when the number is 1000 or more |
| `Utils.FormatNumber` | utils.js:9-14 | NaN and non-numbers give "0"; an integral number gives its grouped decimal digits with a leading '-' when negative |
| `Utils.FormatSmallInteger` | utils.js:13 | numbers below 1000 are their plain digits ("500", "0") |
| `Utils.FormatThousands` | utils.js:13 | from 1000 up the text has a no-break space and no ordinary space |
| `Utils.UngroupGrouped` | utils.js:13 | dropping the no-break spaces from the grouped digits leaves the plain decimal digits |
| `Utils.FormatIntegerRoundTrip` | utils.js:13 | with the group separators removed, the formatted integer reads back through `parseInt` to the integer |
| `Utils.CheckAccess` | utils.js:17-28 | an allow-list that is unset or is the placeholder grants no one |
| `Utils.AccessIffListed` | utils.js:18-23 | for an allow-list of comma-separated entries, access is granted exactly when the list is configured and some trimmed entry equals `String(chatId)` |
| `Utils.NumericAndTextAgree` | utils.js:23 | a numeric chat id and its decimal text are granted or refused alike |
| `Utils.DaysInMonth` | utils.js:40 | every month has 28 to 31 days |
| `Utils.RollDays` | utils.js:40 | a day number outside its month carries into the neighbouring months and ends at a real calendar date; a day inside the month is kept as it is |
| `Utils.NewDate` | utils.js:40 | `new Date(y, m, d)` always reports a real calendar date |
| `Utils.DateParts` | utils.js:39 | a string of the shape DDDD-DD-DD splits at '-' into exactly its year, month and day fields |
| `Utils.IsValidDate` | utils.js:35-43 | only strings matching `^\d{4}-\d{2}-\d{2}$` are valid |
| `Utils.DateValidIff` | utils.js:35-43 | a well-shaped string is valid exactly when its month is 1..12, its day exists in that month of that year, and its year is at least 100, since years 0..99 are read as 19xx |
| `Utils.SummerDateExample` | __tests__/utils.test.js:35 | "2024-08-09" is valid |
| `Utils.NewYearDateExample` | __tests__/utils.test.js:36 | "2025-01-01" is valid |
| `Utils.TwoDigitYearExample` | utils.js:40-42 | "0050-01-01" is refused because the year comes back as 1950 |
| `Utils.ShapeExamples` | __tests__/utils.test.js:37-39 | "2024-8-9", "09-08-2024" and "some text" are refused |
| `Db.IndexBy` | db.js:11 | the `reduce` into an object has exactly one key per distinct row key |
| `Db.IndexBySnoc` | db.js:11 | each further row sets its own key |
| `Db.IndexByLastWins` | db.js:11 | a key's value comes from the last row that has that key |
| `Db.ZeroPrices` | db.js:9 | the fallback prices: every configured type, and only those, at 0 |
| `Db.PriceTable` | db.js:5-14 | every configured type has a price; an error gives all types at 0; otherwise the keys are the configured types plus the stored ones |
| `Db.GetPricesFromDb` | db.js:5-14 | the reduce followed by the in-place fill of missing types yields `PriceTable` |
| `Db.PriceDefaults` | db.js:11-12 | a configured type with no row, or with a null price, is priced 0; otherwise its last row's price is used |
| `Db.TodaysLogs` | db.js:56-70 | an error gives no entries; otherwise there is exactly one entry per type that has a row |
| `Db.TodaysLogDefaults` | db.js:62-69 | a type's entry comes from its last row; null counts read as 0, and a null remaining stays null |
| `Db.DailyLogEntry` | db.js:47-54 | the stored row is returned; an error or a missing row gives {manufactured 0, remaining null, written_off 0} |
| `Db.AddManufacturedResult` | db.js:22-44 | null exactly when the RPC fails; otherwise the total is the freshly read `manufactured`, and `remainingReset` is true exactly when the RPC's `remaining_reset` flag is true (`rpc.data` stands for that flag) |
| `Db.WriteOffResult` | db.js:87-102 | success exactly when there is no error, carrying the RPC's total; on failure the message is the "exceeds remaining" text exactly when the error mentions it, and the generic text otherwise |
| `Db.PieFor` | db.js:133-146 | a type's line takes its totals (0 when it has none) and its price (0 when it has none); revenue is sold × price when something sold and 0 otherwise; loss is written_off × price when something was written off and 0 otherwise; neither is negative when the price is not |
| `Db.PieLines` | db.js:132-146 | one line per configured type, in order, each being that type's `PieFor` |
| `Db.StatsForPeriod` | db.js:105-154 | null exactly when the aggregation fails, and a throw exactly when it has no error but null data; otherwise each configured type's entry is its `PieFor` line, revenue, loss and written-off total are the sums over those lines, expenses default to 0, the prices and the period pass through, and profit = revenue - expenses - loss |
| `Db.StatsOfLines` | db.js:123-152 | the statistics record carries the per-type map, prices, expenses and period given; revenue, loss and written-off total are the sums over the lines, and profit = revenue - expenses - loss |
| `Db.GetStatsForPeriod` | db.js:105-154 | the imperative version returns exactly `StatsForPeriod` |
| `Db.AccumulatePies` | db.js:132-150 | the loop leaves one entry per configured type, and the three running sums equal the sums of the lines' revenue, written-off count and loss |
| `Db.AccumulatedStep` | db.js:142-149 | one iteration extends the map and the three sums by the next type's line |
| `Db.TotalsAdd` | db.js:147-149 | the totals over the types `a + b` are the totals over `a` plus the totals over `b` |
| `Db.TotalsOfOneType` | db.js:147-149 | for a single type, the totals are that type's own revenue, written-off count and loss |
| `Db.UnconfiguredRowsIgnored` | db.js:132-134 | an aggregation row for a type that is not configured changes nothing in the statistics |
| `Db.SameLines` | db.js:132-146 | period totals that agree on the configured types give the same lines and the same per-type map |
| `Db.StatsOfSameLines` | db.js:123-152 | aggregations with the same expenses and the same lines give the same statistics |
| `Db.StatsNonNegative` | db.js:139-152 | when no price is negative, total revenue and loss are non-negative and profit is at most revenue minus expenses |
| `Db.ExamplePrices` | __tests__/db.test.js:36-39 | the sample price rows give 100 and 80 |
| `Db.ExampleTotals` | __tests__/db.test.js:44-49 | the sample aggregation gives 25/20/0 and 15/11/1 |
| `Db.ExampleLines` | __tests__/db.test.js:57-59 | the sample lines sum to revenue 2880 and loss 80 |
| `Db.StatsExample` | __tests__/db.test.js:54-63 | the sample period has revenue 2880, expenses 5000, loss 80, profit -2200, and 20 and 11 sold |
| `Keyboards.PieTypesKeyboard` | keyboards.js:20-27 | one row per configured type, in order, selecting `add_pie_<type>`, then the back row |
| `Keyboards.AddSelectors` | keyboards.js:23-24 | the add keyboard offers `add_pie_<t>` exactly for the configured types |
| `Keyboards.PriceText` | keyboards.js:33 | the label shows the formatted price exactly when the price is positive, and "(не задана)" otherwise |
| `Keyboards.SettingsKeyboard` | keyboards.js:30-38 | one `set_price_<type>` row per configured type, labelled with the type and its price text, then the back row |
| `Keyboards.SettingsSelectors` | keyboards.js:32-35 | the settings keyboard offers `set_price_<t>` exactly for the configured types |
| `Keyboards.RemainingText` | keyboards.js:48 | the label shows "не введено" exactly when no remaining count is stored |
| `Keyboards.RemainingTextShowsCount` | keyboards.js:48 | a stored remaining count, 0 included, is shown as `String` writes it, and that text reads back as the count |
| `Keyboards.RemainingKeyboard` | keyboards.js:41-61 | one row per configured type with a positive made count, in order, then the back row; with no such type, the placeholder row and then the back row |
| `Keyboards.RemainingSelectors` | keyboards.js:43-52 | the remaining keyboard offers `enter_remaining_<t>` exactly for the configured types made today |
| `Keyboards.WriteOffKeyboard` | keyboards.js:64-82 | one row per configured type with something left, in order, then the back row; with no such type, only the placeholder row |
| `Keyboards.WriteOffSelectors` | keyboards.js:66-74 | the write-off keyboard offers `write_off_<t>` exactly for the configured types with a positive remaining count |
| `Keyboards.CreateSettingsKeyboard` | keyboards.js:30-38 | the method built from the price reply is the settings keyboard of `PriceTable` |
| `Keyboards.CreateRemainingKeyboard` | keyboards.js:41-61 | the method built from the logs reply is the remaining keyboard of `TodaysLogs` |
| `Keyboards.CreateWriteOffKeyboard` | keyboards.js:64-82 | the method built from the logs reply is the write-off keyboard of `TodaysLogs` |
| `Report.PeriodTitle` | bot.js:27 | the single-day title appears exactly when start equals end |
| `Report.ReportHeader` | bot.js:28 | the scheduled header appears exactly for the scheduled report |
| `Report.PieStatFor` | bot.js:45 | a type's stored line is used, or else a zero line priced from the price table |
| `Report.PieBlock` | bot.js:46-52 | a type's block opens with its price and closes with its revenue, and has a write-off line, in fourth place, exactly when something was written off |
| `Report.RenderAppend` | bot.js:43-59 | appending the pieces with `+=` gives the concatenation of the two parts' texts |
| `Report.BlocksAppend` | bot.js:44-53 | the blocks of `a + b` are those of `a` followed by those of `b` |
| `Report.Summary` | bot.js:54-59 | the summary opens with total revenue and closes with profit, and has a loss line, in second place, exactly when the loss is positive |
| `Report.BlockInPlace` | bot.js:43-53 | the i-th type's block appears in the report right after the header and the blocks before it |
| `Report.AppendPieBlock` | bot.js:46-52 | one iteration of the loop appends exactly the text of the type's block |
| `Report.AppendSummary` | bot.js:54-59 | the closing lines append exactly the text of the summary |
| `Report.BuildReport` | bot.js:43-59 | the accumulated report text is the text of the header, every configured type's block in order, and the summary |
| `Report.GenerateAndSendReport` | bot.js:26-62 | the replies are the progress action followed by either the failure notice or the report of `StatsForPeriod` over the stored prices, or by nothing when that throws; it completes exactly when the aggregation data is not null |
| `Report.FailureOnlyNotice` | bot.js:37-41 | when the aggregation fails, only the progress action and the failure notice are sent |
| `Report.BlocksShowComputedLines` | bot.js:44-45 | when the aggregation succeeds, each configured type's block shows the line the statistics computed for it |
| `Report.NullDataOnlyProgress` | bot.js:36 | null aggregation data without an error sends the progress action and neither the failure notice nor a report |
| `Report.WriteOffLineIff` | bot.js:49-51 | in the sent report, a type's block has a write-off line exactly when something of it was written off |
| `Report.LossLineIff` | bot.js:55-57 | the report ends with the summary, which has a loss line exactly when the loss is positive |
| `Bot.Initialized` | bot.js:19-23 | a chat gains the idle entry only when it has none; every existing entry is kept |
| `Bot.Bot.constructor` | bot.js:18 | the bot starts with no chat entries |
| `Bot.Bot.InitializeUserState` | bot.js:19-23 | the chat map becomes `Initialized` of the old one |
| `Bot.Bot.OnStart` | bot.js:65-73 | a chat without access gets the refusal and no entry; a chat with access gets its entry and the greeting with the main menu |
| `Bot.Bot.OnMessage` | bot.js:75-197 | a text from a chat without access, an empty text or a command changes nothing and sends nothing; otherwise the chat's new action, the store writes and the replies are those of `MessageStep` on its initialized entry |
| `Bot.Bot.HandleMenu` | bot.js:172-196 | the main-menu switch gives `MenuStep`, whose properties `MenuOnlyExpensesSetsAction` states |
| `Bot.Bot.HandlePending` | bot.js:86-168 | the state switch gives `PendingStep` for the chat's pending action |
| `Bot.Bot.TakePieQuantity` | bot.js:89-97 | the batch-size case gives `PieQuantityInput` |
| `Bot.Bot.TakeRemaining` | bot.js:98-113 | the remaining-count case gives `RemainingInput` |
| `Bot.Bot.StoreRemaining` | bot.js:103-111 | an accepted remaining count is saved and the action ends on success and on failure alike |
| `Bot.Bot.TakeWriteOff` | bot.js:115-134 | the write-off case gives `WriteOffInput` |
| `Bot.Bot.StoreWriteOff` | bot.js:124-132 | an accepted write-off is sent to the store and the action ends on success and on failure alike |
| `Bot.Bot.TakeExpenses` | bot.js:136-143 | the expenses case gives `ExpensesInput` |
| `Bot.Bot.TakePrice` | bot.js:144-153 | the price case gives `PriceInput` |
| `Bot.Bot.StorePrice` | bot.js:148-151 | an accepted price is saved, the action ends, and the settings keyboard is shown again |
| `Bot.Bot.TakeEndDate` | bot.js:160-167 | the end-date case gives `EndDateInput`, with no store write |
| `Bot.Bot.OnCallback` | bot.js:200-285 | a chat without access gets the alert and nothing changes; otherwise the chat's new action and the replies are those of `CallbackStep` on its initialized entry, with no store write |
| `Bot.Bot.PressItem` | bot.js:251-284 | the add, remaining, price, back and unknown branches give `ItemCallbackStep` |
| `Bot.Bot.PressWriteOff` | bot.js:219-233 | a write-off button gives `WriteOffPressed` |
| `Bot.Bot.PressPeriod` | bot.js:236-250 | a period button gives `PeriodPressed`; a report that rejects leaves the callback unanswered |
| `Bot.Bot.PressEnterRemaining` | bot.js:257-270 | a remaining button gives `EnterRemainingPressed` |
| `BotProperties.PieQuantityConsumes` | bot.js:89-97 | a batch size that is NaN or not positive keeps the action, writes nothing and is answered by one message; any other makes exactly one `addManufactured` write and ends the action, whatever the store answers |
| `BotProperties.RemainingConsumes` | bot.js:98-113 | a remaining count that is NaN, negative or above the count made keeps the action and writes nothing; any other makes exactly one save and ends the action |
| `BotProperties.WriteOffConsumes` | bot.js:115-134 | a write-off that is NaN, not positive or above what remains keeps the action and writes nothing; any other makes exactly one write-off call and ends the action |
| `BotProperties.AcceptedUnlessNaNOrNegative` | bot.js:138 | an amount is accepted exactly when it is neither NaN nor negative |
| `BotProperties.ExpensesConsumes` | bot.js:136-143 | an amount that parses to NaN or a negative keeps the action; any other makes exactly one expense write and ends the action |
| `BotProperties.PriceConsumes` | bot.js:144-153 | a price that parses to NaN or a negative keeps the action; any other makes exactly one price write and ends the action |
| `BotProperties.EndDateConsumes` | bot.js:160-167 | an invalid end date, or one before the start, keeps the action; any other ends it with the report from the seeded start to that date |
| `BotProperties.PendingStepConsumes` | bot.js:86-168 | every pending action consumes every text as above |
| `BotProperties.PendingNeverReachesMenu` | bot.js:85-86 | a text sent while an action is pending is handled by that action and never reaches the menu switch |
| `BotProperties.MenuOnlyExpensesSetsAction` | bot.js:172-196 | no menu text writes to the store, only the expenses label sets an action, and a text that is no label gets no answer |
| `BotProperties.RemainingSaveAnswer` | bot.js:103-111 | an accepted remaining count is saved once and the action ends; an error or a missing row is answered by the failure text with the main menu, success by the confirmation and the remaining keyboard |
| `BotProperties.ExpensesSaveAnswer` | bot.js:138-141 | an accepted expense is written once and the action ends; an error or a null total is answered by the failure text, otherwise the amount and the new total are quoted, both with the main menu |
| `BotProperties.PriceSaveAnswer` | bot.js:148-151 | an accepted price is saved once and the action ends; the confirmation is sent exactly when the upsert reports no error, the failure text otherwise, and the settings keyboard follows either way |
| `BotProperties.RefusedIffStateKept` | bot.js:86-168 | a pending action stays exactly when it refuses the text |
| `BotProperties.RefusedTextsKeepAction` | bot.js:86-168 | however many refused texts arrive in a row, the pending action and its seeded data are unchanged |
| `BotProperties.AddedBatchIgnoresTotal` | bot.js:94 | the confirmation of an added batch does not depend on the total the store read back, and its total line always shows "0" |
| `BotProperties.WordIsNoInput` | bot.js:90-91 | a text starting like a word is NaN to `parseInt`, NaN to `parseFloat` and not a date |
| `BotProperties.MenuLabelsStartAsWords` | keyboards.js:9-12 | every label of the main keyboard starts like a word |
| `BotProperties.MenuLabelWhilePending` | bot.js:86-172 | a menu label typed while an action is pending is refused as input: the action stays and nothing is written |
| `BotProperties.AddPieSelects` | bot.js:251-256 | `add_pie_<t>` sets the quantity question for `t`, whatever was pending |
| `BotProperties.SetPriceSelects` | bot.js:271-276 | `set_price_<t>` sets the price question for `t`, whatever was pending |
| `BotProperties.EnterRemainingSelects` | bot.js:257-270 | `enter_remaining_<t>` sets the remaining question seeded with the count made exactly when that count is positive, and otherwise keeps the action |
| `BotProperties.WriteOffSelects` | bot.js:219-233 | `write_off_<t>` sets the write-off question seeded with what remains exactly when something remains, and otherwise keeps the action |
| `BotProperties.PeriodSelects` | bot.js:236-250 | of the period selectors, only `stats_period_custom` sets an action |
| `BotProperties.FixedPeriodReports` | bot.js:243-250 | today, week and month answer with the report from the period's first day to today, then the acknowledgement unless the report rejects on null data |
| `BotProperties.OtherSelectorsKeepState` | bot.js:277-284 | any other selector keeps the action, and the back and placeholder selectors return to the main menu |
| `BotProperties.BackButtonsReturnToMenu` | keyboards.js:24 | every back and placeholder button of the inline keyboards deletes the message, shows the main menu and keeps the pending action |
| `BotProperties.AnalyticsButtonUnhandled` | keyboards.js:97 | the analytics button of the period keyboard reaches the unknown-action branch |
| `BotProperties.AddKeyboardRowSelects` | keyboards.js:23 | pressing row i of the add keyboard asks for the quantity of the i-th type |
| `BotProperties.SettingsRowSelects` | keyboards.js:34 | pressing row i of the settings keyboard asks for the price of the i-th type |

## Left out

- The Telegram transport is not modelled: polling, message ids, and the
  `.catch` handlers on edits and deletes. Each handler returns its outbound
  actions as a sequence of `Reply` values instead.
- `hideKeyboard` (bot.js:213-216) first edits the markup and deletes the
  message if that fails. The model has a single `HideKeyboard` reply.
- The Supabase client and the RPC bodies are not modelled. Every store call
  takes the reply the database gives as a parameter. Nothing that the
  aggregation computes outside the bot (for example, sold = made - remaining)
  is checked.
- The analytics wrappers (db.js:157-194) and `analyticsTypeKeyboard`
  (keyboards.js:107-116) are not modelled. No handler reaches them, and
  `AnalyticsButtonUnhandled` shows the button leads to "unknown action".
- The scheduled daily report (bot.js:288-307) is not modelled: cron, the
  loop over the allow-list with its 500 ms pause, and its error logging.
  The report it sends is `GenerateAndSendReport` with `isScheduled` set.
- The clock is passed in as a `Clock`:
  - `getCurrentDate` (utils.js:4-6);
  - the start of the week and of the month (bot.js:243-246).
- bot.js:163 compares two `new Date` values. The model compares the year,
  month and day fields (`Before`). Both strings are valid YYYY-MM-DD dates
  there, and they parse to UTC midnight.
- The `/start` handler is triggered by any text that contains "/start". The
  model has a separate `/start` event.
- A message without text is modelled as the empty string. The message
  handler ignores it either way.
- gemini_service.js is not part of this model.
- config.js contributes only its constants (`Config`). Reading environment
  variables is left out, and the allow-list is a constructor argument.
- Console logging is left out.
- Each event is modelled as one atomic step. In the source, handlers of the
  same chat interleave at every `await`: bot.js:82 reads the state,
  bot.js:93 awaits the store, and bot.js:95 resets the state. Two quick
  quantity messages can therefore both call `addManufactured`, and an action
  set by a button pressed during the await is overwritten. The model captures
  neither the double write nor the overwritten action.
- Strings are sequences of Unicode scalar values, not of UTF-16 code units.
  No result depends on the difference, because every prefix that `substring`
  skips is ASCII.
- A rejected `generateAndSendReport` is modelled only by what it stops: the
  replies after the progress action and the callback's answer. The
  unhandled rejection itself, and the scheduled report's `catch`
  (bot.js:298-300), are not modelled.
- Numbers are exact: counts are `int` and money is `real`. IEEE-754
  rounding, overflow and negative zero are not modelled.
- A stored price is taken to be a number (`Db.PriceRowValue`), null
  counting as 0. The `parseFloat(item.price || 0)` of db.js:11 is therefore
  not modelled: neither its conversion of the value to text and back, nor a
  price column that arrives as a string.
- `Utils.FormatNumber`: the contract quotes integral numbers, NaN and
  non-numbers only. For other numbers, the body rounds half away from zero
  to two fraction digits with ',' as the separator, but no property of that
  branch is proved. Infinity is rendered as "∞", and minus infinity as "-∞".
- `JsNumber.ParseFloat`: reads the decimal literal exactly, with no rounding
  to the nearest double. Literals with an exponent are read, but no lemma
  covers them.
