/**
 * The conversation of the bot with each chat: a pending action per chat, the
 * handler of text messages (the state switch, then the main-menu switch),
 * the handler of inline-button presses and the /start command.
 *
 * The store is not modelled: each handler receives the replies the store
 * would give (`StoreReplies`) and returns the writes it asks of the store
 * (`StoreCall`) and what it sends back (`Reply`), in order. The dates the
 * clock would give are passed in as a `Clock`.
 */
module Bot {
  import opened Wrappers
  import opened JsString
  import opened JsNumber
  import opened Utils
  import opened Db
  import opened Keyboards
  import opened Replies
  import opened Report
  import Config

  type ChatId = int

  /** `userState[chatId]`: the pending action and the data it was seeded with. */
  datatype State =
    | Idle                                                  // { action: null, data: {} }
    | AwaitingPieQuantity(pieType: string)
    | AwaitingRemaining(pieType: string, manufactured: int)
    | AwaitingWriteOff(pieType: string, remaining: int)
    | AwaitingExpenses
    | AwaitingPrice(pieType: string)
    | AwaitingStartDate
    | AwaitingEndDate(startDate: string)

  /** The writes a handler asks of the store for its chat. */
  datatype StoreCall =
    | AddManufactured(pieType: string, quantity: int)
    | SaveRemaining(pieType: string, quantity: int)
    | ProcessWriteOff(pieType: string, quantity: int)
    | SaveExpenses(amount: Value)
    | SavePrice(pieType: string, price: Value)

  /** What the store answers, one reply per query the handlers may make. */
  datatype StoreReplies = StoreReplies(
    prices: Response<seq<PriceRow>>,       // the `prices` rows
    todaysLogs: Response<seq<LogRow>>,     // today's `daily_log` rows
    dailyLog: Response<DailyRow>,          // today's `daily_log` row of one type
    addRpc: Response<bool>,                // `add_manufactured` and its reset flag
    addEntry: Response<DailyRow>,          // the row read back after it
    remainingSave: Response<()>,           // the update of `remaining`
    writeOff: Response<int>,               // `process_write_off`
    expenses: Response<real>,              // `add_expense`
    priceSave: Response<()>,               // the upsert into `prices`
    aggregate: AggregateReply)             // `get_aggregated_stats` with the period's expenses

  /** The dates the clock gives: today, six days ago, the first of the month. */
  datatype Clock = Clock(today: string, weekStart: string, monthStart: string)

  /** The effect of one event on its chat. */
  datatype Outcome = Outcome(state: State, calls: seq<StoreCall>, replies: seq<Reply>)

  /** initializeUserState: a chat without an entry gets the idle one; an existing entry is kept. */
  function Initialized(userState: map<ChatId, State>, chat: ChatId): (r: map<ChatId, State>)
    ensures chat in r && r[chat] == (if chat in userState then userState[chat] else Idle)
    ensures r.Keys == userState.Keys + {chat}
    ensures forall c :: c in userState ==> r[c] == userState[c]
  {
    if chat in userState then userState else userState[chat := Idle]
  }

  // ---------------------------------------------------------------------------
  // Reading the input
  // ---------------------------------------------------------------------------

  /** The message handler ignores chats without access, empty texts and commands. */
  predicate Admitted(allowList: string, chat: ChatId, text: string)
  {
    CheckAccess(allowList, NumericId(chat)) && text != "" && !StartsWith(text, "/")
  }

  /** `parseFloat(text.replace(',', '.'))`. */
  function Amount(text: string): Value
  {
    ParseFloat(ReplaceFirst(text, ',', '.'))
  }

  /** Neither NaN nor negative. */
  predicate AmountAccepted(v: Value)
  {
    match v
    case Num(r) => r >= 0.0
    case Inf(negative) => !negative
    case NaN => false
    case NonNumber => false
  }

  /** `new Date(a) < new Date(b)` for two dates written YYYY-MM-DD. */
  predicate Before(a: string, b: string)
  {
    HasDateShape(a) && HasDateShape(b)
    && (DateYear(a) < DateYear(b)
        || (DateYear(a) == DateYear(b) && DateMonth(a) < DateMonth(b))
        || (DateYear(a) == DateYear(b) && DateMonth(a) == DateMonth(b) && DateDay(a) < DateDay(b)))
  }

  // ---------------------------------------------------------------------------
  // The texts the bot sends
  // ---------------------------------------------------------------------------

  const PositiveNumberPrompt := "❌ Введите корректное число (больше нуля)."
  const NonNegativeNumberPrompt := "❌ Введите корректное число (0 или больше)."
  const SaveFailed := "❌ Ошибка сохранения."
  const RemainingSaveFailed := "❌ Ошибка сохранения остатка."
  const NextRemainingPrompt := "Выбери следующий пирожок или вернись назад:"
  const NextWriteOffPrompt := "Выберите следующую продукцию для списания:"
  const BadAmount := "❌ Введите корректную сумму."
  const BadPrice := "❌ Введите корректную цену."
  const CurrentPrices := "Текущие настройки цен:"
  const BadDateFormat := "❌ Неверный формат. Введите ГГГГ-ММ-ДД:"
  const EndDatePrompt := "✅ Отлично. Теперь введите дату конца (ГГГГ-ММ-ДД):"
  const EndBeforeStart := "❌ Дата конца не может быть раньше даты начала."
  const AddPrompt := "Какой тип пирожков изготовили?"
  const RemainingMenuPrompt := "Для какого пирожка ввести/изменить остаток?"
  const WriteOffMenuPrompt := "Выберите продукцию для списания (с остатком > 0):"
  const ExpensesPrompt := "Введите сумму расходов в " + Config.CurrencySymbol + ":"
  const PeriodPrompt := "Выберите период для статистики:"
  const SettingsPrompt := "⚙️ Настройки цен на пирожки:"
  const StartDatePrompt := "✍️ Введите дату начала периода (ГГГГ-ММ-ДД):"
  const UnknownPeriod := "Неизвестный период"
  const UnknownAction := "Неизвестное действие"
  const ChooseAction := "Выбери действие:"
  const NoAccessMessage := "⛔ У вас нет доступа к этому боту."
  const NoAccessNotice := "⛔ У вас нет доступа."
  const Greeting := "Привет! Я помогу тебе вести учет пирожков. Выбери действие:"

  /** A message without a keyboard. */
  function Say(text: string): Reply
  {
    Message(text, NoMarkup)
  }

  /**
   * The confirmation of an added batch. The handler passes the whole result of
   * addManufacturedToDb, an object, to formatNumber, which renders it as "0".
   */
  function Added(t: string, quantity: int): string
  {
    "✅ Добавлено: " + FormatInt(quantity) + " \"" + t + "\"." + TotalLine(FormatNumber(NonNumber))
  }

  /** The second line of that confirmation, with the total as rendered. */
  function TotalLine(total: string): string
  {
    "\nВсего сегодня: " + total + "."
  }

  function RemainingTooLarge(quantity: int, manufactured: int): string
  {
    "❌ Остаток (" + IntToString(quantity) + ") не может быть больше изготовленного (" + IntToString(manufactured) + ")."
  }

  function RemainingRecorded(t: string, quantity: int): string
  {
    "👍 Записан остаток для \"" + t + "\": " + FormatInt(quantity) + "."
  }

  function WriteOffTooLarge(quantity: int, remaining: int): string
  {
    "❌ Количество для списания (" + IntToString(quantity) + ") не может быть больше остатка ("
    + IntToString(remaining) + "). Попробуйте еще раз."
  }

  function WriteOffDoneText(t: string, quantity: int): string
  {
    "✅ Успешно списано " + IntToString(quantity) + " шт. \"" + t + "\"."
  }

  function WriteOffFailed(message: string): string
  {
    "❌ Ошибка при списании: " + message
  }

  function ExpensesAdded(amount: Value, total: real): string
  {
    "✅ Расходы (" + FormatNumber(amount) + ") добавлены. Общие за сегодня: " + FormatNumber(Num(total))
    + " " + Config.CurrencySymbol + "."
  }

  function PriceSet(t: string, price: Value): string
  {
    "✅ Цена для \"" + t + "\" установлена: " + FormatNumber(price) + " " + Config.CurrencySymbol + "."
  }

  function NothingToWriteOff(t: string): string
  {
    "У \"" + t + "\" нет остатка для списания."
  }

  function WriteOffQuestion(t: string, remaining: int): string
  {
    "Сколько списать пирожков \"" + t + "\"? (В остатке: " + IntToString(remaining) + ") Введите число:"
  }

  function QuantityQuestion(t: string): string
  {
    "Сколько пирожков \"" + t + "\" изготовили?"
  }

  function NotManufactured(t: string): string
  {
    "\"" + t + "\" сегодня не изготовлены."
  }

  /** The question for the remaining count, with the count entered before when there is one. */
  function RemainingQuestion(t: string, manufactured: int, previous: Option<int>): string
  {
    "Сколько осталось \"" + t + "\"? (Изготовлено: " + IntToString(manufactured)
    + (if previous.Some? then " (ранее: " + IntToString(previous.value) + ")" else "") + ")"
  }

  function PriceQuestion(t: string): string
  {
    "Введите новую цену для \"" + t + "\" в " + Config.CurrencySymbol + ":"
  }

  // ---------------------------------------------------------------------------
  // The state switch
  // ---------------------------------------------------------------------------

  /** The check of a typed count: the accepted quantity, or the message that asks again. */
  datatype Checked = Accepted(quantity: int) | Rejected(message: string)

  /** A batch size must be a positive integer. */
  function PieQuantityCheck(text: string): Checked
  {
    var quantity := ParseInt(text);
    if quantity.None? || quantity.value <= 0 then Rejected(PositiveNumberPrompt) else Accepted(quantity.value)
  }

  /** A remaining count must be an integer from 0 to the count made today. */
  function RemainingCheck(text: string, manufactured: int): Checked
  {
    var quantity := ParseInt(text);
    if quantity.None? || quantity.value < 0 then Rejected(NonNegativeNumberPrompt)
    else if quantity.value > manufactured then Rejected(RemainingTooLarge(quantity.value, manufactured))
    else Accepted(quantity.value)
  }

  /** A write-off must be a positive integer no larger than what remains. */
  function WriteOffCheck(text: string, remaining: int): Checked
  {
    var quantity := ParseInt(text);
    if quantity.None? || quantity.value <= 0 then Rejected(PositiveNumberPrompt)
    else if quantity.value > remaining then Rejected(WriteOffTooLarge(quantity.value, remaining))
    else Accepted(quantity.value)
  }

  function PieQuantityInput(t: string, text: string, store: StoreReplies): Outcome
  {
    match PieQuantityCheck(text)
    case Rejected(message) => Outcome(AwaitingPieQuantity(t), [], [Say(message)])
    case Accepted(quantity) =>
      var saved := AddManufacturedResult(store.addRpc, store.addEntry);
      Outcome(Idle, [AddManufactured(t, quantity)], [Message(if saved.Some? then Added(t, quantity) else SaveFailed, MainMenu)])
  }

  function RemainingInput(types: seq<string>, t: string, manufactured: int, text: string, store: StoreReplies): Outcome
  {
    match RemainingCheck(text, manufactured)
    case Rejected(message) => Outcome(AwaitingRemaining(t, manufactured), [], [Say(message)])
    case Accepted(quantity) => RemainingAccepted(types, t, quantity, store)
  }

  /** An accepted remaining count: it is saved and the action ends, whatever the store answers. */
  function RemainingAccepted(types: seq<string>, t: string, quantity: int, store: StoreReplies): Outcome
  {
    if RemainingSaved(store.remainingSave) then
      Outcome(Idle, [SaveRemaining(t, quantity)],
              [Say(RemainingRecorded(t, quantity)),
               Message(NextRemainingPrompt, Inline(RemainingKeyboard(types, TodaysLogs(store.todaysLogs))))])
    else
      Outcome(Idle, [SaveRemaining(t, quantity)], [Message(RemainingSaveFailed, MainMenu)])
  }

  function WriteOffInput(types: seq<string>, t: string, remaining: int, text: string, store: StoreReplies): Outcome
  {
    match WriteOffCheck(text, remaining)
    case Rejected(message) => Outcome(AwaitingWriteOff(t, remaining), [], [Say(message)])
    case Accepted(quantity) => WriteOffAccepted(types, t, quantity, store)
  }

  /** An accepted write-off: the store decides, and the action ends either way. */
  function WriteOffAccepted(types: seq<string>, t: string, quantity: int, store: StoreReplies): Outcome
  {
    match WriteOffResult(store.writeOff)
    case WriteOffDone(_) =>
      Outcome(Idle, [ProcessWriteOff(t, quantity)],
              [Say(WriteOffDoneText(t, quantity)),
               Message(NextWriteOffPrompt, Inline(WriteOffKeyboard(types, TodaysLogs(store.todaysLogs))))])
    case WriteOffRefused(message) =>
      Outcome(Idle, [ProcessWriteOff(t, quantity)], [Message(WriteOffFailed(message), MainMenu)])
  }

  function ExpensesInput(text: string, store: StoreReplies): Outcome
  {
    var amount := Amount(text);
    if !AmountAccepted(amount) then
      Outcome(AwaitingExpenses, [], [Say(BadAmount)])
    else
      var total := ExpensesTotal(store.expenses);
      Outcome(Idle, [SaveExpenses(amount)],
              [Message(if total.Some? then ExpensesAdded(amount, total.value) else SaveFailed, MainMenu)])
  }

  function PriceInput(types: seq<string>, t: string, text: string, store: StoreReplies): Outcome
  {
    var price := Amount(text);
    if !AmountAccepted(price) then
      Outcome(AwaitingPrice(t), [], [Say(BadPrice)])
    else PriceAccepted(types, t, price, store)
  }

  /** An accepted price: it is saved, the action ends, and the settings menu is shown again. */
  function PriceAccepted(types: seq<string>, t: string, price: Value, store: StoreReplies): Outcome
  {
    Outcome(Idle, [SavePrice(t, price)],
            [Say(if PriceSaved(store.priceSave) then PriceSet(t, price) else SaveFailed),
             Message(CurrentPrices, Inline(SettingsKeyboard(types, PriceTable(types, store.prices))))])
  }

  function StartDateInput(text: string): Outcome
  {
    if !IsValidDate(text) then Outcome(AwaitingStartDate, [], [Say(BadDateFormat)])
    else Outcome(AwaitingEndDate(text), [], [Say(EndDatePrompt)])
  }

  /** The replies of a report asked for from a chat. */
  function PeriodReport(types: seq<string>, store: StoreReplies, start: string, end: string, fromMessage: bool): seq<Reply>
  {
    ReportReplies(types, StatsForPeriod(types, PriceTable(types, store.prices), store.aggregate, start, end),
                  start, end, fromMessage, false)
  }

  function EndDateInput(types: seq<string>, start: string, text: string, store: StoreReplies): Outcome
  {
    if !IsValidDate(text) then Outcome(AwaitingEndDate(start), [], [Say(BadDateFormat)])
    else if Before(text, start) then Outcome(AwaitingEndDate(start), [], [Say(EndBeforeStart)])
    else Outcome(Idle, [], PeriodReport(types, store, start, text, false))
  }

  /** The state switch: the text is the input the pending action waits for. */
  function PendingStep(types: seq<string>, st: State, text: string, store: StoreReplies): Outcome
    requires !st.Idle?
  {
    match st
    case AwaitingPieQuantity(t) => PieQuantityInput(t, text, store)
    case AwaitingRemaining(t, manufactured) => RemainingInput(types, t, manufactured, text, store)
    case AwaitingWriteOff(t, remaining) => WriteOffInput(types, t, remaining, text, store)
    case AwaitingExpenses => ExpensesInput(text, store)
    case AwaitingPrice(t) => PriceInput(types, t, text, store)
    case AwaitingStartDate => StartDateInput(text)
    case AwaitingEndDate(start) => EndDateInput(types, start, text, store)
  }

  // ---------------------------------------------------------------------------
  // The main-menu switch
  // ---------------------------------------------------------------------------

  /** The main-menu switch, reached only when no action is pending. */
  function MenuStep(types: seq<string>, text: string, store: StoreReplies): Outcome
  {
    if text == AddManufacturedLabel then
      Outcome(Idle, [], [Message(AddPrompt, Inline(PieTypesKeyboard(types)))])
    else if text == EnterRemainingLabel then
      Outcome(Idle, [], [Message(RemainingMenuPrompt, Inline(RemainingKeyboard(types, TodaysLogs(store.todaysLogs))))])
    else if text == WriteOffLabel then
      Outcome(Idle, [], [Message(WriteOffMenuPrompt, Inline(WriteOffKeyboard(types, TodaysLogs(store.todaysLogs))))])
    else if text == EnterExpensesLabel then
      Outcome(AwaitingExpenses, [], [Say(ExpensesPrompt)])
    else if text == ShowStatsLabel then
      Outcome(Idle, [], [Message(PeriodPrompt, Inline(StatsPeriodKeyboard))])
    else if text == SettingsLabel then
      Outcome(Idle, [], [Message(SettingsPrompt, Inline(SettingsKeyboard(types, PriceTable(types, store.prices))))])
    else
      Outcome(Idle, [], [])
  }

  /** The message handler on an admitted text, after the chat's entry exists. */
  function MessageStep(types: seq<string>, st: State, text: string, store: StoreReplies): Outcome
  {
    if st.Idle? then MenuStep(types, text, store) else PendingStep(types, st, text, store)
  }

  // ---------------------------------------------------------------------------
  // The callback switch
  // ---------------------------------------------------------------------------

  const BackPrefix := "back_to_main_"
  const NoPiesPrefix := "no_pies_for_"

  function WriteOffPressed(types: seq<string>, st: State, t: string, store: StoreReplies): Outcome
  {
    var remaining := DailyLogEntry(store.dailyLog).remaining.GetOr(0);
    if remaining <= 0 then
      Outcome(st, [], [Notice(NothingToWriteOff(t), true), RefreshMarkup(WriteOffKeyboard(types, TodaysLogs(store.todaysLogs)))])
    else
      Outcome(AwaitingWriteOff(t, remaining), [], [HideKeyboard, Say(WriteOffQuestion(t, remaining)), Acknowledge])
  }

  /** The first day of a period offered by the statistics keyboard, if the period is one of them. */
  function PeriodStart(period: string, clock: Clock): Option<string>
  {
    if period == "today" then Some(clock.today)
    else if period == "week" then Some(clock.weekStart)
    else if period == "month" then Some(clock.monthStart)
    else None
  }

  function PeriodPressed(types: seq<string>, st: State, period: string, store: StoreReplies, clock: Clock): Outcome
  {
    if period == "custom" then
      Outcome(AwaitingStartDate, [], [HideKeyboard, Say(StartDatePrompt), Acknowledge])
    else
      match PeriodStart(period, clock)
      case Some(start) =>
        // a rejected report skips the callback's answer
        var answer := if store.aggregate.AggregateNull? then [] else [Acknowledge];
        Outcome(st, [], PeriodReport(types, store, start, clock.today, true) + answer)
      case None => Outcome(st, [], [Notice(UnknownPeriod, false)])
  }

  function AddPiePressed(t: string): Outcome
  {
    Outcome(AwaitingPieQuantity(t), [], [HideKeyboard, Say(QuantityQuestion(t)), Acknowledge])
  }

  function EnterRemainingPressed(types: seq<string>, st: State, t: string, store: StoreReplies): Outcome
  {
    var entry := DailyLogEntry(store.dailyLog);
    var manufactured := entry.manufactured.GetOr(0);
    if manufactured <= 0 then
      Outcome(st, [], [Notice(NotManufactured(t), false), RefreshMarkup(RemainingKeyboard(types, TodaysLogs(store.todaysLogs)))])
    else
      Outcome(AwaitingRemaining(t, manufactured), [],
              [HideKeyboard, Say(RemainingQuestion(t, manufactured, entry.remaining)), Acknowledge])
  }

  function SetPricePressed(t: string): Outcome
  {
    Outcome(AwaitingPrice(t), [], [HideKeyboard, Say(PriceQuestion(t)), Acknowledge])
  }

  function BackPressed(st: State): Outcome
  {
    Outcome(st, [], [DeleteMessage, Message(ChooseAction, MainMenu), Acknowledge])
  }

  /** The callback handler on a chat with access, after the chat's entry exists. */
  function CallbackStep(types: seq<string>, st: State, data: string, store: StoreReplies, clock: Clock): Outcome
  {
    if StartsWith(data, WriteOffPrefix) then WriteOffPressed(types, st, data[|WriteOffPrefix|..], store)
    else if StartsWith(data, StatsPeriodPrefix) then PeriodPressed(types, st, data[|StatsPeriodPrefix|..], store, clock)
    else ItemCallbackStep(types, st, data, store)
  }

  /** The rest of the callback switch: the buttons that name a pie type, and the back buttons. */
  function ItemCallbackStep(types: seq<string>, st: State, data: string, store: StoreReplies): Outcome
  {
    if StartsWith(data, AddPiePrefix) then AddPiePressed(data[|AddPiePrefix|..])
    else if StartsWith(data, EnterRemainingPrefix) then EnterRemainingPressed(types, st, data[|EnterRemainingPrefix|..], store)
    else if StartsWith(data, SetPricePrefix) then SetPricePressed(data[|SetPricePrefix|..])
    else if StartsWith(data, BackPrefix) || StartsWith(data, NoPiesPrefix) then BackPressed(st)
    else Outcome(st, [], [Notice(UnknownAction, false)])
  }

  // ---------------------------------------------------------------------------
  // The bot
  // ---------------------------------------------------------------------------

  /** The bot process: its configuration and the per-chat pending actions. */
  class Bot {
    const allowList: string
    const types: seq<string>
    var userState: map<ChatId, State>

    constructor(allowList: string, types: seq<string>)
      ensures this.allowList == allowList && this.types == types
      ensures userState == map[]
    {
      this.allowList := allowList;
      this.types := types;
      userState := map[];
    }

    /** initializeUserState. */
    method InitializeUserState(chat: ChatId)
      modifies this
      ensures userState == Initialized(old(userState), chat)
    {
      if chat !in userState {
        userState := userState[chat := Idle];
      }
    }

    /** The /start command. */
    method OnStart(chat: ChatId) returns (replies: seq<Reply>)
      modifies this
      ensures !CheckAccess(allowList, NumericId(chat)) ==> userState == old(userState) && replies == [Say(NoAccessMessage)]
      ensures CheckAccess(allowList, NumericId(chat)) ==>
                userState == Initialized(old(userState), chat) && replies == [Message(Greeting, MainMenu)]
    {
      if !CheckAccess(allowList, NumericId(chat)) {
        return [Say(NoAccessMessage)];
      }
      InitializeUserState(chat);
      replies := [Message(Greeting, MainMenu)];
    }

    /** The message handler. */
    method OnMessage(chat: ChatId, text: string, store: StoreReplies) returns (calls: seq<StoreCall>, replies: seq<Reply>)
      modifies this
      ensures !Admitted(allowList, chat, text) ==> userState == old(userState) && calls == [] && replies == []
      ensures Admitted(allowList, chat, text) ==>
                var o := MessageStep(types, Initialized(old(userState), chat)[chat], text, store);
                userState == Initialized(old(userState), chat)[chat := o.state] && calls == o.calls && replies == o.replies
    {
      if !CheckAccess(allowList, NumericId(chat)) || text == "" || StartsWith(text, "/") {
        return [], [];
      }
      InitializeUserState(chat);
      var state := userState[chat];
      if state.Idle? {
        calls := [];
        replies := HandleMenu(chat, text, store);
      } else {
        calls, replies := HandlePending(chat, state, text, store);
      }
    }

    /** The main-menu switch of the message handler. */
    method HandleMenu(chat: ChatId, text: string, store: StoreReplies) returns (replies: seq<Reply>)
      requires chat in userState && userState[chat] == Idle
      modifies this
      ensures var o := MenuStep(types, text, store);
              userState == old(userState)[chat := o.state] && o.calls == [] && replies == o.replies
    {
      if text == AddManufacturedLabel {
        replies := [Message(AddPrompt, Inline(PieTypesKeyboard(types)))];
      } else if text == EnterRemainingLabel {
        var keyboard := CreateRemainingKeyboard(types, store.todaysLogs);
        replies := [Message(RemainingMenuPrompt, Inline(keyboard))];
      } else if text == WriteOffLabel {
        var keyboard := CreateWriteOffKeyboard(types, store.todaysLogs);
        replies := [Message(WriteOffMenuPrompt, Inline(keyboard))];
      } else if text == EnterExpensesLabel {
        userState := userState[chat := AwaitingExpenses];
        replies := [Say(ExpensesPrompt)];
      } else if text == ShowStatsLabel {
        replies := [Message(PeriodPrompt, Inline(StatsPeriodKeyboard))];
      } else if text == SettingsLabel {
        var keyboard := CreateSettingsKeyboard(types, store.prices);
        replies := [Message(SettingsPrompt, Inline(keyboard))];
      } else {
        replies := [];
      }
    }

    /** The state switch of the message handler. */
    method HandlePending(chat: ChatId, state: State, text: string, store: StoreReplies)
      returns (calls: seq<StoreCall>, replies: seq<Reply>)
      requires !state.Idle? && chat in userState && userState[chat] == state
      modifies this
      ensures var o := PendingStep(types, state, text, store);
              userState == old(userState)[chat := o.state] && calls == o.calls && replies == o.replies
    {
      match state
      case AwaitingPieQuantity(t) => calls, replies := TakePieQuantity(chat, t, text, store);
      case AwaitingRemaining(t, manufactured) => calls, replies := TakeRemaining(chat, t, manufactured, text, store);
      case AwaitingWriteOff(t, remaining) => calls, replies := TakeWriteOff(chat, t, remaining, text, store);
      case AwaitingExpenses => calls, replies := TakeExpenses(chat, text, store);
      case AwaitingPrice(t) => calls, replies := TakePrice(chat, t, text, store);
      case AwaitingStartDate =>
        calls := [];
        if !IsValidDate(text) {
          replies := [Say(BadDateFormat)];
        } else {
          userState := userState[chat := AwaitingEndDate(text)];
          replies := [Say(EndDatePrompt)];
        }
      case AwaitingEndDate(start) => calls := []; replies := TakeEndDate(chat, start, text, store);
    }

    /** 'awaiting_pie_quantity'. */
    method TakePieQuantity(chat: ChatId, t: string, text: string, store: StoreReplies)
      returns (calls: seq<StoreCall>, replies: seq<Reply>)
      requires chat in userState && userState[chat] == AwaitingPieQuantity(t)
      modifies this
      ensures var o := PieQuantityInput(t, text, store);
              userState == old(userState)[chat := o.state] && calls == o.calls && replies == o.replies
    {
      var check := PieQuantityCheck(text);
      if check.Rejected? {
        return [], [Say(check.message)];
      }
      calls := [AddManufactured(t, check.quantity)];
      var saved := AddManufacturedResult(store.addRpc, store.addEntry);
      replies := [Message(if saved.Some? then Added(t, check.quantity) else SaveFailed, MainMenu)];
      userState := userState[chat := Idle];
    }

    /** 'awaiting_remaining_input'. */
    method TakeRemaining(chat: ChatId, t: string, manufactured: int, text: string, store: StoreReplies)
      returns (calls: seq<StoreCall>, replies: seq<Reply>)
      requires chat in userState && userState[chat] == AwaitingRemaining(t, manufactured)
      modifies this
      ensures var o := RemainingInput(types, t, manufactured, text, store);
              userState == old(userState)[chat := o.state] && calls == o.calls && replies == o.replies
    {
      var check := RemainingCheck(text, manufactured);
      if check.Rejected? {
        return [], [Say(check.message)];
      }
      calls, replies := StoreRemaining(chat, t, check.quantity, store);
    }

    /** The save of an accepted remaining count. */
    method StoreRemaining(chat: ChatId, t: string, quantity: int, store: StoreReplies)
      returns (calls: seq<StoreCall>, replies: seq<Reply>)
      modifies this
      ensures var o := RemainingAccepted(types, t, quantity, store);
              userState == old(userState)[chat := o.state] && calls == o.calls && replies == o.replies
    {
      calls := [SaveRemaining(t, quantity)];
      if RemainingSaved(store.remainingSave) {
        userState := userState[chat := Idle];
        var keyboard := CreateRemainingKeyboard(types, store.todaysLogs);
        replies := [Say(RemainingRecorded(t, quantity)), Message(NextRemainingPrompt, Inline(keyboard))];
      } else {
        replies := [Message(RemainingSaveFailed, MainMenu)];
        userState := userState[chat := Idle];
      }
    }

    /** 'awaiting_write_off_quantity'. */
    method TakeWriteOff(chat: ChatId, t: string, remaining: int, text: string, store: StoreReplies)
      returns (calls: seq<StoreCall>, replies: seq<Reply>)
      requires chat in userState && userState[chat] == AwaitingWriteOff(t, remaining)
      modifies this
      ensures var o := WriteOffInput(types, t, remaining, text, store);
              userState == old(userState)[chat := o.state] && calls == o.calls && replies == o.replies
    {
      var check := WriteOffCheck(text, remaining);
      if check.Rejected? {
        return [], [Say(check.message)];
      }
      calls, replies := StoreWriteOff(chat, t, check.quantity, store);
    }

    /** The write-off of an accepted quantity. */
    method StoreWriteOff(chat: ChatId, t: string, quantity: int, store: StoreReplies)
      returns (calls: seq<StoreCall>, replies: seq<Reply>)
      modifies this
      ensures var o := WriteOffAccepted(types, t, quantity, store);
              userState == old(userState)[chat := o.state] && calls == o.calls && replies == o.replies
    {
      calls := [ProcessWriteOff(t, quantity)];
      var result := WriteOffResult(store.writeOff);
      if result.WriteOffDone? {
        userState := userState[chat := Idle];
        var keyboard := CreateWriteOffKeyboard(types, store.todaysLogs);
        replies := [Say(WriteOffDoneText(t, quantity)), Message(NextWriteOffPrompt, Inline(keyboard))];
      } else {
        replies := [Message(WriteOffFailed(result.message), MainMenu)];
        userState := userState[chat := Idle];
      }
    }

    /** 'awaiting_expenses_input'. */
    method TakeExpenses(chat: ChatId, text: string, store: StoreReplies)
      returns (calls: seq<StoreCall>, replies: seq<Reply>)
      requires chat in userState && userState[chat] == AwaitingExpenses
      modifies this
      ensures var o := ExpensesInput(text, store);
              userState == old(userState)[chat := o.state] && calls == o.calls && replies == o.replies
    {
      var amount := Amount(text);
      if !AmountAccepted(amount) {
        assert ExpensesInput(text, store) == Outcome(AwaitingExpenses, [], [Say(BadAmount)]);
        return [], [Say(BadAmount)];
      }
      calls := [SaveExpenses(amount)];
      var total := ExpensesTotal(store.expenses);
      replies := [Message(if total.Some? then ExpensesAdded(amount, total.value) else SaveFailed, MainMenu)];
      userState := userState[chat := Idle];
    }

    /** 'awaiting_price_input'. */
    method TakePrice(chat: ChatId, t: string, text: string, store: StoreReplies)
      returns (calls: seq<StoreCall>, replies: seq<Reply>)
      requires chat in userState && userState[chat] == AwaitingPrice(t)
      modifies this
      ensures var o := PriceInput(types, t, text, store);
              userState == old(userState)[chat := o.state] && calls == o.calls && replies == o.replies
    {
      var price := Amount(text);
      if !AmountAccepted(price) {
        assert PriceInput(types, t, text, store) == Outcome(AwaitingPrice(t), [], [Say(BadPrice)]);
        return [], [Say(BadPrice)];
      }
      assert PriceInput(types, t, text, store) == PriceAccepted(types, t, price, store);
      calls, replies := StorePrice(chat, t, price, store);
    }

    /** The save of an accepted price. */
    method StorePrice(chat: ChatId, t: string, price: Value, store: StoreReplies)
      returns (calls: seq<StoreCall>, replies: seq<Reply>)
      modifies this
      ensures var o := PriceAccepted(types, t, price, store);
              userState == old(userState)[chat := o.state] && calls == o.calls && replies == o.replies
    {
      calls := [SavePrice(t, price)];
      var confirmation := if PriceSaved(store.priceSave) then PriceSet(t, price) else SaveFailed;
      userState := userState[chat := Idle];
      var keyboard := CreateSettingsKeyboard(types, store.prices);
      replies := [Say(confirmation), Message(CurrentPrices, Inline(keyboard))];
    }

    /** 'awaiting_custom_end_date'. */
    method TakeEndDate(chat: ChatId, start: string, text: string, store: StoreReplies) returns (replies: seq<Reply>)
      requires chat in userState && userState[chat] == AwaitingEndDate(start)
      modifies this
      ensures var o := EndDateInput(types, start, text, store);
              userState == old(userState)[chat := o.state] && o.calls == [] && replies == o.replies
    {
      if !IsValidDate(text) {
        return [Say(BadDateFormat)];
      }
      if Before(text, start) {
        return [Say(EndBeforeStart)];
      }
      userState := userState[chat := Idle];
      // nothing follows the report here, so a rejection changes no reply
      var completed;
      replies, completed := GenerateAndSendReport(types, store.prices, store.aggregate, start, text, false, false);
    }

    /** The callback handler. */
    method OnCallback(chat: ChatId, data: string, store: StoreReplies, clock: Clock) returns (replies: seq<Reply>)
      modifies this
      ensures !CheckAccess(allowList, NumericId(chat)) ==>
                userState == old(userState) && replies == [Notice(NoAccessNotice, true)]
      ensures CheckAccess(allowList, NumericId(chat)) ==>
                var o := CallbackStep(types, Initialized(old(userState), chat)[chat], data, store, clock);
                userState == Initialized(old(userState), chat)[chat := o.state] && o.calls == [] && replies == o.replies
    {
      if !CheckAccess(allowList, NumericId(chat)) {
        return [Notice(NoAccessNotice, true)];
      }
      InitializeUserState(chat);
      if StartsWith(data, WriteOffPrefix) {
        replies := PressWriteOff(chat, data[|WriteOffPrefix|..], store);
      } else if StartsWith(data, StatsPeriodPrefix) {
        replies := PressPeriod(chat, data[|StatsPeriodPrefix|..], store, clock);
      } else {
        replies := PressItem(chat, data, store);
      }
    }

    /** The buttons that name a pie type, and the back buttons. */
    method PressItem(chat: ChatId, data: string, store: StoreReplies) returns (replies: seq<Reply>)
      requires chat in userState
      modifies this
      ensures var o := ItemCallbackStep(types, old(userState)[chat], data, store);
              userState == old(userState)[chat := o.state] && o.calls == [] && replies == o.replies
    {
      if StartsWith(data, AddPiePrefix) {
        userState := userState[chat := AwaitingPieQuantity(data[|AddPiePrefix|..])];
        replies := [HideKeyboard, Say(QuantityQuestion(data[|AddPiePrefix|..])), Acknowledge];
      } else if StartsWith(data, EnterRemainingPrefix) {
        replies := PressEnterRemaining(chat, data[|EnterRemainingPrefix|..], store);
      } else if StartsWith(data, SetPricePrefix) {
        userState := userState[chat := AwaitingPrice(data[|SetPricePrefix|..])];
        replies := [HideKeyboard, Say(PriceQuestion(data[|SetPricePrefix|..])), Acknowledge];
      } else if StartsWith(data, BackPrefix) || StartsWith(data, NoPiesPrefix) {
        replies := [DeleteMessage, Message(ChooseAction, MainMenu), Acknowledge];
      } else {
        replies := [Notice(UnknownAction, false)];
      }
    }

    /** A button of the write-off keyboard. */
    method PressWriteOff(chat: ChatId, t: string, store: StoreReplies) returns (replies: seq<Reply>)
      requires chat in userState
      modifies this
      ensures var o := WriteOffPressed(types, old(userState)[chat], t, store);
              userState == old(userState)[chat := o.state] && o.calls == [] && replies == o.replies
    {
      var remaining := DailyLogEntry(store.dailyLog).remaining.GetOr(0);
      if remaining <= 0 {
        var keyboard := CreateWriteOffKeyboard(types, store.todaysLogs);
        return [Notice(NothingToWriteOff(t), true), RefreshMarkup(keyboard)];
      }
      userState := userState[chat := AwaitingWriteOff(t, remaining)];
      replies := [HideKeyboard, Say(WriteOffQuestion(t, remaining)), Acknowledge];
    }

    /** A button of the statistics keyboard. */
    method PressPeriod(chat: ChatId, period: string, store: StoreReplies, clock: Clock) returns (replies: seq<Reply>)
      requires chat in userState
      modifies this
      ensures var o := PeriodPressed(types, old(userState)[chat], period, store, clock);
              userState == old(userState)[chat := o.state] && o.calls == [] && replies == o.replies
    {
      if period == "custom" {
        userState := userState[chat := AwaitingStartDate];
        return [HideKeyboard, Say(StartDatePrompt), Acknowledge];
      }
      var start := PeriodStart(period, clock);
      if start.None? {
        return [Notice(UnknownPeriod, false)];
      }
      var completed;
      replies, completed := GenerateAndSendReport(types, store.prices, store.aggregate, start.value, clock.today, true, false);
      if completed {
        replies := replies + [Acknowledge];
      }
    }

    /** A button of the remaining keyboard. */
    method PressEnterRemaining(chat: ChatId, t: string, store: StoreReplies) returns (replies: seq<Reply>)
      requires chat in userState
      modifies this
      ensures var o := EnterRemainingPressed(types, old(userState)[chat], t, store);
              userState == old(userState)[chat := o.state] && o.calls == [] && replies == o.replies
    {
      var entry := DailyLogEntry(store.dailyLog);
      var manufactured := entry.manufactured.GetOr(0);
      if manufactured <= 0 {
        var keyboard := CreateRemainingKeyboard(types, store.todaysLogs);
        return [Notice(NotManufactured(t), false), RefreshMarkup(keyboard)];
      }
      userState := userState[chat := AwaitingRemaining(t, manufactured)];
      replies := [HideKeyboard, Say(RemainingQuestion(t, manufactured, entry.remaining)), Acknowledge];
    }
  }
}
