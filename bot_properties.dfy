/**
 * What the conversation promises, stated over the step functions of module
 * Bot: which inputs each pending action refuses, what an accepted input
 * writes, how the selectors of the inline keyboards drive the pending action,
 * and that the menu labels never reach the menu while an action is pending.
 */
module BotProperties {
  import opened Wrappers
  import opened JsString
  import opened JsNumber
  import opened Utils
  import opened Db
  import opened Keyboards
  import opened Replies
  import opened Bot

  // ---------------------------------------------------------------------------
  // The state switch
  // ---------------------------------------------------------------------------

  /** `isNaN(v) || v < 0` for the result of parseFloat. */
  predicate NaNOrNegative(v: Value)
  {
    v == NaN || v == Inf(true) || (v.Num? && v.r < 0.0)
  }

  /** The inputs a pending action refuses, read off the parsed text alone. */
  predicate Refuses(st: State, text: string)
  {
    match st
    case Idle => false
    case AwaitingPieQuantity(_) => ParseInt(text).None? || ParseInt(text).value <= 0
    case AwaitingRemaining(_, manufactured) =>
      ParseInt(text).None? || ParseInt(text).value < 0 || ParseInt(text).value > manufactured
    case AwaitingWriteOff(_, remaining) =>
      ParseInt(text).None? || ParseInt(text).value <= 0 || ParseInt(text).value > remaining
    case AwaitingExpenses => NaNOrNegative(Amount(text))
    case AwaitingPrice(_) => NaNOrNegative(Amount(text))
    case AwaitingStartDate => !IsValidDate(text)
    case AwaitingEndDate(start) => !IsValidDate(text) || Before(text, start)
  }

  /** The one store write an accepted input causes. */
  function Writes(st: State, text: string): seq<StoreCall>
  {
    match st
    case AwaitingPieQuantity(t) => [AddManufactured(t, ParseInt(text).GetOr(0))]
    case AwaitingRemaining(t, _) => [SaveRemaining(t, ParseInt(text).GetOr(0))]
    case AwaitingWriteOff(t, _) => [ProcessWriteOff(t, ParseInt(text).GetOr(0))]
    case AwaitingExpenses => [SaveExpenses(Amount(text))]
    case AwaitingPrice(t) => [SavePrice(t, Amount(text))]
    case _ => []
  }

  /** Where an accepted input leads: a start date on to the end date seeded with it, anything else to no action. */
  function Next(st: State, text: string): State
  {
    if st.AwaitingStartDate? then AwaitingEndDate(text) else Idle
  }

  /**
   * How a pending action consumes a text: a refused text keeps the action,
   * writes nothing and is answered by one plain message; an accepted text
   * makes its one write and moves on, whatever the store answers.
   */
  predicate Consumes(st: State, text: string, o: Outcome)
  {
    o.state == (if Refuses(st, text) then st else Next(st, text))
    && o.calls == (if Refuses(st, text) then [] else Writes(st, text))
    && (Refuses(st, text) ==> |o.replies| == 1 && o.replies[0].Message? && o.replies[0].markup == NoMarkup)
  }

  lemma PieQuantityConsumes(t: string, text: string, store: StoreReplies)
    ensures Consumes(AwaitingPieQuantity(t), text, PieQuantityInput(t, text, store))
  {
    assert PieQuantityCheck(text).Accepted? ==> PieQuantityCheck(text).quantity == ParseInt(text).value;
  }

  lemma RemainingConsumes(types: seq<string>, t: string, manufactured: int, text: string, store: StoreReplies)
    ensures Consumes(AwaitingRemaining(t, manufactured), text, RemainingInput(types, t, manufactured, text, store))
  {
    assert RemainingCheck(text, manufactured).Accepted? ==>
             RemainingCheck(text, manufactured).quantity == ParseInt(text).value;
  }

  lemma WriteOffConsumes(types: seq<string>, t: string, remaining: int, text: string, store: StoreReplies)
    ensures Consumes(AwaitingWriteOff(t, remaining), text, WriteOffInput(types, t, remaining, text, store))
  {
    assert WriteOffCheck(text, remaining).Accepted? ==> WriteOffCheck(text, remaining).quantity == ParseInt(text).value;
  }

  /** An amount that parsed to a number or an infinity is accepted exactly when it is not NaN or negative. */
  lemma AcceptedUnlessNaNOrNegative(v: Value)
    requires v != NonNumber
    ensures AmountAccepted(v) <==> !NaNOrNegative(v)
  {
  }

  lemma ExpensesConsumes(text: string, store: StoreReplies)
    ensures Consumes(AwaitingExpenses, text, ExpensesInput(text, store))
  {
    var amount := Amount(text);
    AcceptedUnlessNaNOrNegative(amount);
    if AmountAccepted(amount) {
      assert !Refuses(AwaitingExpenses, text);
    } else {
      assert Refuses(AwaitingExpenses, text);
      assert ExpensesInput(text, store) == Outcome(AwaitingExpenses, [], [Say(BadAmount)]);
    }
  }

  lemma PriceConsumes(types: seq<string>, t: string, text: string, store: StoreReplies)
    ensures Consumes(AwaitingPrice(t), text, PriceInput(types, t, text, store))
  {
    var price := Amount(text);
    AcceptedUnlessNaNOrNegative(price);
    if AmountAccepted(price) {
      assert !Refuses(AwaitingPrice(t), text);
      assert PriceInput(types, t, text, store) == PriceAccepted(types, t, price, store);
    } else {
      assert Refuses(AwaitingPrice(t), text);
      assert PriceInput(types, t, text, store) == Outcome(AwaitingPrice(t), [], [Say(BadPrice)]);
    }
  }

  // ---------------------------------------------------------------------------
  // What the store's answer decides
  // ---------------------------------------------------------------------------

  /**
   * An accepted remaining count makes its one save and ends the action. When
   * the store reports an error or no row, the answer is the failure text with
   * the main menu; otherwise it is the confirmation and the remaining keyboard.
   */
  lemma RemainingSaveAnswer(types: seq<string>, t: string, quantity: int, store: StoreReplies)
    ensures var o := RemainingAccepted(types, t, quantity, store);
            var reply := store.remainingSave;
            o.state == Idle && o.calls == [SaveRemaining(t, quantity)]
            && ((reply.error.Some? || reply.data.None?) ==> o.replies == [Message(RemainingSaveFailed, MainMenu)])
            && ((reply.error.None? && reply.data.Some?) ==>
                  o.replies == [Say(RemainingRecorded(t, quantity)),
                                Message(NextRemainingPrompt, Inline(RemainingKeyboard(types, TodaysLogs(store.todaysLogs))))])
  {
  }

  /**
   * An accepted price makes its one save and ends the action. The first answer
   * is the confirmation exactly when the upsert reports no error, and the
   * settings keyboard follows in both cases.
   */
  lemma PriceSaveAnswer(types: seq<string>, t: string, price: Value, store: StoreReplies)
    ensures var o := PriceAccepted(types, t, price, store);
            o.state == Idle && o.calls == [SavePrice(t, price)] && |o.replies| == 2
            && (o.replies[0] == Say(PriceSet(t, price)) <==> store.priceSave.error.None?)
            && (store.priceSave.error.Some? ==> o.replies[0] == Say(SaveFailed))
            && o.replies[1] == Message(CurrentPrices, Inline(SettingsKeyboard(types, PriceTable(types, store.prices))))
  {
    assert PriceSet(t, price)[0] != SaveFailed[0];
  }

  /**
   * An accepted expense makes its one write and ends the action. An error, or
   * a null total, is answered by the failure text; otherwise the answer quotes
   * the amount and the day's new total. The main menu comes with both.
   */
  lemma ExpensesSaveAnswer(text: string, store: StoreReplies)
    requires AmountAccepted(Amount(text))
    ensures var o := ExpensesInput(text, store);
            var reply := store.expenses;
            o.state == Idle && o.calls == [SaveExpenses(Amount(text))]
            && ((reply.error.Some? || reply.data.None?) ==> o.replies == [Message(SaveFailed, MainMenu)])
            && ((reply.error.None? && reply.data.Some?) ==>
                  o.replies == [Message(ExpensesAdded(Amount(text), reply.data.value), MainMenu)])
  {
  }

  /** The end date also produces the report of the period from the seeded start date to it. */
  lemma EndDateConsumes(types: seq<string>, start: string, text: string, store: StoreReplies)
    ensures var o := EndDateInput(types, start, text, store);
            Consumes(AwaitingEndDate(start), text, o)
            && (!Refuses(AwaitingEndDate(start), text) ==> o.replies == PeriodReport(types, store, start, text, false))
  {
    if IsValidDate(text) && !Before(text, start) {
      assert EndDateInput(types, start, text, store) == Outcome(Idle, [], PeriodReport(types, store, start, text, false));
    }
  }

  /** Every pending action consumes every text as above; the state switch never reaches the menu. */
  lemma PendingStepConsumes(types: seq<string>, st: State, text: string, store: StoreReplies)
    requires !st.Idle?
    ensures Consumes(st, text, PendingStep(types, st, text, store))
  {
    match st {
      case AwaitingPieQuantity(t) => PieQuantityConsumes(t, text, store);
      case AwaitingRemaining(t, manufactured) => RemainingConsumes(types, t, manufactured, text, store);
      case AwaitingWriteOff(t, remaining) => WriteOffConsumes(types, t, remaining, text, store);
      case AwaitingExpenses => ExpensesConsumes(text, store);
      case AwaitingPrice(t) => PriceConsumes(types, t, text, store);
      case AwaitingStartDate =>
      case AwaitingEndDate(start) => EndDateConsumes(types, start, text, store);
    }
  }

  /** A pending action keeps its state exactly when it refuses the text. */
  lemma RefusedIffStateKept(types: seq<string>, st: State, text: string, store: StoreReplies)
    requires !st.Idle?
    ensures Refuses(st, text) <==> PendingStep(types, st, text, store).state == st
  {
    PendingStepConsumes(types, st, text, store);
  }

  /** The pending action after a run of texts, up to the text that ends it. */
  function AfterTexts(types: seq<string>, st: State, texts: seq<string>, store: StoreReplies): State
    decreases |texts|
  {
    if texts == [] || st.Idle? then st
    else AfterTexts(types, PendingStep(types, st, texts[0], store).state, texts[1..], store)
  }

  /** However many refused texts arrive, the pending action and its seeded data stay. */
  lemma {:induction false} RefusedTextsKeepAction(types: seq<string>, st: State, texts: seq<string>, store: StoreReplies)
    requires !st.Idle?
    requires forall i :: 0 <= i < |texts| ==> Refuses(st, texts[i])
    ensures AfterTexts(types, st, texts, store) == st
    decreases |texts|
  {
    if texts != [] {
      PendingStepConsumes(types, st, texts[0], store);
      RefusedTextsKeepAction(types, st, texts[1..], store);
    }
  }

  /**
   * The confirmation of an added batch is the same whatever total the store
   * read back: the total line always shows "0".
   */
  lemma AddedBatchIgnoresTotal(t: string, text: string, store: StoreReplies, other: StoreReplies)
    requires ParseInt(text).Some? && ParseInt(text).value > 0
    requires store.addRpc.error.None? && other.addRpc.error.None?
    ensures PieQuantityInput(t, text, store) == PieQuantityInput(t, text, other)
    ensures PieQuantityInput(t, text, store).replies == [Message(Added(t, ParseInt(text).value), MainMenu)]
    ensures exists head :: Added(t, ParseInt(text).value) == head + TotalLine("0")
  {
    var q := ParseInt(text).value;
    var head := "✅ Добавлено: " + FormatInt(q) + " \"" + t + "\".";
    assert Added(t, q) == head + TotalLine("0");
  }

  // ---------------------------------------------------------------------------
  // The menu labels while an action is pending
  // ---------------------------------------------------------------------------

  /** A text whose first character can start neither a number, nor a date, nor the word Infinity. */
  predicate StartsAsWord(text: string)
  {
    text != [] && !IsWhitespace(text[0]) && !IsDigit(text[0])
    && text[0] != '+' && text[0] != '-' && text[0] != '.' && text[0] != ',' && text[0] != 'I'
  }

  /** parseInt and parseFloat find no number in such a text, and it is no date. */
  lemma WordIsNoInput(text: string)
    requires StartsAsWord(text)
    ensures ParseInt(text).None? && Amount(text) == NaN && !IsValidDate(text)
  {
    assert TrimStart(text) == text;
    assert LeadingDigits(text) == [];
    var r := ReplaceFirst(text, ',', '.');
    assert r == [text[0]] + ReplaceFirst(text[1..], ',', '.');
    assert TrimStart(r) == r;
    assert SignSplit(r) == (false, r);
    assert !("Infinity" <= r) by {
      assert r[0] != "Infinity"[0];
    }
    assert LeadingDigits(r) == [];
    assert r[0..] == r;
    assert FractionDigits(r) == [];
  }

  /** The labels of the main menu keyboard. */
  predicate MenuLabel(text: string)
  {
    exists i, j :: 0 <= i < |MainKeyboard| && 0 <= j < |MainKeyboard[i]| && MainKeyboard[i][j] == text
  }

  /** Every menu label starts as a word. */
  lemma MenuLabelsStartAsWords(text: string)
    requires MenuLabel(text)
    ensures StartsAsWord(text)
  {
    var i, j :| 0 <= i < |MainKeyboard| && 0 <= j < |MainKeyboard[i]| && MainKeyboard[i][j] == text;
    assert text[0] in {'➕', '📦', '🗑', '💰', '📊', '🛠'};
  }

  /**
   * A menu label typed while an action is pending is consumed by the state
   * switch as a refused input: the action stays and nothing is written.
   */
  lemma MenuLabelWhilePending(types: seq<string>, st: State, text: string, store: StoreReplies)
    requires !st.Idle? && MenuLabel(text)
    ensures Refuses(st, text)
    ensures var o := PendingStep(types, st, text, store);
            o.state == st && o.calls == []
  {
    MenuLabelsStartAsWords(text);
    WordIsNoInput(text);
    PendingStepConsumes(types, st, text, store);
  }

  // ---------------------------------------------------------------------------
  // The menu switch
  // ---------------------------------------------------------------------------

  /**
   * Of the main-menu texts only the expenses label sets an action, no menu
   * text writes to the store, and a text that is no label is not answered.
   */
  lemma MenuOnlyExpensesSetsAction(types: seq<string>, text: string, store: StoreReplies)
    ensures var o := MenuStep(types, text, store);
            o.calls == [] && o.state == (if text == EnterExpensesLabel then AwaitingExpenses else Idle)
            && ((text != AddManufacturedLabel && text != EnterRemainingLabel && text != WriteOffLabel
                 && text != EnterExpensesLabel && text != ShowStatsLabel && text != SettingsLabel) ==> o.replies == [])
  {
  }

  /** A text sent while an action is pending goes to that action and never to the menu switch. */
  lemma PendingNeverReachesMenu(types: seq<string>, st: State, text: string, store: StoreReplies)
    requires !st.Idle?
    ensures MessageStep(types, st, text, store) == PendingStep(types, st, text, store)
  {
  }

  // ---------------------------------------------------------------------------
  // The callback switch
  // ---------------------------------------------------------------------------

  /** `add_pie_<type>` starts the quantity question for that type, whatever was pending. */
  lemma AddPieSelects(types: seq<string>, st: State, t: string, store: StoreReplies, clock: Clock)
    ensures var o := CallbackStep(types, st, AddPiePrefix + t, store, clock);
            o.state == AwaitingPieQuantity(t) && o.calls == []
  {
    var data := AddPiePrefix + t;
    NotStartsWith(data, WriteOffPrefix, 0);
    NotStartsWith(data, StatsPeriodPrefix, 0);
    StartsWithPrefix(AddPiePrefix, t);
  }

  /** `set_price_<type>` starts the price question for that type, whatever was pending. */
  lemma SetPriceSelects(types: seq<string>, st: State, t: string, store: StoreReplies, clock: Clock)
    ensures var o := CallbackStep(types, st, SetPricePrefix + t, store, clock);
            o.state == AwaitingPrice(t) && o.calls == []
  {
    var data := SetPricePrefix + t;
    NotStartsWith(data, WriteOffPrefix, 0);
    NotStartsWith(data, StatsPeriodPrefix, 1);
    NotStartsWith(data, AddPiePrefix, 0);
    NotStartsWith(data, EnterRemainingPrefix, 0);
    StartsWithPrefix(SetPricePrefix, t);
  }

  /**
   * `enter_remaining_<type>` starts the remaining question, seeded with the
   * count made today, exactly when that count is positive; otherwise the
   * pending action stays.
   */
  lemma EnterRemainingSelects(types: seq<string>, st: State, t: string, store: StoreReplies, clock: Clock)
    ensures var o := CallbackStep(types, st, EnterRemainingPrefix + t, store, clock);
            var made := DailyLogEntry(store.dailyLog).manufactured.GetOr(0);
            o.state == (if made > 0 then AwaitingRemaining(t, made) else st) && o.calls == []
  {
    var data := EnterRemainingPrefix + t;
    NotStartsWith(data, WriteOffPrefix, 0);
    NotStartsWith(data, StatsPeriodPrefix, 0);
    NotStartsWith(data, AddPiePrefix, 0);
    StartsWithPrefix(EnterRemainingPrefix, t);
  }

  /**
   * `write_off_<type>` starts the write-off question, seeded with what
   * remains, exactly when something remains; otherwise the pending action stays.
   */
  lemma WriteOffSelects(types: seq<string>, st: State, t: string, store: StoreReplies, clock: Clock)
    ensures var o := CallbackStep(types, st, WriteOffPrefix + t, store, clock);
            var left := DailyLogEntry(store.dailyLog).remaining.GetOr(0);
            o.state == (if left > 0 then AwaitingWriteOff(t, left) else st) && o.calls == []
  {
    StartsWithPrefix(WriteOffPrefix, t);
  }

  /** Of the period selectors only `stats_period_custom` sets a pending action. */
  lemma PeriodSelects(types: seq<string>, st: State, period: string, store: StoreReplies, clock: Clock)
    ensures var o := CallbackStep(types, st, StatsPeriodPrefix + period, store, clock);
            o.state == (if period == "custom" then AwaitingStartDate else st) && o.calls == []
  {
    var data := StatsPeriodPrefix + period;
    NotStartsWith(data, WriteOffPrefix, 0);
    StartsWithPrefix(StatsPeriodPrefix, period);
  }

  /**
   * The fixed periods answer with the report from their first day to today,
   * then acknowledge; a report that rejects on null data is not acknowledged.
   */
  lemma FixedPeriodReports(types: seq<string>, st: State, period: string, store: StoreReplies, clock: Clock)
    requires period == "today" || period == "week" || period == "month"
    ensures var start := if period == "today" then clock.today
                         else if period == "week" then clock.weekStart else clock.monthStart;
            var replies := CallbackStep(types, st, StatsPeriodPrefix + period, store, clock).replies;
            (!store.aggregate.AggregateNull? ==> replies == PeriodReport(types, store, start, clock.today, true) + [Acknowledge])
            && (store.aggregate.AggregateNull? ==> replies == PeriodReport(types, store, start, clock.today, true))
  {
    var data := StatsPeriodPrefix + period;
    NotStartsWith(data, WriteOffPrefix, 0);
    StartsWithPrefix(StatsPeriodPrefix, period);
  }

  /** A selector with none of the five prefixes leaves the pending action as it was. */
  lemma OtherSelectorsKeepState(types: seq<string>, st: State, data: string, store: StoreReplies, clock: Clock)
    requires !StartsWith(data, WriteOffPrefix) && !StartsWith(data, StatsPeriodPrefix)
    requires !StartsWith(data, AddPiePrefix) && !StartsWith(data, EnterRemainingPrefix)
    requires !StartsWith(data, SetPricePrefix)
    ensures var o := CallbackStep(types, st, data, store, clock);
            o.state == st && o.calls == []
            && (StartsWith(data, BackPrefix) || StartsWith(data, NoPiesPrefix) ==>
                  o.replies == [DeleteMessage, Message(ChooseAction, MainMenu), Acknowledge])
  {
    assert CallbackStep(types, st, data, store, clock) == ItemCallbackStep(types, st, data, store);
  }

  /** The back and placeholder buttons of the keyboards return to the main menu. */
  lemma BackButtonsReturnToMenu(types: seq<string>, st: State, b: Button, store: StoreReplies, clock: Clock)
    requires b == BackFromAdd || b == BackFromSettings || b == BackFromRemaining || b == BackFromWriteOff
          || b == NoPiesForRemaining || b == NoPiesForWriteOff
    ensures CallbackStep(types, st, b.data, store, clock)
         == Outcome(st, [], [DeleteMessage, Message(ChooseAction, MainMenu), Acknowledge])
  {
    var data := b.data;
    NotStartsWith(data, WriteOffPrefix, 0);
    NotStartsWith(data, StatsPeriodPrefix, 0);
    NotStartsWith(data, AddPiePrefix, 0);
    NotStartsWith(data, EnterRemainingPrefix, 0);
    NotStartsWith(data, SetPricePrefix, 0);
    if data[0] == 'b' {
      assert StartsWith(data, BackPrefix);
    } else {
      assert StartsWith(data, NoPiesPrefix);
    }
    CallbackOfItem(types, st, data, store, clock);
    ItemOfBack(types, st, data, store);
  }

  /** Data that is neither a write-off nor a period button goes to the item buttons. */
  lemma CallbackOfItem(types: seq<string>, st: State, data: string, store: StoreReplies, clock: Clock)
    requires !StartsWith(data, WriteOffPrefix) && !StartsWith(data, StatsPeriodPrefix)
    ensures CallbackStep(types, st, data, store, clock) == ItemCallbackStep(types, st, data, store)
  {
  }

  /** Data that names no pie button and starts like a back button is a back button. */
  lemma ItemOfBack(types: seq<string>, st: State, data: string, store: StoreReplies)
    requires !StartsWith(data, AddPiePrefix) && !StartsWith(data, EnterRemainingPrefix) && !StartsWith(data, SetPricePrefix)
    requires StartsWith(data, BackPrefix) || StartsWith(data, NoPiesPrefix)
    ensures ItemCallbackStep(types, st, data, store) == BackPressed(st)
  {
  }

  /** The analytics button of the period keyboard has no handler: it is an unknown action. */
  lemma AnalyticsButtonUnhandled(types: seq<string>, st: State, store: StoreReplies, clock: Clock)
    ensures CallbackStep(types, st, StatsPeriodKeyboard[2][0].data, store, clock)
         == Outcome(st, [], [Notice(UnknownAction, false)])
  {
    var data := StatsPeriodKeyboard[2][0].data;
    NotStartsWith(data, WriteOffPrefix, 0);
    NotStartsWith(data, StatsPeriodPrefix, 1);
    NotStartsWith(data, AddPiePrefix, 0);
    NotStartsWith(data, EnterRemainingPrefix, 0);
    NotStartsWith(data, SetPricePrefix, 1);
    NotStartsWith(data, BackPrefix, 0);
    NotStartsWith(data, NoPiesPrefix, 0);
    CallbackOfItem(types, st, data, store, clock);
  }

  // ---------------------------------------------------------------------------
  // Keyboards and callbacks together
  // ---------------------------------------------------------------------------

  /** Pressing row `i` of the add keyboard asks for the quantity of the `i`-th type. */
  lemma AddKeyboardRowSelects(types: seq<string>, i: int, st: State, store: StoreReplies, clock: Clock)
    requires 0 <= i < |types|
    ensures CallbackStep(types, st, PieTypesKeyboard(types)[i][0].data, store, clock).state
         == AwaitingPieQuantity(types[i])
  {
    AddPieSelects(types, st, types[i], store, clock);
  }

  /** Pressing row `i` of the settings keyboard asks for the price of the `i`-th type. */
  lemma SettingsRowSelects(types: seq<string>, prices: map<string, real>, i: int, st: State,
                           store: StoreReplies, clock: Clock)
    requires 0 <= i < |types|
    ensures CallbackStep(types, st, SettingsKeyboard(types, prices)[i][0].data, store, clock).state
         == AwaitingPrice(types[i])
  {
    SetPriceSelects(types, st, types[i], store, clock);
  }
}
