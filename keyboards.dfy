/**
 * The menus the bot shows: the fixed reply keyboard, and the inline keyboards
 * built from the configured types and the data fetched for the chat. An
 * inline keyboard is a list of rows, each a list of (label, selector) buttons.
 */
module Keyboards {
  import opened Wrappers
  import opened Seqs
  import opened JsNumber
  import opened Utils
  import opened Db
  import Config

  /** An inline button: its label and the selector (callback data) it sends back. */
  datatype Button = Button(text: string, data: string)

  type Keyboard = seq<seq<Button>>

  // The reply keyboard of the main menu; each label is also the text the button sends.
  const AddManufacturedLabel := "➕ Добавить изготовленные пирожки"
  const EnterRemainingLabel := "📦 Ввести остатки"
  const WriteOffLabel := "🗑️ Списать продукцию"
  const EnterExpensesLabel := "💰 Ввести расходы"
  const ShowStatsLabel := "📊 Посмотреть статистику"
  const SettingsLabel := "🛠 Настройки"

  const MainKeyboard: seq<seq<string>> := [
    [AddManufacturedLabel],
    [EnterRemainingLabel, WriteOffLabel],
    [EnterExpensesLabel, ShowStatsLabel],
    [SettingsLabel]
  ]

  // Selector prefixes and fixed selectors.
  const AddPiePrefix := "add_pie_"
  const SetPricePrefix := "set_price_"
  const EnterRemainingPrefix := "enter_remaining_"
  const WriteOffPrefix := "write_off_"
  const StatsPeriodPrefix := "stats_period_"

  const BackFromAdd := Button("🔙 Назад", "back_to_main_from_add")
  const BackFromSettings := Button("🔙 Назад в гл. меню", "back_to_main_from_settings")
  const BackFromRemaining := Button("🔙 Назад в гл. меню", "back_to_main_from_remaining")
  const BackFromWriteOff := Button("🔙 Назад в гл. меню", "back_to_main_from_writeoff")
  const NoPiesForRemaining := Button("Сначала добавьте изготовленные пирожки", "no_pies_for_remaining")
  const NoPiesForWriteOff := Button("Нет продукции с остатками для списания", "no_pies_for_writeoff")

  /** The period menu of the statistics. */
  const StatsPeriodKeyboard: Keyboard := [
    [Button("📈 За сегодня", "stats_period_today"), Button("📅 За неделю", "stats_period_week")],
    [Button("🗓️ За месяц", "stats_period_month"), Button("✍️ Выбрать даты", "stats_period_custom")],
    [Button("🧠 Аналитика", "show_analytics_menu")],
    [Button("🔙 Назад", "back_to_main_from_stats")]
  ]

  /** The selectors of a keyboard's first buttons, one per row. */
  predicate HasSelector(kb: Keyboard, selector: string)
  {
    exists i :: 0 <= i < |kb| && |kb[i]| >= 1 && kb[i][0].data == selector
  }

  /** Putting the same prefix before two texts gives the same string only for the same text. */
  lemma PrefixInjective(prefix: string, a: string, b: string)
    requires prefix + a == prefix + b
    ensures a == b
  {
    assert a == (prefix + a)[|prefix|..];
    assert b == (prefix + b)[|prefix|..];
  }

  /**
   * A keyboard made of one row per chosen text, each selecting `prefix + text`,
   * followed by fixed rows whose selectors start differently, offers
   * `prefix + t` exactly for the chosen texts.
   */
  lemma SelectorsOfRows(rows: Keyboard, tail: Keyboard, chosen: seq<string>, prefix: string, t: string)
    requires |prefix| > 0 && |rows| == |chosen|
    requires forall i :: 0 <= i < |rows| ==> |rows[i]| >= 1 && rows[i][0].data == prefix + chosen[i]
    requires forall i :: 0 <= i < |tail| ==> |tail[i]| >= 1 && |tail[i][0].data| > 0 && tail[i][0].data[0] != prefix[0]
    ensures HasSelector(rows + tail, prefix + t) <==> t in chosen
  {
    var kb := rows + tail;
    if HasSelector(kb, prefix + t) {
      var i :| 0 <= i < |kb| && |kb[i]| >= 1 && kb[i][0].data == prefix + t;
      if i < |rows| {
        PrefixInjective(prefix, chosen[i], t);
      }
    }
    if t in chosen {
      var i :| 0 <= i < |chosen| && chosen[i] == t;
      assert kb[i] == rows[i];
    }
  }

  // ---------------------------------------------------------------------------
  // pieTypesKeyboard
  // ---------------------------------------------------------------------------

  function AddPieButton(t: string): Button
  {
    Button(t, AddPiePrefix + t)
  }

  function AddPieRows(types: seq<string>): (rows: Keyboard)
    ensures |rows| == |types|
    ensures forall i :: 0 <= i < |types| ==> rows[i] == [AddPieButton(types[i])]
    decreases |types|
  {
    if types == [] then [] else [[AddPieButton(types[0])]] + AddPieRows(types[1..])
  }

  /** pieTypesKeyboard: a row per configured type, in order, then the back row. */
  function PieTypesKeyboard(types: seq<string>): (kb: Keyboard)
    ensures |kb| == |types| + 1
    ensures forall i :: 0 <= i < |types| ==> kb[i] == [Button(types[i], AddPiePrefix + types[i])]
    ensures kb[|types|] == [BackFromAdd]
  {
    AddPieRows(types) + [[BackFromAdd]]
  }

  /** The add keyboard offers `add_pie_<t>` exactly for the configured types. */
  lemma AddSelectors(types: seq<string>, t: string)
    ensures HasSelector(PieTypesKeyboard(types), AddPiePrefix + t) <==> t in types
  {
    SelectorsOfRows(AddPieRows(types), [[BackFromAdd]], types, AddPiePrefix, t);
  }

  // ---------------------------------------------------------------------------
  // createSettingsKeyboard
  // ---------------------------------------------------------------------------

  const PriceNotSet := "(не задана)"

  /** A positive price as the settings label shows it: the formatted amount and the currency. */
  function PricedText(amount: string): (text: string)
    ensures text != PriceNotSet
  {
    var text := "(" + amount + " " + Config.CurrencySymbol + ")";
    assert text[|text| - 2] == Config.CurrencySymbol[|Config.CurrencySymbol| - 1];
    text
  }

  /** The price part of a settings label: the formatted price exactly when it is positive. */
  function PriceText(prices: map<string, real>, t: string): (text: string)
    ensures t in prices && prices[t] > 0.0 ==> text == PricedText(FormatNumber(Num(prices[t])))
    ensures text == PriceNotSet <==> !(t in prices && prices[t] > 0.0)
  {
    if t in prices && prices[t] > 0.0 then PricedText(FormatNumber(Num(prices[t]))) else PriceNotSet
  }

  function SettingsButton(prices: map<string, real>, t: string): Button
  {
    Button("💲 " + t + " " + PriceText(prices, t), SetPricePrefix + t)
  }

  function SettingsRows(types: seq<string>, prices: map<string, real>): (rows: Keyboard)
    ensures |rows| == |types|
    ensures forall i :: 0 <= i < |types| ==> rows[i] == [SettingsButton(prices, types[i])]
    decreases |types|
  {
    if types == [] then [] else [[SettingsButton(prices, types[0])]] + SettingsRows(types[1..], prices)
  }

  /** createSettingsKeyboard: a `set_price_<t>` row per configured type, then the back row. */
  function SettingsKeyboard(types: seq<string>, prices: map<string, real>): (kb: Keyboard)
    ensures |kb| == |types| + 1
    ensures forall i :: 0 <= i < |types| ==>
              kb[i] == [Button("💲 " + types[i] + " " + PriceText(prices, types[i]), SetPricePrefix + types[i])]
    ensures kb[|types|] == [BackFromSettings]
  {
    SettingsRows(types, prices) + [[BackFromSettings]]
  }


  /** The settings keyboard offers `set_price_<t>` exactly for the configured types. */
  lemma SettingsSelectors(types: seq<string>, prices: map<string, real>, t: string)
    ensures HasSelector(SettingsKeyboard(types, prices), SetPricePrefix + t) <==> t in types
  {
    SelectorsOfRows(SettingsRows(types, prices), [[BackFromSettings]], types, SetPricePrefix, t);
  }

  // ---------------------------------------------------------------------------
  // createRemainingKeyboard
  // ---------------------------------------------------------------------------

  /** `logs[t]?.manufactured || 0`. */
  function ManufacturedToday(logs: map<string, LogEntry>, t: string): int
  {
    if t in logs then logs[t].manufactured else 0
  }

  /** `logs[t]?.remaining || 0`. */
  function RemainingToday(logs: map<string, LogEntry>, t: string): int
  {
    if t in logs && logs[t].remaining.Some? then logs[t].remaining.value else 0
  }

  /** `logs[t]?.written_off || 0`. */
  function WrittenOffToday(logs: map<string, LogEntry>, t: string): int
  {
    if t in logs then logs[t].writtenOff else 0
  }

  /** The filter of the remaining keyboard. */
  function HasManufactured(logs: map<string, LogEntry>): string -> bool
  {
    t => ManufacturedToday(logs, t) > 0
  }

  /** The filter of the write-off keyboard. */
  function HasRemaining(logs: map<string, LogEntry>): string -> bool
  {
    t => RemainingToday(logs, t) > 0
  }

  const RemainingNotEntered := "не введено"

  /** The remaining part of a label: the stored count as String writes it, or "не введено". */
  function RemainingText(logs: map<string, LogEntry>, t: string): (text: string)
    ensures text == RemainingNotEntered <==> !(t in logs && logs[t].remaining.Some?)
  {
    if t in logs && logs[t].remaining.Some? then
      var text := IntToString(logs[t].remaining.value);
      assert text[0] != RemainingNotEntered[0];
      text
    else RemainingNotEntered
  }

  /** A stored remaining count, 0 included, is shown as String writes it, so it reads back as that count. */
  lemma RemainingTextShowsCount(logs: map<string, LogEntry>, t: string)
    requires t in logs && logs[t].remaining.Some?
    ensures RemainingText(logs, t) == IntToString(logs[t].remaining.value)
    ensures ParseInt(RemainingText(logs, t)) == Some(logs[t].remaining.value)
  {
    ParseIntRoundTrip(logs[t].remaining.value);
  }

  function RemainingButton(logs: map<string, LogEntry>, t: string): Button
  {
    Button("📦 " + t + " (" + FormatInt(ManufacturedToday(logs, t)) + " / " + RemainingText(logs, t) + ")",
           EnterRemainingPrefix + t)
  }

  function RemainingRows(chosen: seq<string>, logs: map<string, LogEntry>): (rows: Keyboard)
    ensures |rows| == |chosen|
    ensures forall i :: 0 <= i < |chosen| ==> rows[i] == [RemainingButton(logs, chosen[i])]
    decreases |chosen|
  {
    if chosen == [] then [] else [[RemainingButton(logs, chosen[0])]] + RemainingRows(chosen[1..], logs)
  }

  /**
   * createRemainingKeyboard: a row per configured type made today, in order,
   * then the back row; a placeholder row before the back row when there is none.
   */
  function RemainingKeyboard(types: seq<string>, logs: map<string, LogEntry>): (kb: Keyboard)
    ensures var chosen := Filter(types, HasManufactured(logs));
            |kb| == |chosen| + 1 + (if chosen == [] then 1 else 0)
            && (forall i :: 0 <= i < |chosen| ==> kb[i] == [RemainingButton(logs, chosen[i])])
            && kb[|kb| - 1] == [BackFromRemaining]
            && (chosen == [] ==> kb == [[NoPiesForRemaining], [BackFromRemaining]])
  {
    var rows := RemainingRows(Filter(types, HasManufactured(logs)), logs);
    rows + (if |rows| > 0 then [[BackFromRemaining]] else [[NoPiesForRemaining], [BackFromRemaining]])
  }

  /** The remaining keyboard offers `enter_remaining_<t>` exactly for the configured types made today. */
  lemma RemainingSelectors(types: seq<string>, logs: map<string, LogEntry>, t: string)
    ensures HasSelector(RemainingKeyboard(types, logs), EnterRemainingPrefix + t)
        <==> t in types && ManufacturedToday(logs, t) > 0
  {
    var chosen := Filter(types, HasManufactured(logs));
    var rows := RemainingRows(chosen, logs);
    var tail := if |rows| > 0 then [[BackFromRemaining]] else [[NoPiesForRemaining], [BackFromRemaining]];
    assert RemainingKeyboard(types, logs) == rows + tail;
    SelectorsOfRows(rows, tail, chosen, EnterRemainingPrefix, t);
    assert HasManufactured(logs)(t) == (ManufacturedToday(logs, t) > 0);
  }

  // ---------------------------------------------------------------------------
  // createWriteOffKeyboard
  // ---------------------------------------------------------------------------

  function WriteOffButton(logs: map<string, LogEntry>, t: string): Button
  {
    Button("🗑️ " + t + " (остаток: " + IntToString(RemainingToday(logs, t))
           + ", списано: " + IntToString(WrittenOffToday(logs, t)) + ")",
           WriteOffPrefix + t)
  }

  function WriteOffRows(chosen: seq<string>, logs: map<string, LogEntry>): (rows: Keyboard)
    ensures |rows| == |chosen|
    ensures forall i :: 0 <= i < |chosen| ==> rows[i] == [WriteOffButton(logs, chosen[i])]
    decreases |chosen|
  {
    if chosen == [] then [] else [[WriteOffButton(logs, chosen[0])]] + WriteOffRows(chosen[1..], logs)
  }

  /**
   * createWriteOffKeyboard: a row per configured type with something left, in
   * order, then the back row; only a placeholder row when there is none.
   */
  function WriteOffKeyboard(types: seq<string>, logs: map<string, LogEntry>): (kb: Keyboard)
    ensures var chosen := Filter(types, HasRemaining(logs));
            (chosen == [] ==> kb == [[NoPiesForWriteOff]])
            && (chosen != [] ==>
                  |kb| == |chosen| + 1
                  && (forall i :: 0 <= i < |chosen| ==> kb[i] == [WriteOffButton(logs, chosen[i])])
                  && kb[|chosen|] == [BackFromWriteOff])
  {
    var rows := WriteOffRows(Filter(types, HasRemaining(logs)), logs);
    rows + (if |rows| > 0 then [[BackFromWriteOff]] else [[NoPiesForWriteOff]])
  }

  /** The write-off keyboard offers `write_off_<t>` exactly for the configured types with something left. */
  lemma WriteOffSelectors(types: seq<string>, logs: map<string, LogEntry>, t: string)
    ensures HasSelector(WriteOffKeyboard(types, logs), WriteOffPrefix + t)
        <==> t in types && RemainingToday(logs, t) > 0
  {
    var chosen := Filter(types, HasRemaining(logs));
    var rows := WriteOffRows(chosen, logs);
    var tail := if |rows| > 0 then [[BackFromWriteOff]] else [[NoPiesForWriteOff]];
    assert WriteOffKeyboard(types, logs) == rows + tail;
    SelectorsOfRows(rows, tail, chosen, WriteOffPrefix, t);
    assert HasRemaining(logs)(t) == (RemainingToday(logs, t) > 0);
  }

  // ---------------------------------------------------------------------------
  // The builders as the handlers call them: fetch, map the rows, then push the
  // trailing rows onto the button list.
  // ---------------------------------------------------------------------------

  /** createSettingsKeyboard over the price reply of the store. */
  method CreateSettingsKeyboard(types: seq<string>, reply: Response<seq<PriceRow>>) returns (kb: Keyboard)
    ensures kb == SettingsKeyboard(types, PriceTable(types, reply))
  {
    var prices := GetPricesFromDb(types, reply);
    kb := SettingsRows(types, prices);
    kb := kb + [[BackFromSettings]];
  }

  /** createRemainingKeyboard over the today-logs reply of the store. */
  method CreateRemainingKeyboard(types: seq<string>, reply: Response<seq<LogRow>>) returns (kb: Keyboard)
    ensures kb == RemainingKeyboard(types, TodaysLogs(reply))
  {
    var logs := TodaysLogs(reply);
    kb := RemainingRows(Filter(types, HasManufactured(logs)), logs);
    if |kb| > 0 {
      kb := kb + [[BackFromRemaining]];
    } else {
      kb := kb + [[NoPiesForRemaining]];
      kb := kb + [[BackFromRemaining]];
    }
  }

  /** createWriteOffKeyboard over the today-logs reply of the store. */
  method CreateWriteOffKeyboard(types: seq<string>, reply: Response<seq<LogRow>>) returns (kb: Keyboard)
    ensures kb == WriteOffKeyboard(types, TodaysLogs(reply))
  {
    var logs := TodaysLogs(reply);
    kb := WriteOffRows(Filter(types, HasRemaining(logs)), logs);
    if |kb| > 0 {
      kb := kb + [[BackFromWriteOff]];
    } else {
      kb := kb + [[NoPiesForWriteOff]];
    }
  }
}
