/**
 * The store layer with the remote calls stripped off: every operation takes
 * the `{data, error}` reply the database gave and maps it to what the bot
 * sees. Counts are integers, money is an exact real.
 */
module Db {
  import opened Wrappers
  import opened Seqs
  import opened JsString

  /** A database reply: `data` (None for null) and `error` (its message, None when there is none). */
  datatype Response<T> = Response(data: Option<T>, error: Option<string>)

  // ---------------------------------------------------------------------------
  // Rows to maps
  // ---------------------------------------------------------------------------

  /**
   * `rows.reduce((acc, row) => { acc[key(row)] = value(row); return acc; }, {})`:
   * one entry per key, the last row with a key deciding its value.
   */
  function IndexBy<R, V>(rows: seq<R>, key: R -> string, value: R -> V): (m: map<string, V>)
    ensures m.Keys == set i | 0 <= i < |rows| :: key(rows[i])
    decreases |rows|
  {
    if rows == [] then map[]
    else
      var init := rows[..|rows| - 1];
      var m := IndexBy(init, key, value);
      var last := rows[|rows| - 1];
      assert (set i | 0 <= i < |rows| :: key(rows[i])) == (set i | 0 <= i < |init| :: key(init[i])) + {key(last)} by {
        forall i | 0 <= i < |rows|
          ensures key(rows[i]) in (set i | 0 <= i < |init| :: key(init[i])) + {key(last)}
        {
          if i < |init| {
            assert key(init[i]) == key(rows[i]);
          }
        }
      }
      m[key(last) := value(last)]
  }

  /** Indexing one more row sets that row's key. */
  lemma IndexBySnoc<R, V>(rows: seq<R>, x: R, key: R -> string, value: R -> V)
    ensures IndexBy(rows + [x], key, value) == IndexBy(rows, key, value)[key(x) := value(x)]
  {
    assert (rows + [x])[..|rows + [x]| - 1] == rows;
  }

  /** The value of a key is the one of the last row that has the key. */
  lemma {:induction false} IndexByLastWins<R, V>(rows: seq<R>, key: R -> string, value: R -> V, i: int)
    requires 0 <= i < |rows|
    requires forall j :: i < j < |rows| ==> key(rows[j]) != key(rows[i])
    ensures IndexBy(rows, key, value)[key(rows[i])] == value(rows[i])
    decreases |rows|
  {
    if i < |rows| - 1 {
      var init := rows[..|rows| - 1];
      assert init[i] == rows[i];
      IndexByLastWins(init, key, value, i);
    }
  }

  // ---------------------------------------------------------------------------
  // Prices
  // ---------------------------------------------------------------------------

  /** A `chat_settings` row: the type and its price (None for null). */
  datatype PriceRow = PriceRow(pieType: string, price: Option<real>)

  function PriceRowType(row: PriceRow): string
  {
    row.pieType
  }

  /** parseFloat(item.price || 0) of a stored number: the number, a null price being 0. */
  function PriceRowValue(row: PriceRow): real
  {
    row.price.GetOr(0.0)
  }

  /** Every configured type priced at 0. */
  function ZeroPrices(types: seq<string>): (prices: map<string, real>)
    ensures prices.Keys == set t | t in types
    ensures forall t :: t in prices ==> prices[t] == 0.0
  {
    map t | t in types :: 0.0
  }

  /** The stored prices, one per type that has a row. */
  function StoredPrices(rows: seq<PriceRow>): map<string, real>
  {
    IndexBy(rows, PriceRowType, PriceRowValue)
  }

  /**
   * getPricesFromDb: all configured types at 0 on an error; otherwise the
   * stored prices, with 0 for every configured type that has no row.
   */
  function PriceTable(types: seq<string>, reply: Response<seq<PriceRow>>): (prices: map<string, real>)
    ensures forall t :: t in types ==> t in prices
    ensures reply.error.Some? ==> prices == ZeroPrices(types)
    ensures reply.error.None? ==> forall t :: t in prices <==> t in types || t in StoredPrices(reply.data.GetOr([]))
  {
    if reply.error.Some? then ZeroPrices(types)
    else
      var stored := StoredPrices(reply.data.GetOr([]));
      map k | k in stored.Keys + (set t | t in types) :: if k in stored then stored[k] else 0.0
  }

  /** getPricesFromDb: index the rows, then fill every missing configured type with 0 in place. */
  method GetPricesFromDb(types: seq<string>, reply: Response<seq<PriceRow>>) returns (prices: map<string, real>)
    ensures prices == PriceTable(types, reply)
  {
    if reply.error.Some? {
      return ZeroPrices(types);
    }
    var stored := StoredPrices(reply.data.GetOr([]));
    prices := stored;
    for i := 0 to |types|
      invariant prices.Keys == stored.Keys + (set t | t in types[..i])
      invariant forall k :: k in prices ==> prices[k] == if k in stored then stored[k] else 0.0
    {
      assert types[..i + 1] == types[..i] + [types[i]];
      KeysSnoc(types[..i], types[i]);
      if types[i] !in prices {
        prices := prices[types[i] := 0.0];
      }
    }
    assert types[..|types|] == types;
  }

  /** A configured type with no row, or with a null price, is priced 0; a type's last row sets its price. */
  lemma PriceDefaults(types: seq<string>, rows: seq<PriceRow>, t: string)
    requires t in types
    ensures (forall i :: 0 <= i < |rows| ==> rows[i].pieType != t) ==> PriceTable(types, Response(Some(rows), None))[t] == 0.0
    ensures forall i :: 0 <= i < |rows| && rows[i].pieType == t && (forall j :: i < j < |rows| ==> rows[j].pieType != t)
              ==> PriceTable(types, Response(Some(rows), None))[t] == rows[i].price.GetOr(0.0)
  {
    forall i | 0 <= i < |rows| && rows[i].pieType == t && (forall j :: i < j < |rows| ==> rows[j].pieType != t)
      ensures PriceTable(types, Response(Some(rows), None))[t] == rows[i].price.GetOr(0.0)
    {
      IndexByLastWins(rows, PriceRowType, PriceRowValue, i);
    }
    if forall i :: 0 <= i < |rows| ==> rows[i].pieType != t {
      assert t !in StoredPrices(rows);
    }
  }

  // ---------------------------------------------------------------------------
  // Daily logs
  // ---------------------------------------------------------------------------

  /** A `daily_log` row as selected: any column may be null. */
  datatype LogRow = LogRow(pieType: string, manufactured: Option<int>, remaining: Option<int>, writtenOff: Option<int>)

  /** One type's log for today, as the keyboards read it. */
  datatype LogEntry = LogEntry(manufactured: int, remaining: Option<int>, writtenOff: int)

  function LogRowType(row: LogRow): string
  {
    row.pieType
  }

  /** `manufactured || 0`, `remaining` as given, `written_off || 0`. */
  function LogRowEntry(row: LogRow): LogEntry
  {
    LogEntry(row.manufactured.GetOr(0), row.remaining, row.writtenOff.GetOr(0))
  }

  /** getTodaysLogsGrouped: nothing on an error, otherwise one entry per type that has a row. */
  function TodaysLogs(reply: Response<seq<LogRow>>): (logs: map<string, LogEntry>)
    ensures reply.error.Some? ==> logs == map[]
    ensures reply.error.None? ==>
              forall t :: t in logs <==> exists i :: 0 <= i < |reply.data.GetOr([])| && reply.data.GetOr([])[i].pieType == t
  {
    if reply.error.Some? then map[]
    else
      var rows := reply.data.GetOr([]);
      var logs := IndexBy(rows, LogRowType, LogRowEntry);
      assert forall t :: t in logs <==> exists i :: 0 <= i < |rows| && LogRowType(rows[i]) == t;
      logs
  }

  /** A type's grouped log takes its last row, with null counts read as 0 and a null remaining kept. */
  lemma TodaysLogDefaults(rows: seq<LogRow>, i: int)
    requires 0 <= i < |rows|
    requires forall j :: i < j < |rows| ==> rows[j].pieType != rows[i].pieType
    ensures var e := TodaysLogs(Response(Some(rows), None))[rows[i].pieType];
            e.manufactured == (if rows[i].manufactured.Some? then rows[i].manufactured.value else 0)
            && e.remaining == rows[i].remaining
            && e.writtenOff == (if rows[i].writtenOff.Some? then rows[i].writtenOff.value else 0)
  {
    IndexByLastWins(rows, LogRowType, LogRowEntry, i);
  }

  /** A `daily_log` row fetched with maybeSingle, returned as stored. */
  datatype DailyRow = DailyRow(manufactured: Option<int>, remaining: Option<int>, writtenOff: Option<int>)

  /** The row returned when there is none or the lookup fails. */
  const EmptyDailyRow := DailyRow(Some(0), None, Some(0))

  /** getDailyLogEntry: the stored row, or {manufactured 0, remaining null, written_off 0}. */
  function DailyLogEntry(reply: Response<DailyRow>): (row: DailyRow)
    ensures reply.error.Some? || reply.data.None? ==> row == EmptyDailyRow
    ensures reply.error.None? && reply.data.Some? ==> row == reply.data.value
  {
    if reply.error.Some? then EmptyDailyRow else reply.data.GetOr(EmptyDailyRow)
  }

  // ---------------------------------------------------------------------------
  // Writes
  // ---------------------------------------------------------------------------

  /** What addManufacturedToDb hands back: the day's total as now stored and the RPC's reset flag. */
  datatype ManufacturedResult = ManufacturedResult(newTotal: Option<int>, remainingReset: bool)

  /**
   * addManufacturedToDb: null when the RPC fails; otherwise the freshly read
   * total and `rpcData?.remaining_reset || false`. `rpc.data` is the flag the
   * RPC returned, None when the RPC returned null or no flag.
   */
  function AddManufacturedResult(rpc: Response<bool>, entry: Response<DailyRow>): (r: Option<ManufacturedResult>)
    ensures rpc.error.Some? <==> r.None?
    ensures r.Some? ==> r.value.newTotal == DailyLogEntry(entry).manufactured
    ensures r.Some? ==> (r.value.remainingReset <==> rpc.data == Some(true))
  {
    if rpc.error.Some? then None
    else Some(ManufacturedResult(DailyLogEntry(entry).manufactured, rpc.data.GetOr(false)))
  }

  /** savePriceToDb: whether the upsert went through. */
  function PriceSaved(reply: Response<()>): (saved: bool)
    ensures saved <==> reply.error.None?
  {
    reply.error.None?
  }

  /** saveRemainingToDb: an error, or a null result meaning no row was found, is a failure. */
  function RemainingSaved<T>(reply: Response<T>): (saved: bool)
    ensures saved <==> reply.error.None? && reply.data.Some?
  {
    !(reply.error.Some? || reply.data.None?)
  }

  /** saveExpensesToDb: the RPC's result (the day's new total), or null on an error. */
  function ExpensesTotal(reply: Response<real>): (total: Option<real>)
    ensures reply.error.Some? ==> total.None?
    ensures reply.error.None? ==> total == reply.data
  {
    if reply.error.Some? then None else reply.data
  }

  /** The database's refusal to write off more than is left. */
  const ExceedsRemainingFragment := "не может быть больше остатка"
  const ExceedsRemainingMessage := "Количество для списания превышает остаток."
  const GenericDbErrorMessage := "Произошла ошибка в базе данных."

  /** processWriteOffInDb's answer. */
  datatype WriteOffOutcome = WriteOffDone(newTotal: Option<int>) | WriteOffRefused(message: string)

  /** processWriteOffInDb: the new written-off total, or a message picked from the database error. */
  function WriteOffResult(reply: Response<int>): (r: WriteOffOutcome)
    ensures reply.error.None? <==> r.WriteOffDone?
    ensures r.WriteOffDone? ==> r.newTotal == reply.data
    ensures r.WriteOffRefused? ==>
              (r.message == ExceedsRemainingMessage <==> Contains(reply.error.value, ExceedsRemainingFragment))
    ensures r.WriteOffRefused? ==> r.message == ExceedsRemainingMessage || r.message == GenericDbErrorMessage
  {
    match reply.error
    case None => WriteOffDone(reply.data)
    case Some(message) =>
      WriteOffRefused(if Contains(message, ExceedsRemainingFragment) then ExceedsRemainingMessage else GenericDbErrorMessage)
  }

  // ---------------------------------------------------------------------------
  // Statistics for a period
  // ---------------------------------------------------------------------------

  /** A row of `get_aggregated_stats`: a type's totals over the period, any of them null. */
  datatype AggregateRow = AggregateRow(pieType: string, totalManufactured: Option<int>, totalSold: Option<int>, totalWrittenOff: Option<int>)

  /** The aggregation's data: the rows (logs) and the period's expenses, either null. */
  datatype Aggregated = Aggregated(logs: Option<seq<AggregateRow>>, expenses: Option<real>)

  /** The aggregation RPC's reply: an error, no error but null data, or its data. */
  datatype AggregateReply = AggregateFailed(message: string) | AggregateNull | AggregateOk(data: Aggregated)

  /** A type's totals over the period. */
  datatype Totals = Totals(manufactured: int, sold: int, writtenOff: int)

  const NoTotals := Totals(0, 0, 0)

  function AggregateRowType(row: AggregateRow): string
  {
    row.pieType
  }

  function AggregateRowTotals(row: AggregateRow): Totals
  {
    Totals(row.totalManufactured.GetOr(0), row.totalSold.GetOr(0), row.totalWrittenOff.GetOr(0))
  }

  /** periodTotals: per type, the last row's totals with nulls read as 0. */
  function PeriodTotals(data: Aggregated): map<string, Totals>
  {
    IndexBy(data.logs.GetOr([]), AggregateRowType, AggregateRowTotals)
  }

  /** One type's line of the statistics. */
  datatype PieStats = PieStats(manufactured: int, sold: int, writtenOff: int, revenue: real, price: real, loss: real)

  /** The statistics of a period. */
  datatype PeriodStats = PeriodStats(
    pies: map<string, PieStats>,
    prices: map<string, real>,
    totalRevenue: real,
    expenses: real,
    totalWrittenOff: int,
    lossFromWriteOff: real,
    profit: real,
    start: string,
    end: string)

  /**
   * The line of type `t`: its totals (0 when it has no row), its price (0 when
   * it has none), the revenue of what was sold and the loss of what was
   * written off, each 0 unless its count is positive.
   */
  function PieFor(totals: map<string, Totals>, prices: map<string, real>, t: string): (p: PieStats)
    ensures t !in totals ==> p.manufactured == 0 && p.sold == 0 && p.writtenOff == 0
    ensures t in totals ==> p.manufactured == totals[t].manufactured && p.sold == totals[t].sold && p.writtenOff == totals[t].writtenOff
    ensures p.price == if t in prices then prices[t] else 0.0
    ensures p.sold > 0 ==> p.revenue == p.sold as real * p.price
    ensures p.sold <= 0 ==> p.revenue == 0.0
    ensures p.writtenOff > 0 ==> p.loss == p.writtenOff as real * p.price
    ensures p.writtenOff <= 0 ==> p.loss == 0.0
    ensures p.price >= 0.0 ==> p.revenue >= 0.0 && p.loss >= 0.0
  {
    var row := if t in totals then totals[t] else NoTotals;
    var price := if t in prices then prices[t] else 0.0;
    var revenue := if row.sold > 0 then row.sold as real * price else 0.0;
    var loss := if row.writtenOff > 0 then row.writtenOff as real * price else 0.0;
    ProductSign(row.sold, price);
    ProductSign(row.writtenOff, price);
    PieStats(row.manufactured, row.sold, row.writtenOff, revenue, price, loss)
  }

  /** A positive count times a non-negative price is non-negative. */
  lemma ProductSign(count: int, price: real)
    ensures count > 0 && price >= 0.0 ==> count as real * price >= 0.0
  {
  }

  function Revenue(p: PieStats): real
  {
    p.revenue
  }

  function Loss(p: PieStats): real
  {
    p.loss
  }

  function WrittenOff(p: PieStats): int
  {
    p.writtenOff
  }

  /** The lines of the configured types, in order. */
  function PieLines(types: seq<string>, totals: map<string, Totals>, prices: map<string, real>): (ps: seq<PieStats>)
    ensures |ps| == |types|
    ensures forall i :: 0 <= i < |types| ==> ps[i] == PieFor(totals, prices, types[i])
    decreases |types|
  {
    if types == [] then []
    else PieLines(types[..|types| - 1], totals, prices) + [PieFor(totals, prices, types[|types| - 1])]
  }

  /** The per-type map: one entry for every configured type. */
  function PiesMap(types: seq<string>, totals: map<string, Totals>, prices: map<string, real>): (pies: map<string, PieStats>)
  {
    map t | t in types :: PieFor(totals, prices, t)
  }

  /**
   * How getStatsForPeriod ends: it returns null, it returns the statistics,
   * or it throws because the aggregation returned null data without an error
   * (reading `logs` of null is a TypeError).
   */
  datatype StatsResult = NoStats | Computed(stats: PeriodStats) | Threw

  /**
   * getStatsForPeriod: null when the aggregation fails, a throw when its data
   * is null; otherwise the line of every configured type, the three totals as
   * the sums of those lines, the expenses (0 when null) and
   * profit = revenue - expenses - loss.
   */
  function StatsForPeriod(types: seq<string>, prices: map<string, real>, reply: AggregateReply, start: string, end: string): (r: StatsResult)
    ensures reply.AggregateFailed? <==> r.NoStats?
    ensures reply.AggregateNull? <==> r.Threw?
    ensures r.Computed? ==> r.stats.pies.Keys == set t | t in types
    ensures r.Computed? ==> forall t :: t in types ==> r.stats.pies[t] == PieFor(PeriodTotals(reply.data), prices, t)
    ensures r.Computed? ==>
              var lines := PieLines(types, PeriodTotals(reply.data), prices);
              r.stats.totalRevenue == Sum(lines, Revenue) && r.stats.lossFromWriteOff == Sum(lines, Loss)
              && r.stats.totalWrittenOff == SumInt(lines, WrittenOff)
    ensures r.Computed? ==> r.stats.profit == r.stats.totalRevenue - r.stats.expenses - r.stats.lossFromWriteOff
    ensures r.Computed? ==> r.stats.expenses == reply.data.expenses.GetOr(0.0)
    ensures r.Computed? ==> r.stats.prices == prices && r.stats.start == start && r.stats.end == end
  {
    match reply
    case AggregateFailed(_) => NoStats
    case AggregateNull => Threw
    case AggregateOk(data) =>
      var totals := PeriodTotals(data);
      Computed(StatsOfLines(PiesMap(types, totals, prices), prices, PieLines(types, totals, prices),
                            data.expenses.GetOr(0.0), start, end))
  }

  /** The statistics made of the per-type map and lines: the lines' sums, and profit = revenue - expenses - loss. */
  function StatsOfLines(pies: map<string, PieStats>, prices: map<string, real>, lines: seq<PieStats>,
                        expenses: real, start: string, end: string): (s: PeriodStats)
    ensures s.pies == pies && s.prices == prices && s.expenses == expenses && s.start == start && s.end == end
    ensures s.totalRevenue == Sum(lines, Revenue) && s.lossFromWriteOff == Sum(lines, Loss)
    ensures s.totalWrittenOff == SumInt(lines, WrittenOff)
    ensures s.profit == s.totalRevenue - s.expenses - s.lossFromWriteOff
  {
    var revenue := Sum(lines, Revenue);
    var loss := Sum(lines, Loss);
    PeriodStats(pies, prices, revenue, expenses, SumInt(lines, WrittenOff), loss, revenue - expenses - loss, start, end)
  }

  /** getStatsForPeriod: null on an aggregation error, a throw on null data, otherwise the accumulated lines and the profit. */
  method GetStatsForPeriod(types: seq<string>, prices: map<string, real>, reply: AggregateReply, start: string, end: string)
    returns (stats: StatsResult)
    ensures stats == StatsForPeriod(types, prices, reply, start, end)
  {
    if reply.AggregateFailed? {
      return NoStats;
    }
    if reply.AggregateNull? {
      return Threw;
    }
    var totals := PeriodTotals(reply.data);
    var expenses := reply.data.expenses.GetOr(0.0);
    var pies, totalRevenue, totalWrittenOff, lossFromWriteOff := AccumulatePies(types, totals, prices);
    var profit := totalRevenue - expenses - lossFromWriteOff;
    stats := Computed(PeriodStats(pies, prices, totalRevenue, expenses, totalWrittenOff, lossFromWriteOff, profit, start, end));
  }

  /** getStatsForPeriod's loop: set each configured type's line and add it to the three totals. */
  method AccumulatePies(types: seq<string>, totals: map<string, Totals>, prices: map<string, real>)
    returns (pies: map<string, PieStats>, totalRevenue: real, totalWrittenOff: int, lossFromWriteOff: real)
    ensures pies == PiesMap(types, totals, prices)
    ensures totalRevenue == Sum(PieLines(types, totals, prices), Revenue)
    ensures totalWrittenOff == SumInt(PieLines(types, totals, prices), WrittenOff)
    ensures lossFromWriteOff == Sum(PieLines(types, totals, prices), Loss)
  {
    pies := map[];
    totalRevenue, totalWrittenOff, lossFromWriteOff := 0.0, 0, 0.0;
    assert types[..|types|] == types;
    AccumulatedNone(types, totals, prices);
    for i := 0 to |types|
      invariant Accumulated(types[..i], totals, prices, pies, totalRevenue, totalWrittenOff, lossFromWriteOff)
    {
      var p := PieFor(totals, prices, types[i]);
      AccumulatedStep(types, totals, prices, i, pies, totalRevenue, totalWrittenOff, lossFromWriteOff);
      pies := pies[types[i] := p];
      totalRevenue := totalRevenue + p.revenue;
      totalWrittenOff := totalWrittenOff + p.writtenOff;
      lossFromWriteOff := lossFromWriteOff + p.loss;
    }
  }

  /** Nothing is accumulated before the first type. */
  lemma AccumulatedNone(types: seq<string>, totals: map<string, Totals>, prices: map<string, real>)
    ensures Accumulated(types[..0], totals, prices, map[], 0.0, 0, 0.0)
  {
    assert types[..0] == [];
  }

  /** The per-type map and the three totals of the lines of `done`. */
  predicate Accumulated(done: seq<string>, totals: map<string, Totals>, prices: map<string, real>,
                        pies: map<string, PieStats>, totalRevenue: real, totalWrittenOff: int, lossFromWriteOff: real)
  {
    pies == PiesMap(done, totals, prices)
    && totalRevenue == Sum(PieLines(done, totals, prices), Revenue)
    && totalWrittenOff == SumInt(PieLines(done, totals, prices), WrittenOff)
    && lossFromWriteOff == Sum(PieLines(done, totals, prices), Loss)
  }

  /** Adding the next type's line to what the first `i` types accumulated. */
  lemma AccumulatedStep(types: seq<string>, totals: map<string, Totals>, prices: map<string, real>, i: int,
                        pies: map<string, PieStats>, totalRevenue: real, totalWrittenOff: int, lossFromWriteOff: real)
    requires 0 <= i < |types|
    requires Accumulated(types[..i], totals, prices, pies, totalRevenue, totalWrittenOff, lossFromWriteOff)
    ensures var p := PieFor(totals, prices, types[i]);
            Accumulated(types[..i + 1], totals, prices, pies[types[i] := p],
                        totalRevenue + p.revenue, totalWrittenOff + p.writtenOff, lossFromWriteOff + p.loss)
  {
    PieLinesStep(types, totals, prices, i);
    PiesMapStep(types, totals, prices, i);
  }

  /** The types of a sequence one longer are those of the sequence and the added type. */
  lemma KeysSnoc(shorter: seq<string>, x: string)
    ensures (set t | t in shorter + [x]) == (set t | t in shorter) + {x}
  {
    assert forall t :: t in shorter + [x] <==> t in shorter || t == x;
  }

  /** One more configured type adds its line to the lines and the sums. */
  lemma PieLinesStep(types: seq<string>, totals: map<string, Totals>, prices: map<string, real>, i: int)
    requires 0 <= i < |types|
    ensures var before := PieLines(types[..i], totals, prices);
            var after := PieLines(types[..i + 1], totals, prices);
            var p := PieFor(totals, prices, types[i]);
            Sum(after, Revenue) == Sum(before, Revenue) + p.revenue
            && Sum(after, Loss) == Sum(before, Loss) + p.loss
            && SumInt(after, WrittenOff) == SumInt(before, WrittenOff) + p.writtenOff
  {
    var prefix := types[..i + 1];
    assert prefix[..|prefix| - 1] == types[..i];
    var before := PieLines(types[..i], totals, prices);
    var p := PieFor(totals, prices, types[i]);
    assert PieLines(prefix, totals, prices) == before + [p];
    SumSnoc(before, p, Revenue);
    SumSnoc(before, p, Loss);
    SumIntSnoc(before, p, WrittenOff);
  }

  /** One more configured type adds its entry to the per-type map. */
  lemma PiesMapStep(types: seq<string>, totals: map<string, Totals>, prices: map<string, real>, i: int)
    requires 0 <= i < |types|
    ensures PiesMap(types[..i + 1], totals, prices) == PiesMap(types[..i], totals, prices)[types[i] := PieFor(totals, prices, types[i])]
  {
    assert types[..i + 1] == types[..i] + [types[i]];
    KeysSnoc(types[..i], types[i]);
  }

  // ---------------------------------------------------------------------------
  // Properties of the statistics
  // ---------------------------------------------------------------------------

  /** The lines of two lists of types, one after the other. */
  lemma PieLinesAppend(a: seq<string>, b: seq<string>, totals: map<string, Totals>, prices: map<string, real>)
    ensures PieLines(a + b, totals, prices) == PieLines(a, totals, prices) + PieLines(b, totals, prices)
  {
  }

  /**
   * The three totals add up over the configured types: those of `a + b` are
   * those of `a` plus those of `b`, and a single type contributes its own line.
   */
  lemma TotalsAdd(a: seq<string>, b: seq<string>, prices: map<string, real>, data: Aggregated, start: string, end: string)
    ensures var sa := StatsForPeriod(a, prices, AggregateOk(data), start, end).stats;
            var sb := StatsForPeriod(b, prices, AggregateOk(data), start, end).stats;
            var sab := StatsForPeriod(a + b, prices, AggregateOk(data), start, end).stats;
            sab.totalRevenue == sa.totalRevenue + sb.totalRevenue
            && sab.totalWrittenOff == sa.totalWrittenOff + sb.totalWrittenOff
            && sab.lossFromWriteOff == sa.lossFromWriteOff + sb.lossFromWriteOff
  {
    var totals := PeriodTotals(data);
    PieLinesAppend(a, b, totals, prices);
    var la, lb := PieLines(a, totals, prices), PieLines(b, totals, prices);
    SumAppend(la, lb, Revenue);
    SumAppend(la, lb, Loss);
    SumIntAppend(la, lb, WrittenOff);
  }

  /** A single type's totals are its own revenue, written-off count and loss. */
  lemma TotalsOfOneType(t: string, prices: map<string, real>, data: Aggregated, start: string, end: string)
    ensures var s := StatsForPeriod([t], prices, AggregateOk(data), start, end).stats;
            var p := s.pies[t];
            s.totalRevenue == p.revenue && s.totalWrittenOff == p.writtenOff && s.lossFromWriteOff == p.loss
  {
    var totals := PeriodTotals(data);
    var p := PieFor(totals, prices, t);
    assert [t][..0] == [];
    assert PieLines([t], totals, prices) == [] + [p];
    SumSnoc([], p, Revenue);
    SumSnoc([], p, Loss);
    SumIntSnoc([], p, WrittenOff);
  }

  /** Aggregation rows for types that are not configured change nothing. */
  lemma UnconfiguredRowsIgnored(types: seq<string>, prices: map<string, real>, rows: seq<AggregateRow>, extra: AggregateRow,
                                expenses: Option<real>, start: string, end: string)
    requires extra.pieType !in types
    ensures StatsForPeriod(types, prices, AggregateOk(Aggregated(Some(rows + [extra]), expenses)), start, end)
         == StatsForPeriod(types, prices, AggregateOk(Aggregated(Some(rows), expenses)), start, end)
  {
    var shorter, longer := Aggregated(Some(rows), expenses), Aggregated(Some(rows + [extra]), expenses);
    var before, after := PeriodTotals(shorter), PeriodTotals(longer);
    IndexBySnoc(rows, extra, AggregateRowType, AggregateRowTotals);
    assert after == before[extra.pieType := AggregateRowTotals(extra)];
    SameLines(types, before, after, prices);
    StatsOfSameLines(types, prices, longer, shorter, start, end);
  }

  /** Aggregations with the same expenses whose totals give the same lines give the same statistics. */
  lemma StatsOfSameLines(types: seq<string>, prices: map<string, real>, data: Aggregated, other: Aggregated, start: string, end: string)
    requires data.expenses == other.expenses
    requires PieLines(types, PeriodTotals(data), prices) == PieLines(types, PeriodTotals(other), prices)
    requires PiesMap(types, PeriodTotals(data), prices) == PiesMap(types, PeriodTotals(other), prices)
    ensures StatsForPeriod(types, prices, AggregateOk(data), start, end) == StatsForPeriod(types, prices, AggregateOk(other), start, end)
  {
  }

  /** Totals that agree on the configured types give the same lines and the same per-type map. */
  lemma SameLines(types: seq<string>, totals: map<string, Totals>, other: map<string, Totals>, prices: map<string, real>)
    requires forall t :: t in types ==> (t in totals <==> t in other) && (t in totals ==> totals[t] == other[t])
    ensures PieLines(types, totals, prices) == PieLines(types, other, prices)
    ensures PiesMap(types, totals, prices) == PiesMap(types, other, prices)
  {
    SameLineSeq(types, totals, other, prices);
    SamePiesMap(types, totals, other, prices);
  }

  lemma SameLineSeq(types: seq<string>, totals: map<string, Totals>, other: map<string, Totals>, prices: map<string, real>)
    requires forall t :: t in types ==> (t in totals <==> t in other) && (t in totals ==> totals[t] == other[t])
    ensures PieLines(types, totals, prices) == PieLines(types, other, prices)
  {
    var a, b := PieLines(types, totals, prices), PieLines(types, other, prices);
    forall i | 0 <= i < |types| ensures a[i] == b[i] {
      SameRowSameLine(totals, other, prices, types[i]);
    }
  }

  lemma SamePiesMap(types: seq<string>, totals: map<string, Totals>, other: map<string, Totals>, prices: map<string, real>)
    requires forall t :: t in types ==> (t in totals <==> t in other) && (t in totals ==> totals[t] == other[t])
    ensures PiesMap(types, totals, prices) == PiesMap(types, other, prices)
  {
    var m, n := PiesMap(types, totals, prices), PiesMap(types, other, prices);
    forall t | t in m ensures m[t] == n[t] {
      SameRowSameLine(totals, other, prices, t);
    }
  }

  /** A type whose totals agree in two maps has the same line in both. */
  lemma SameRowSameLine(totals: map<string, Totals>, other: map<string, Totals>, prices: map<string, real>, t: string)
    requires (t in totals <==> t in other) && (t in totals ==> totals[t] == other[t])
    ensures PieFor(totals, prices, t) == PieFor(other, prices, t)
  {
    assert (if t in totals then totals[t] else NoTotals) == (if t in other then other[t] else NoTotals);
  }

  /** With no negative price, revenue and loss are never negative and profit never exceeds revenue less expenses. */
  lemma StatsNonNegative(types: seq<string>, prices: map<string, real>, data: Aggregated, start: string, end: string)
    requires forall t :: t in prices ==> prices[t] >= 0.0
    ensures var s := StatsForPeriod(types, prices, AggregateOk(data), start, end).stats;
            s.totalRevenue >= 0.0 && s.lossFromWriteOff >= 0.0 && s.profit <= s.totalRevenue - s.expenses
  {
    var totals := PeriodTotals(data);
    var lines := PieLines(types, totals, prices);
    SumNonNegative(lines, Revenue);
    SumNonNegative(lines, Loss);
  }

  /** The example's price rows: 100 and 80. */
  function ExamplePriceRows(meat: string, potato: string): seq<PriceRow>
  {
    [PriceRow(meat, Some(100.0)), PriceRow(potato, Some(80.0))]
  }

  /** The example's aggregation rows: 25/20/0 and 15/11/1 made/sold/written off. */
  function ExampleRows(meat: string, potato: string): seq<AggregateRow>
  {
    [AggregateRow(meat, Some(25), Some(20), Some(0)), AggregateRow(potato, Some(15), Some(11), Some(1))]
  }

  /** The example's price table: 100 and 80. */
  lemma ExamplePrices(meat: string, potato: string)
    requires meat != potato
    ensures var prices := PriceTable([meat, potato], Response(Some(ExamplePriceRows(meat, potato)), None));
            prices[meat] == 100.0 && prices[potato] == 80.0
  {
    var priceRows := ExamplePriceRows(meat, potato);
    PriceDefaults([meat, potato], priceRows, meat);
    PriceDefaults([meat, potato], priceRows, potato);
    assert priceRows[0].pieType == meat && priceRows[1].pieType == potato;
  }

  /** The example's period totals: 25/20/0 and 15/11/1. */
  lemma ExampleTotals(meat: string, potato: string)
    requires meat != potato
    ensures var totals := PeriodTotals(Aggregated(Some(ExampleRows(meat, potato)), Some(5000.0)));
            meat in totals && potato in totals && totals[meat] == Totals(25, 20, 0) && totals[potato] == Totals(15, 11, 1)
  {
    var rows := ExampleRows(meat, potato);
    IndexByLastWins(rows, AggregateRowType, AggregateRowTotals, 0);
    IndexByLastWins(rows, AggregateRowType, AggregateRowTotals, 1);
  }

  /** The example's lines: revenue 2000 + 880, loss 0 + 80. */
  lemma ExampleLines(meat: string, potato: string)
    requires meat != potato
    ensures var prices := PriceTable([meat, potato], Response(Some(ExamplePriceRows(meat, potato)), None));
            var totals := PeriodTotals(Aggregated(Some(ExampleRows(meat, potato)), Some(5000.0)));
            var lines := PieLines([meat, potato], totals, prices);
            Sum(lines, Revenue) == 2880.0 && Sum(lines, Loss) == 80.0
  {
    var prices := PriceTable([meat, potato], Response(Some(ExamplePriceRows(meat, potato)), None));
    var totals := PeriodTotals(Aggregated(Some(ExampleRows(meat, potato)), Some(5000.0)));
    ExamplePrices(meat, potato);
    ExampleTotals(meat, potato);
    var pm, pp := PieFor(totals, prices, meat), PieFor(totals, prices, potato);
    assert pm.revenue == 2000.0 && pm.loss == 0.0 && pp.revenue == 880.0 && pp.loss == 80.0;
    assert PieLines([meat, potato], totals, prices) == [pm] + [pp];
    assert [pm] == [] + [pm];
    SumSnoc([], pm, Revenue);
    SumSnoc([pm], pp, Revenue);
    SumSnoc([], pm, Loss);
    SumSnoc([pm], pp, Loss);
  }

  /**
   * Two types priced 100 and 80, 25/20/0 and 15/11/1 made/sold/written off,
   * 5000 of expenses: revenue 2880, loss 80, profit -2200.
   */
  lemma StatsExample(meat: string, potato: string)
    requires meat != potato
    ensures var prices := PriceTable([meat, potato], Response(Some(ExamplePriceRows(meat, potato)), None));
            var s := StatsForPeriod([meat, potato], prices, AggregateOk(Aggregated(Some(ExampleRows(meat, potato)), Some(5000.0))),
                                    "2024-01-01", "2024-01-01");
            s.Computed? && s.stats.totalRevenue == 2880.0 && s.stats.expenses == 5000.0
            && s.stats.lossFromWriteOff == 80.0 && s.stats.profit == -2200.0
            && s.stats.pies[meat].sold == 20 && s.stats.pies[potato].sold == 11
  {
    ExampleLines(meat, potato);
    ExampleTotals(meat, potato);
  }
}
