/**
 * generateAndSendReport: the statistics of a period as one text message. The
 * text is accumulated piece by piece; the model keeps the pieces (`lines`)
 * and the text is their concatenation.
 */
module Report {
  import opened Wrappers
  import opened JsNumber
  import opened Utils
  import opened Db
  import opened Replies
  import opened Seqs
  import Config

  // ---------------------------------------------------------------------------
  // The title and the header
  // ---------------------------------------------------------------------------

  /** The period as the report names it: a single day, or a range. */
  function PeriodTitle(start: string, end: string): (title: string)
    ensures title == "за " + start <==> start == end
  {
    if start == end then "за " + start
    else
      var title := "за период с " + start + " по " + end;
      assert |title| > |"за " + start|;
      title
  }

  /** The header: the scheduled report and the one asked for are worded differently. */
  function ReportHeader(isScheduled: bool, title: string): (header: string)
    ensures header == "Автоматический отчет " + title <==> isScheduled
  {
    if isScheduled then "Автоматический отчет " + title
    else
      var header := "Статистика " + title;
      assert header[0] != ("Автоматический отчет " + title)[0];
      header
  }

  function FailureNotice(title: string): string
  {
    "❌ Не удалось получить статистику " + title + "."
  }

  /** An amount followed by the currency. */
  function Money(x: real): string
  {
    FormatNumber(Num(x)) + " " + Config.CurrencySymbol
  }

  // ---------------------------------------------------------------------------
  // One block per type
  // ---------------------------------------------------------------------------

  /** `stats.pies[type]`, or the zero line priced from `stats.prices` when there is none. */
  function PieStatFor(stats: PeriodStats, t: string): (p: PieStats)
    ensures t in stats.pies ==> p == stats.pies[t]
    ensures t !in stats.pies ==> p.manufactured == 0 && p.sold == 0 && p.writtenOff == 0
                                 && p.price == (if t in stats.prices then stats.prices[t] else 0.0)
  {
    if t in stats.pies then stats.pies[t]
    else PieStats(0, 0, 0, 0.0, if t in stats.prices then stats.prices[t] else 0.0, 0.0)
  }

  /** A piece of the report, appended with one `+=`. */
  datatype Piece =
    | Heading(header: string)
    | PriceOf(pieType: string, price: real)
    | Made(count: int)
    | SoldCount(count: int)
    | WrittenOffCount(count: int, loss: real)
    | RevenueOf(pieType: string, revenue: real)
    | TotalRevenue(amount: real)
    | WriteOffLoss(amount: real)
    | Expenses(amount: real)
    | Profit(amount: real)

  /** The text of a piece. */
  function Text(piece: Piece): string
  {
    match piece
    case Heading(header) => "📊 " + header + ":\n\n"
    case PriceOf(t, price) => "\"" + t + "\" (цена: " + Money(price) + "):\n"
    case Made(n) => "- Изготовлено: " + FormatInt(n) + "\n"
    case SoldCount(n) => "- Продано: " + FormatInt(n) + " шт.\n"
    case WrittenOffCount(n, loss) => "- Списано: " + FormatInt(n) + " шт. (потеря: " + Money(loss) + ")\n"
    case RevenueOf(t, revenue) => "- Выручка (" + t + "): " + Money(revenue) + ".\n\n"
    case TotalRevenue(x) => "Общая выручка: " + Money(x) + ".\n"
    case WriteOffLoss(x) => "🗑️ Потери от списаний: " + Money(x) + ".\n"
    case Expenses(x) => "💸 Расходы за период: " + Money(x) + ".\n"
    case Profit(x) => "📈 Чистая прибыль: " + Money(x) + ".\n"
  }

  /** The block of one type: price, made, sold, the write-off line only when something was written off, revenue. */
  function PieBlock(t: string, p: PieStats): (block: seq<Piece>)
    ensures |block| == if p.writtenOff > 0 then 5 else 4
    ensures block[0] == PriceOf(t, p.price) && block[|block| - 1] == RevenueOf(t, p.revenue)
    ensures (exists k :: 0 <= k < |block| && block[k].WrittenOffCount?) <==> p.writtenOff > 0
    ensures p.writtenOff > 0 ==> block[3] == WrittenOffCount(p.writtenOff, p.loss)
  {
    if p.writtenOff > 0 then
      var block := [PriceOf(t, p.price), Made(p.manufactured), SoldCount(p.sold), WrittenOffCount(p.writtenOff, p.loss), RevenueOf(t, p.revenue)];
      assert block[3].WrittenOffCount?;
      block
    else [PriceOf(t, p.price), Made(p.manufactured), SoldCount(p.sold), RevenueOf(t, p.revenue)]
  }

  /** The text of a sequence of pieces, appended from the left as `+=` does. */
  function Render(pieces: seq<Piece>): string
  {
    if pieces == [] then "" else Render(pieces[..|pieces| - 1]) + Text(pieces[|pieces| - 1])
  }

  lemma RenderSnoc(pieces: seq<Piece>, x: Piece)
    ensures Render(pieces + [x]) == Render(pieces) + Text(x)
  {
    assert (pieces + [x])[..|pieces|] == pieces;
  }

  lemma {:induction false} RenderAppend(a: seq<Piece>, b: seq<Piece>)
    ensures Render(a + b) == Render(a) + Render(b)
    decreases |b|
  {
    if b == [] {
      assert a + b == a;
    } else {
      var b' := b[..|b| - 1];
      var x := b[|b| - 1];
      assert b == b' + [x];
      assert a + b == (a + b') + [x];
      calc {
        Render(a + b);
        Render((a + b') + [x]);
        { RenderSnoc(a + b', x); }
        Render(a + b') + Text(x);
        { RenderAppend(a, b'); }
        (Render(a) + Render(b')) + Text(x);
        { AppendAssoc(Render(a), Render(b'), Text(x)); }
        Render(a) + (Render(b') + Text(x));
        { RenderSnoc(b', x); }
        Render(a) + Render(b);
      }
    }
  }

  /** The blocks of the configured types, in order. */
  function Blocks(types: seq<string>, stats: PeriodStats): seq<Piece>
  {
    if types == [] then []
    else Blocks(types[..|types| - 1], stats) + PieBlock(types[|types| - 1], PieStatFor(stats, types[|types| - 1]))
  }

  lemma BlocksSnoc(types: seq<string>, t: string, stats: PeriodStats)
    ensures Blocks(types + [t], stats) == Blocks(types, stats) + PieBlock(t, PieStatFor(stats, t))
  {
    assert (types + [t])[..|types|] == types;
  }

  lemma {:induction false} BlocksAppend(a: seq<string>, b: seq<string>, stats: PeriodStats)
    ensures Blocks(a + b, stats) == Blocks(a, stats) + Blocks(b, stats)
    decreases |b|
  {
    if b == [] {
      assert a + b == a;
    } else {
      var b' := b[..|b| - 1];
      var t := b[|b| - 1];
      assert b == b' + [t];
      assert a + b == (a + b') + [t];
      var block := PieBlock(t, PieStatFor(stats, t));
      calc {
        Blocks(a + b, stats);
        Blocks((a + b') + [t], stats);
        { BlocksSnoc(a + b', t, stats); }
        Blocks(a + b', stats) + block;
        { BlocksAppend(a, b', stats); }
        (Blocks(a, stats) + Blocks(b', stats)) + block;
        { AppendAssoc(Blocks(a, stats), Blocks(b', stats), block); }
        Blocks(a, stats) + (Blocks(b', stats) + block);
        { BlocksSnoc(b', t, stats); }
        Blocks(a, stats) + Blocks(b, stats);
      }
    }
  }

  /** The summary: total revenue, the loss line only when there was a loss, expenses, profit. */
  function Summary(stats: PeriodStats): (pieces: seq<Piece>)
    ensures |pieces| == if stats.lossFromWriteOff > 0.0 then 4 else 3
    ensures pieces[0] == TotalRevenue(stats.totalRevenue) && pieces[|pieces| - 1] == Profit(stats.profit)
    ensures (exists k :: 0 <= k < |pieces| && pieces[k].WriteOffLoss?) <==> stats.lossFromWriteOff > 0.0
    ensures stats.lossFromWriteOff > 0.0 ==> pieces[1] == WriteOffLoss(stats.lossFromWriteOff)
  {
    if stats.lossFromWriteOff > 0.0 then
      var pieces := [TotalRevenue(stats.totalRevenue), WriteOffLoss(stats.lossFromWriteOff), Expenses(stats.expenses), Profit(stats.profit)];
      assert pieces[1].WriteOffLoss?;
      pieces
    else [TotalRevenue(stats.totalRevenue), Expenses(stats.expenses), Profit(stats.profit)]
  }

  /** The pieces of the report: the header, the blocks, the summary. */
  function ReportPieces(types: seq<string>, header: string, stats: PeriodStats): seq<Piece>
  {
    [Heading(header)] + Blocks(types, stats) + Summary(stats)
  }

  /** The blocks split around the i-th type. */
  lemma BlocksAround(types: seq<string>, stats: PeriodStats, i: int)
    requires 0 <= i < |types|
    ensures Blocks(types, stats)
         == Blocks(types[..i], stats) + (PieBlock(types[i], PieStatFor(stats, types[i])) + Blocks(types[i + 1..], stats))
  {
    var block := PieBlock(types[i], PieStatFor(stats, types[i]));
    assert Blocks([types[i]], stats) == block by {
      BlocksSnoc([], types[i], stats);
      assert [] + [types[i]] == [types[i]];
      assert [] + block == block;
    }
    var rest := [types[i]] + types[i + 1..];
    BlocksAppend([types[i]], types[i + 1..], stats);
    SplitAt(types, i);
    BlocksAppend(types[..i], rest, stats);
  }

  /** The block of the i-th configured type sits right after the header and the blocks before it. */
  lemma BlockInPlace(types: seq<string>, header: string, stats: PeriodStats, i: int)
    requires 0 <= i < |types|
    ensures var pieces := ReportPieces(types, header, stats);
            var at := 1 + |Blocks(types[..i], stats)|;
            var block := PieBlock(types[i], PieStatFor(stats, types[i]));
            at + |block| <= |pieces| && pieces[at..at + |block|] == block
  {
    BlocksAround(types, stats, i);
    SliceMiddle([Heading(header)], Blocks(types[..i], stats), PieBlock(types[i], PieStatFor(stats, types[i])),
                Blocks(types[i + 1..], stats), Summary(stats));
  }

  /** The body of the loop over the types: append the pieces of one block. */
  method AppendPieBlock(report: string, ghost pieces: seq<Piece>, t: string, p: PieStats) returns (r: string)
    requires report == Render(pieces)
    ensures r == Render(pieces + PieBlock(t, p))
  {
    var price, made, sold := PriceOf(t, p.price), Made(p.manufactured), SoldCount(p.sold);
    var lost, revenue := WrittenOffCount(p.writtenOff, p.loss), RevenueOf(t, p.revenue);
    RenderSnoc(pieces, price);
    RenderSnoc(pieces + [price], made);
    RenderSnoc(pieces + [price] + [made], sold);
    r := report + Text(price);
    r := r + Text(made);
    r := r + Text(sold);
    if p.writtenOff > 0 {
      RenderSnoc(pieces + [price] + [made] + [sold], lost);
      RenderSnoc(pieces + [price] + [made] + [sold] + [lost], revenue);
      r := r + Text(lost);
      r := r + Text(revenue);
      SnocFive(pieces, price, made, sold, lost, revenue);
    } else {
      RenderSnoc(pieces + [price] + [made] + [sold], revenue);
      r := r + Text(revenue);
      SnocFour(pieces, price, made, sold, revenue);
    }
  }

  /** The lines after the loop: append the pieces of the summary. */
  method AppendSummary(report: string, ghost pieces: seq<Piece>, stats: PeriodStats) returns (r: string)
    requires report == Render(pieces)
    ensures r == Render(pieces + Summary(stats))
  {
    var total, lost := TotalRevenue(stats.totalRevenue), WriteOffLoss(stats.lossFromWriteOff);
    var spent, profit := Expenses(stats.expenses), Profit(stats.profit);
    RenderSnoc(pieces, total);
    r := report + Text(total);
    if stats.lossFromWriteOff > 0.0 {
      RenderSnoc(pieces + [total], lost);
      RenderSnoc(pieces + [total] + [lost], spent);
      RenderSnoc(pieces + [total] + [lost] + [spent], profit);
      r := r + Text(lost);
      r := r + Text(spent);
      r := r + Text(profit);
      SnocFour(pieces, total, lost, spent, profit);
    } else {
      RenderSnoc(pieces + [total], spent);
      RenderSnoc(pieces + [total] + [spent], profit);
      r := r + Text(spent);
      r := r + Text(profit);
      SnocThree(pieces, total, spent, profit);
    }
  }

  /** The report text, accumulated with `+=` as generateAndSendReport does. */
  method BuildReport(types: seq<string>, header: string, stats: PeriodStats) returns (report: string)
    ensures report == Render(ReportPieces(types, header, stats))
  {
    assert [Heading(header)][..0] == [];
    report := Text(Heading(header));
    for i := 0 to |types|
      invariant report == Render([Heading(header)] + Blocks(types[..i], stats))
    {
      var t := types[i];
      var p := PieStatFor(stats, t);
      report := AppendPieBlock(report, [Heading(header)] + Blocks(types[..i], stats), t, p);
      TakeSnoc(types, i);
      BlocksSnoc(types[..i], t, stats);
      AppendAssoc([Heading(header)], Blocks(types[..i], stats), PieBlock(t, p));
    }
    assert types[..|types|] == types;
    report := AppendSummary(report, [Heading(header)] + Blocks(types, stats), stats);
  }

  // ---------------------------------------------------------------------------
  // What is sent
  // ---------------------------------------------------------------------------

  /**
   * The replies of generateAndSendReport: a progress edit of the pressed
   * message (or a typing action when there is none), then the failure notice
   * or the report, both with the main menu; nothing more when the statistics
   * throw.
   */
  function ReportReplies(types: seq<string>, stats: StatsResult, start: string, end: string,
                         fromMessage: bool, isScheduled: bool): seq<Reply>
  {
    var title := PeriodTitle(start, end);
    var progress := if fromMessage then Progress("⏳ Загружаю статистику " + title + "...") else Typing;
    match stats
    case NoStats => [progress, Message(FailureNotice(title), MainMenu)]
    case Threw => [progress]
    case Computed(s) => [progress, Message(Render(ReportPieces(types, ReportHeader(isScheduled, title), s)), MainMenu)]
  }

  /**
   * generateAndSendReport over the store's price and aggregation replies;
   * `completed` is false when it rejects, which its caller does not catch.
   */
  method GenerateAndSendReport(types: seq<string>, prices: Response<seq<PriceRow>>, aggregate: AggregateReply,
                               start: string, end: string, fromMessage: bool, isScheduled: bool)
    returns (replies: seq<Reply>, completed: bool)
    ensures replies == ReportReplies(types, StatsForPeriod(types, PriceTable(types, prices), aggregate, start, end),
                                     start, end, fromMessage, isScheduled)
    ensures completed <==> !aggregate.AggregateNull?
  {
    var title := PeriodTitle(start, end);
    var header := ReportHeader(isScheduled, title);
    var progress := if fromMessage then Progress("⏳ Загружаю статистику " + title + "...") else Typing;
    var table := GetPricesFromDb(types, prices);
    var stats := GetStatsForPeriod(types, table, aggregate, start, end);
    completed := true;
    if stats.NoStats? {
      replies := [progress, Message(FailureNotice(title), MainMenu)];
      return;
    }
    if stats.Threw? {
      replies := [progress];
      completed := false;
      return;
    }
    var report := BuildReport(types, header, stats.stats);
    replies := [progress, Message(report, MainMenu)];
  }

  // ---------------------------------------------------------------------------
  // Properties
  // ---------------------------------------------------------------------------

  /** A failed aggregation yields only the failure notice after the progress action. */
  lemma FailureOnlyNotice(types: seq<string>, prices: map<string, real>, message: string, start: string, end: string,
                          fromMessage: bool, isScheduled: bool)
    ensures var replies := ReportReplies(types, StatsForPeriod(types, prices, AggregateFailed(message), start, end),
                                         start, end, fromMessage, isScheduled);
            |replies| == 2 && replies[1] == Message(FailureNotice(PeriodTitle(start, end)), MainMenu)
  {
  }

  /** For a successful aggregation every configured type's block shows the line the statistics computed. */
  lemma BlocksShowComputedLines(types: seq<string>, prices: map<string, real>, data: Aggregated, start: string, end: string, t: string)
    requires t in types
    ensures var stats := StatsForPeriod(types, prices, AggregateOk(data), start, end);
            stats.Computed? && PieStatFor(stats.stats, t) == PieFor(PeriodTotals(data), prices, t)
  {
  }

  /** Null aggregation data without an error sends the progress action and neither the notice nor a report. */
  lemma NullDataOnlyProgress(types: seq<string>, prices: map<string, real>, start: string, end: string,
                             fromMessage: bool, isScheduled: bool)
    ensures var replies := ReportReplies(types, StatsForPeriod(types, prices, AggregateNull, start, end),
                                         start, end, fromMessage, isScheduled);
            |replies| == 1 && !replies[0].Message?
  {
  }

  /** A type's block holds a write-off piece exactly when something of it was written off. */
  lemma WriteOffLineIff(types: seq<string>, header: string, stats: PeriodStats, i: int)
    requires 0 <= i < |types|
    ensures var p := PieStatFor(stats, types[i]);
            var pieces := ReportPieces(types, header, stats);
            var at := 1 + |Blocks(types[..i], stats)|;
            var n := |PieBlock(types[i], p)|;
            at + n <= |pieces|
            && var block := pieces[at..at + n];
               ((exists k :: 0 <= k < |block| && block[k].WrittenOffCount?) <==> p.writtenOff > 0)
  {
    BlockInPlace(types, header, stats, i);
  }

  /** The summary closes the report and holds the loss piece exactly when there was a loss. */
  lemma LossLineIff(types: seq<string>, header: string, stats: PeriodStats)
    ensures var pieces := ReportPieces(types, header, stats);
            var n := |Summary(stats)|;
            n <= |pieces|
            && var summary := pieces[|pieces| - n..];
               ((exists k :: 0 <= k < |summary| && summary[k].WriteOffLoss?) <==> stats.lossFromWriteOff > 0.0)
  {
    SliceTail([Heading(header)] + Blocks(types, stats), Summary(stats));
  }
}
