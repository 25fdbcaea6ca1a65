/** The daily statistics card of the admin analytics screen: today's record, or,
    when today shows no sales, a fold over the last seven days' records
    (src/pages/admin/AdminAnalytics.jsx). */
module Analytics {
  import opened JsValue
  import opened Text

  /** One day's record as the analytics endpoints send it; any field may be absent or null. */
  datatype RawStat = RawStat(
    dailyRevenue: Option<real>,
    totalOrders: Option<int>,
    completedOrders: Option<int>,
    averageOrderValue: Option<real>,
    cancelledOrders: Option<int>,
    totalProducts: Option<int>,
    totalCustomers: Option<int>)

  /** The record the screen stores in `dailyStats` and renders. */
  datatype Stat = Stat(
    dailyRevenue: real,
    totalOrders: int,
    completedOrders: int,
    averageOrderValue: real,
    cancelledOrders: int,
    totalProducts: int,
    totalCustomers: int)

  /** The accumulator of the seven-day fold: flow counts are summed, snapshot counts maximised. */
  datatype Totals = Totals(
    dailyRevenue: real,
    totalOrders: int,
    completedOrders: int,
    cancelledOrders: int,
    totalProducts: int,
    totalCustomers: int)

  /** Which record the card shows; the screen raises a different toast for each. */
  datatype Source = Today | AggregatedRange | Empty

  datatype Notice = Silent | Info(text: string) | Warning(text: string) | Error(text: string)

  const NoTotals := Totals(0.0, 0, 0, 0, 0, 0)
  const EmptyStat := Stat(0.0, 0, 0, 0.0, 0, 0, 0)

  function Max(a: int, b: int): int {
    if a >= b then a else b
  }

  // ---------------------------------------------------------------------------
  // Today's record

  /** Every field of the response `|| 0`, before any test or arithmetic. */
  function Defaulted(raw: RawStat): Stat {
    Stat(
      RealOr(raw.dailyRevenue, 0.0),
      IntOr(raw.totalOrders, 0),
      IntOr(raw.completedOrders, 0),
      RealOr(raw.averageOrderValue, 0.0),
      IntOr(raw.cancelledOrders, 0),
      IntOr(raw.totalProducts, 0),
      IntOr(raw.totalCustomers, 0))
  }

  /** A missing field of the response reads as 0 and a present one keeps its value: a
      present 0 is falsy, but it defaults to 0 anyway. */
  lemma DefaultedFields(raw: RawStat)
    ensures raw.dailyRevenue.None? ==> Defaulted(raw).dailyRevenue == 0.0
    ensures raw.dailyRevenue.Some? ==> Defaulted(raw).dailyRevenue == raw.dailyRevenue.value
    ensures raw.totalOrders.None? ==> Defaulted(raw).totalOrders == 0
    ensures raw.totalOrders.Some? ==> Defaulted(raw).totalOrders == raw.totalOrders.value
    ensures raw.completedOrders.None? ==> Defaulted(raw).completedOrders == 0
    ensures raw.completedOrders.Some? ==> Defaulted(raw).completedOrders == raw.completedOrders.value
    ensures raw.averageOrderValue.None? ==> Defaulted(raw).averageOrderValue == 0.0
    ensures raw.averageOrderValue.Some? ==> Defaulted(raw).averageOrderValue == raw.averageOrderValue.value
    ensures raw.cancelledOrders.None? ==> Defaulted(raw).cancelledOrders == 0
    ensures raw.cancelledOrders.Some? ==> Defaulted(raw).cancelledOrders == raw.cancelledOrders.value
    ensures raw.totalProducts.None? ==> Defaulted(raw).totalProducts == 0
    ensures raw.totalProducts.Some? ==> Defaulted(raw).totalProducts == raw.totalProducts.value
    ensures raw.totalCustomers.None? ==> Defaulted(raw).totalCustomers == 0
    ensures raw.totalCustomers.Some? ==> Defaulted(raw).totalCustomers == raw.totalCustomers.value
  {
  }

  /** "Has data": revenue, orders or completed orders is positive; cancellations and the
      snapshot counts are not consulted. */
  predicate HasData(s: Stat) {
    s.dailyRevenue > 0.0 || s.totalOrders > 0 || s.completedOrders > 0
  }

  // ---------------------------------------------------------------------------
  // The seven-day fold

  /** One step of the `reduce` callback. */
  function Step(acc: Totals, curr: RawStat): Totals {
    var c := Defaulted(curr);
    Totals(
      acc.dailyRevenue + c.dailyRevenue,
      acc.totalOrders + c.totalOrders,
      acc.completedOrders + c.completedOrders,
      acc.cancelledOrders + c.cancelledOrders,
      Max(acc.totalProducts, c.totalProducts),
      Max(acc.totalCustomers, c.totalCustomers))
  }

  /** `records.reduce(Step, acc)`: a left fold. */
  function Fold(acc: Totals, records: seq<RawStat>): Totals
    decreases |records|
  {
    if records == [] then acc else Fold(Step(acc, records[0]), records[1..])
  }

  /** Sum of the (defaulted) revenue over the records. */
  function Revenue(records: seq<RawStat>): real {
    if records == [] then 0.0 else Defaulted(records[0]).dailyRevenue + Revenue(records[1..])
  }

  datatype Count = TotalOrders | CompletedOrders | CancelledOrders | TotalProducts | TotalCustomers

  function Get(s: Stat, c: Count): int {
    match c
    case TotalOrders => s.totalOrders
    case CompletedOrders => s.completedOrders
    case CancelledOrders => s.cancelledOrders
    case TotalProducts => s.totalProducts
    case TotalCustomers => s.totalCustomers
  }

  /** Sum of one (defaulted) count over the records. */
  function Sum(records: seq<RawStat>, c: Count): int {
    if records == [] then 0 else Get(Defaulted(records[0]), c) + Sum(records[1..], c)
  }

  /** The largest (defaulted) value of one count over the records, and 0 if that is larger. */
  function Peak(records: seq<RawStat>, c: Count): (m: int)
    ensures m >= 0
    ensures forall i :: 0 <= i < |records| ==> Get(Defaulted(records[i]), c) <= m
    ensures m == 0 || exists i :: 0 <= i < |records| && Get(Defaulted(records[i]), c) == m
  {
    if records == [] then 0
    else
      var rest := Peak(records[1..], c);
      var m := Max(Get(Defaulted(records[0]), c), rest);
      assert forall i :: 1 <= i < |records| ==> records[i] == records[1..][i - 1];
      m
  }

  /** What the fold is meant to compute, stated field by field without reference to the fold. */
  function Aggregate(records: seq<RawStat>): Totals {
    Totals(
      Revenue(records),
      Sum(records, TotalOrders),
      Sum(records, CompletedOrders),
      Sum(records, CancelledOrders),
      Peak(records, TotalProducts),
      Peak(records, TotalCustomers))
  }

  /** Adds sums and takes maxima, as one fold step does with a whole record. */
  function Combine(a: Totals, b: Totals): Totals {
    Totals(
      a.dailyRevenue + b.dailyRevenue,
      a.totalOrders + b.totalOrders,
      a.completedOrders + b.completedOrders,
      a.cancelledOrders + b.cancelledOrders,
      Max(a.totalProducts, b.totalProducts),
      Max(a.totalCustomers, b.totalCustomers))
  }

  lemma {:induction false} FoldCombines(acc: Totals, records: seq<RawStat>)
    requires acc.totalProducts >= 0 && acc.totalCustomers >= 0
    ensures Fold(acc, records) == Combine(acc, Aggregate(records))
    decreases |records|
  {
    if records != [] {
      FoldCombines(Step(acc, records[0]), records[1..]);
    }
  }

  /** The fold sums revenue, orders, completed and cancelled orders, and takes the maximum
      (floor 0) of products and customers. */
  lemma FoldIsAggregate(records: seq<RawStat>)
    ensures Fold(NoTotals, records) == Aggregate(records)
  {
    FoldCombines(NoTotals, records);
  }

  lemma StepCommutes(acc: Totals, x: RawStat, y: RawStat)
    ensures Step(Step(acc, x), y) == Step(Step(acc, y), x)
  {
  }

  /** Folding an element first is the same as folding it in its place. */
  lemma {:induction false} FoldPullOut(acc: Totals, s: seq<RawStat>, i: nat)
    requires i < |s|
    ensures Fold(acc, s) == Fold(Step(acc, s[i]), s[..i] + s[i + 1..])
    decreases i
  {
    if i > 0 {
      var rest := s[1..];
      FoldPullOut(Step(acc, s[0]), rest, i - 1);
      StepCommutes(acc, s[0], s[i]);
      var t := s[..i] + s[i + 1..];
      assert t[0] == s[0];
      assert t[1..] == rest[..i - 1] + rest[i..];
    } else {
      assert s[..0] + s[1..] == s[1..];
    }
  }

  lemma {:induction false} FoldPermutation(acc: Totals, s: seq<RawStat>, t: seq<RawStat>)
    requires multiset(s) == multiset(t)
    ensures Fold(acc, s) == Fold(acc, t)
    decreases |s|
  {
    if s == [] {
      assert |t| == |multiset(t)| == 0;
    } else {
      assert s[0] in multiset(t);
      var i :| 0 <= i < |t| && t[i] == s[0];
      var t' := t[..i] + t[i + 1..];
      assert t == t[..i] + [t[i]] + t[i + 1..];
      assert s == [s[0]] + s[1..];
      assert multiset(t) == multiset(t[..i]) + multiset([t[i]]) + multiset(t[i + 1..]);
      assert multiset(t') == multiset(t[..i]) + multiset(t[i + 1..]);
      assert multiset(s) == multiset([s[0]]) + multiset(s[1..]);
      assert multiset(s[1..]) == multiset(s) - multiset{s[0]};
      assert multiset(t') == multiset(t) - multiset{s[0]};
      FoldPermutation(Step(acc, s[0]), s[1..], t');
      FoldPullOut(acc, t, i);
    }
  }

  /** The aggregate does not depend on the order in which the server lists the days. */
  lemma FoldOrderIrrelevant(s: seq<RawStat>, t: seq<RawStat>)
    requires multiset(s) == multiset(t)
    ensures Fold(NoTotals, s) == Fold(NoTotals, t)
  {
    FoldPermutation(NoTotals, s, t);
  }

  /** The guarded average of `fetchDailyStats`: the folded revenue over the folded orders,
      0 when there are no orders. */
  function WithAverage(t: Totals): (s: Stat)
    ensures t.totalOrders > 0 ==> s.averageOrderValue * (t.totalOrders as real) == t.dailyRevenue
    ensures t.totalOrders <= 0 ==> s.averageOrderValue == 0.0
    ensures s.dailyRevenue == t.dailyRevenue && s.totalOrders == t.totalOrders
    ensures s.completedOrders == t.completedOrders && s.cancelledOrders == t.cancelledOrders
    ensures s.totalProducts == t.totalProducts && s.totalCustomers == t.totalCustomers
  {
    var average := if t.totalOrders > 0 then t.dailyRevenue / (t.totalOrders as real) else 0.0;
    Stat(t.dailyRevenue, t.totalOrders, t.completedOrders, average,
         t.cancelledOrders, t.totalProducts, t.totalCustomers)
  }

  // ---------------------------------------------------------------------------
  // The decision

  /** What the card shows, given the daily response body and the body of the range request
      (`None` when its `data` or `content` is missing). The range is only consulted when
      today has no data. */
  function Reconcile(daily: RawStat, range: Option<seq<RawStat>>): (r: (Stat, Source))
    ensures r.1 == Today <==> HasData(Defaulted(daily))
    ensures r.1 == Today ==> r.0 == Defaulted(daily)
    ensures r.1 == AggregatedRange <==> !HasData(Defaulted(daily)) && range.Some? && range.value != []
    ensures r.1 == AggregatedRange ==> r.0 == WithAverage(Aggregate(range.value))
    ensures r.1 == Empty ==> r.0 == EmptyStat
  {
    var stats := Defaulted(daily);
    if HasData(stats) then (stats, Today)
    else if range.Some? && |range.value| > 0 then
      FoldIsAggregate(range.value);
      (WithAverage(Fold(NoTotals, range.value)), AggregatedRange)
    else (EmptyStat, Empty)
  }

  /** A day with nothing but cancellations still triggers the seven-day fallback. */
  lemma CancellationsAloneFallBack(daily: RawStat, range: Option<seq<RawStat>>)
    requires Defaulted(daily).dailyRevenue <= 0.0
    requires Defaulted(daily).totalOrders <= 0 && Defaulted(daily).completedOrders <= 0
    ensures Reconcile(daily, range).1 != Today
  {
  }

  /** The toast raised for each source: none for today's record. */
  function NoticeFor(source: Source): (n: Notice)
    ensures n.Silent? <==> source == Today
    ensures n.Info? <==> source == AggregatedRange
    ensures n.Warning? <==> source == Empty
  {
    match source
    case Today => Silent
    case AggregatedRange => Info("Showing aggregated data from the last 7 days")
    case Empty => Warning("No sales data found for the selected period")
  }

  /** The toast of the catch block, chosen by what the thrown error carries. */
  function FailureText(e: HttpError): (r: string)
    ensures r != ""
    ensures (e.response.Some? && e.response.value.status != 404 && e.response.value.status != 403
             && e.response.value.message != "") ==> r == e.response.value.message
  {
    if e.response.Some? then
      if e.response.value.status == 404 then "No analytics data found. Please try again later."
      else if e.response.value.status == 403 then "You do not have permission to view analytics."
      else if e.response.value.message != "" then e.response.value.message
      else "Failed to fetch statistics."
    else if e.requestSent then "Cannot connect to the server. Please check your connection."
    else "An error occurred while fetching statistics."
  }

  // ---------------------------------------------------------------------------
  // The date parameter

  /** `pad`: `n.toString().padStart(2, '0')`. */
  function Pad(n: nat): (r: string)
    ensures n < 10 ==> r == "0" + NatToString(n)
    ensures n >= 10 ==> r == NatToString(n)
    ensures AllDigits(r) && DigitsValue(r) == n
    ensures n < 100 ==> |r| == 2
  {
    PadReadsBack(n);
    PadStart(NatToString(n), 2, '0')
  }

  lemma PadReadsBack(n: nat)
    ensures n < 10 ==> PadStart(NatToString(n), 2, '0') == "0" + NatToString(n)
    ensures AllDigits(PadStart(NatToString(n), 2, '0'))
    ensures DigitsValue(PadStart(NatToString(n), 2, '0')) == n
    ensures n < 100 ==> |PadStart(NatToString(n), 2, '0')| == 2
  {
    var digits := NatToString(n);
    if 10 <= n < 100 {
      assert digits == NatToString(n / 10) + [DigitChar(n % 10)];
    }
    NatToStringRoundTrip(n);
    if n < 10 {
      LeadingZero(digits);
      assert Repeat('0', 1) == "0";
    }
  }

  /** `formatDateForBackend`: `year-MM-DD HH:MM:SS`, from the fields of a `Date`
      (`month0` is `getMonth()`, counted from 0). */
  function FormatDateForBackend(year: nat, month0: nat, day: nat, hours: nat, minutes: nat, seconds: nat): (r: string)
    requires month0 < 12 && 1 <= day <= 31 && hours < 24 && minutes < 60 && seconds < 60
    ensures ReadsAsDate(r, year, month0 + 1, day, hours, minutes, seconds)
  {
    var ys := NatToString(year);
    var mo, d, h, mi, s := Pad(month0 + 1), Pad(day), Pad(hours), Pad(minutes), Pad(seconds);
    assert |mo| == |d| == |h| == |mi| == |s| == 2;
    Layout(ys, mo, d, h, mi, s);
    ys + "-" + mo + "-" + d + " " + h + ":" + mi + ":" + s
  }

  /** `t` is two decimal digits that read as `n`. */
  predicate TwoDigits(t: string, n: nat) {
    |t| == 2 && AllDigits(t) && DigitsValue(t) == n
  }

  /** `r` is the year, then month, day, hours, minutes and seconds as two digits each,
      after '-', '-', ' ', ':' and ':'. */
  predicate ReadsAsDate(r: string, year: nat, month: nat, day: nat, hours: nat, minutes: nat, seconds: nat) {
    var y := |NatToString(year)|;
    && |r| == y + 15
    && r[..y] == NatToString(year)
    && r[y] == '-' && r[y + 3] == '-' && r[y + 6] == ' ' && r[y + 9] == ':' && r[y + 12] == ':'
    && TwoDigits(r[y + 1..y + 3], month) && TwoDigits(r[y + 4..y + 6], day)
    && TwoDigits(r[y + 7..y + 9], hours) && TwoDigits(r[y + 10..y + 12], minutes)
    && TwoDigits(r[y + 13..y + 15], seconds)
  }

  /** Where each two-character field lands in the formatted date. */
  lemma Layout(ys: string, mo: string, d: string, h: string, mi: string, s: string)
    requires |mo| == |d| == |h| == |mi| == |s| == 2
    ensures var r := ys + "-" + mo + "-" + d + " " + h + ":" + mi + ":" + s;
      var y := |ys|;
      && |r| == y + 15 && r[..y] == ys
      && r[y] == '-' && r[y + 3] == '-' && r[y + 6] == ' ' && r[y + 9] == ':' && r[y + 12] == ':'
      && r[y + 1..y + 3] == mo && r[y + 4..y + 6] == d && r[y + 7..y + 9] == h
      && r[y + 10..y + 12] == mi && r[y + 13..y + 15] == s
  {
  }

  // ---------------------------------------------------------------------------
  // The screen state

  /** The part of the analytics screen that `fetchDailyStats` drives. */
  class AnalyticsDashboard {
    var dailyStats: Option<Stat>
    var loading: bool

    constructor ()
      ensures dailyStats == None && loading
    {
      dailyStats := None;
      loading := true;
    }

    /** `fetchDailyStats`, given how the daily request and (if it is sent) the range request
        settle. The `data` of a reply is `None` when the response has no body. Returns whether
        the range request was sent and the toast raised. */
    method FetchDailyStats(daily: Reply<Option<RawStat>>, range: Reply<Option<seq<RawStat>>>)
      returns (rangeRequested: bool, notice: Notice)
      modifies this
      ensures !loading
      ensures rangeRequested <==> daily.Ok? && daily.body.Some? && !HasData(Defaulted(daily.body.value))
      ensures daily.Failed? ==> dailyStats == old(dailyStats) && notice == Error(FailureText(daily.error))
      ensures daily.Ok? && daily.body.None? ==> dailyStats == old(dailyStats) && notice == Silent
      ensures rangeRequested && range.Failed? ==>
                dailyStats == old(dailyStats) && notice == Error(FailureText(range.error))
      ensures daily.Ok? && daily.body.Some? && !(rangeRequested && range.Failed?) ==>
                var r := Reconcile(daily.body.value, if range.Ok? then range.body else None);
                dailyStats == Some(r.0) && notice == NoticeFor(r.1)
    {
      loading := true;
      rangeRequested := false;
      notice := Silent;
      if daily.Failed? {
        notice := Error(FailureText(daily.error));
        loading := false;
        return;
      }
      if daily.body.Some? {
        var stats := Defaulted(daily.body.value);
        if !HasData(stats) {
          rangeRequested := true;
          if range.Failed? {
            notice := Error(FailureText(range.error));
            loading := false;
            return;
          }
          if range.body.Some? && |range.body.value| > 0 {
            var aggregated := Fold(NoTotals, range.body.value);
            dailyStats := Some(WithAverage(aggregated));
            notice := Info("Showing aggregated data from the last 7 days");
          } else {
            dailyStats := Some(EmptyStat);
            notice := Warning("No sales data found for the selected period");
          }
        } else {
          dailyStats := Some(stats);
        }
      }
      loading := false;
    }
  }
}
