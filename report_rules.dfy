/** The report rules of reports/notifications.py: a budget check over the
    30-day expense sum, a high-wastage check over the 30-day wastage count,
    and a consumption-trend check comparing the two halves of the last 30
    days of the products app's consumption log. Each rule is a pure
    decision (a batch of zero or one notification) and a method that
    appends that batch to the notification table. The clock is the
    parameter `now`. */
module ReportRules {
  import opened Common
  import opened Records
  import opened ReportAggregates
  import opened Messages
  import opened Notifications

  const DefaultBudgetThreshold := 1000
  const DefaultWastageThreshold := 5

  // ---- budget ----------------------------------------------------------------

  /** The 30-day expense sum compared with a threshold in whole złoty:
      strictly greater fires. */
  predicate BudgetExceeded(total: Hundredths, threshold: int)
  {
    total > threshold * 100
  }

  function BudgetNotification(user: UserId, total: Hundredths, threshold: int, now: Instant): Notification
  {
    NewNotification(user, BudgetType, BudgetTitle, BudgetMessage(total, threshold), now, None, None)
  }

  /** What `check_budget_exceeded` inserts. */
  function BudgetBatch(expenses: seq<Record>, user: UserId, now: Instant, threshold: int): seq<Notification>
  {
    var total := Total(Window(expenses, user, DayOf(now)));
    if BudgetExceeded(total, threshold) then [BudgetNotification(user, total, threshold, now)] else []
  }

  /** Exactly one 'budget' notification for the user when the 30-day sum is
      strictly above the threshold, none otherwise (in particular none when
      it equals the threshold). */
  lemma BudgetRule(expenses: seq<Record>, user: UserId, now: Instant, threshold: int)
    ensures var total := Total(Window(expenses, user, DayOf(now)));
      |BudgetBatch(expenses, user, now, threshold)| == (if total > threshold * 100 then 1 else 0)
    ensures forall i :: 0 <= i < |BudgetBatch(expenses, user, now, threshold)| ==>
      var n := BudgetBatch(expenses, user, now, threshold)[i];
      n.owner == user && n.kind == BudgetType && !n.read
  {
  }

  method CheckBudgetExceeded(store: NotificationStore, expenses: seq<Record>, user: UserId,
                             now: Instant, threshold: int)
    modifies store
    ensures store.notifications == old(store.notifications) + BudgetBatch(expenses, user, now, threshold)
  {
    var total := Total(Window(expenses, user, DayOf(now)));
    if total > threshold * 100 {
      var _ := store.Insert(BudgetNotification(user, total, threshold, now));
    }
  }

  // ---- wastage ---------------------------------------------------------------

  function HighWastageNotification(user: UserId, count: nat, threshold: int, now: Instant): Notification
  {
    NewNotification(user, WastageType, HighWastageTitle, HighWastageMessage(count, threshold), now, None, None)
  }

  /** What `check_high_wastage` inserts. */
  function HighWastageBatch(wastages: seq<Record>, user: UserId, now: Instant, threshold: int): seq<Notification>
  {
    var count := |Window(wastages, user, DayOf(now))|;
    if count > threshold then [HighWastageNotification(user, count, threshold, now)] else []
  }

  /** Exactly one 'wastage' notification when the 30-day count is strictly
      above the threshold. */
  lemma HighWastageRule(wastages: seq<Record>, user: UserId, now: Instant, threshold: int)
    ensures var count := |Window(wastages, user, DayOf(now))|;
      |HighWastageBatch(wastages, user, now, threshold)| == (if count > threshold then 1 else 0)
    ensures forall i :: 0 <= i < |HighWastageBatch(wastages, user, now, threshold)| ==>
      var n := HighWastageBatch(wastages, user, now, threshold)[i];
      n.owner == user && n.kind == WastageType && !n.read
  {
  }

  method CheckHighWastage(store: NotificationStore, wastages: seq<Record>, user: UserId,
                          now: Instant, threshold: int)
    modifies store
    ensures store.notifications == old(store.notifications) + HighWastageBatch(wastages, user, now, threshold)
  {
    var count := |Window(wastages, user, DayOf(now))|;
    if count > threshold {
      var _ := store.Insert(HighWastageNotification(user, count, threshold, now));
    }
  }

  // ---- consumption trends ----------------------------------------------------

  /** The summed quantity of `user`'s log entries at or after `from` and,
      when `until` is given, strictly before it. */
  function UsageBetween(us: seq<UsageEntry>, user: UserId, from: Instant, until: Option<Instant>): Hundredths
  {
    if us == [] then 0
    else
      var u := us[0];
      (if u.owner == user && from <= u.at && (until.None? || u.at < until.value) then u.quantity else 0)
        + UsageBetween(us[1..], user, from, until)
  }

  function Ago(now: Instant, days: int): Instant { now - days * SecondsPerDay }

  /** `consumption_date__gte=now-30d, consumption_date__lt=now-15d`. */
  function FirstHalf(us: seq<UsageEntry>, user: UserId, now: Instant): Hundredths
  {
    UsageBetween(us, user, Ago(now, 30), Some(Ago(now, 15)))
  }

  /** `consumption_date__gte=now-15d`, with no upper bound. */
  function SecondHalf(us: seq<UsageEntry>, user: UserId, now: Instant): Hundredths
  {
    UsageBetween(us, user, Ago(now, 15), None)
  }

  /** The halves are [now-30d, now-15d) and [now-15d, ...): no entry is in
      both, and together they hold exactly the last 30 days. */
  lemma {:induction false} HalvesSplit(us: seq<UsageEntry>, user: UserId, now: Instant)
    ensures FirstHalf(us, user, now) + SecondHalf(us, user, now) == UsageBetween(us, user, Ago(now, 30), None)
  {
    if us != [] {
      HalvesSplit(us[1..], user, now);
    }
  }

  datatype Verdict = Increase | Decrease | Steady

  /** `second > first * 1.5`, else `second < first * 0.5`, compared exactly
      on the hundredths: 2 * second > 3 * first, else 2 * second < first. */
  function TrendVerdict(first: Hundredths, second: Hundredths): Verdict
  {
    if 2 * second > 3 * first then Increase
    else if 2 * second < first then Decrease
    else Steady
  }

  /** The verdict as the source's thresholds state it, in exact rationals;
      with both halves zero nothing fires. */
  lemma TrendVerdictMeaning(first: Hundredths, second: Hundredths)
    ensures TrendVerdict(first, second) == Increase <==> second as real > first as real * 1.5
    ensures TrendVerdict(first, second) == Decrease
      <==> !(second as real > first as real * 1.5) && second as real < first as real * 0.5
    ensures first == 0 && second == 0 ==> TrendVerdict(first, second) == Steady
  {
  }

  /** The comparison as written: `first_half * 1.5` multiplies the Decimal
      sum by a float, which raises TypeError unless the sum was empty or
      zero and `or 0` replaced it by the integer 0; a zero first half
      makes both thresholds 0.0. */
  function TrendVerdictAsWritten(first: Hundredths, second: Hundredths): Outcome<Verdict>
  {
    if first != 0 then Raised("TypeError")
    else if second > 0 then Returned(Increase)
    else if second < 0 then Returned(Decrease)
    else Returned(Steady)
  }

  /** As written, the trend check raises whenever the first half is
      non-zero (e.g. 1.00 then 2.00), and agrees with the exact comparison
      only when it is zero. */
  lemma TrendAsWrittenRaises(first: Hundredths, second: Hundredths)
    ensures TrendVerdictAsWritten(first, second).Raised? <==> first != 0
    ensures first == 0 ==> TrendVerdictAsWritten(first, second) == Returned(TrendVerdict(first, second))
    ensures TrendVerdictAsWritten(100, 200) == Raised("TypeError") && TrendVerdict(100, 200) == Increase
  {
  }

  function TrendNotification(user: UserId, v: Verdict, now: Instant): Notification
  {
    if v == Increase then NewNotification(user, ConsumptionType, IncreaseTitle, IncreaseMessage, now, None, None)
    else NewNotification(user, ConsumptionType, DecreaseTitle, DecreaseMessage, now, None, None)
  }

  /** What `check_consumption_trends` inserts (with the exact comparison). */
  function TrendBatch(us: seq<UsageEntry>, user: UserId, now: Instant): seq<Notification>
  {
    var v := TrendVerdict(FirstHalf(us, user, now), SecondHalf(us, user, now));
    if v == Steady then [] else [TrendNotification(user, v, now)]
  }

  /** At most one 'consumption' notification: the increase one exactly when
      the second half exceeds 1.5 times the first, otherwise the decrease
      one exactly when it is below half of the first. */
  lemma TrendRule(us: seq<UsageEntry>, user: UserId, now: Instant)
    ensures var f, s := FirstHalf(us, user, now), SecondHalf(us, user, now);
      var b := TrendBatch(us, user, now);
      |b| <= 1
      && (|b| == 1 && b[0].title == IncreaseTitle <==> 2 * s > 3 * f)
      && (|b| == 1 && b[0].title == DecreaseTitle <==> !(2 * s > 3 * f) && 2 * s < f)
      && (|b| == 1 ==> b[0].owner == user && b[0].kind == ConsumptionType && !b[0].read)
  {
  }

  method CheckConsumptionTrends(store: NotificationStore, us: seq<UsageEntry>, user: UserId, now: Instant)
    modifies store
    ensures store.notifications == old(store.notifications) + TrendBatch(us, user, now)
  {
    var first := FirstHalf(us, user, now);
    var second := SecondHalf(us, user, now);
    if 2 * second > 3 * first {
      var _ := store.Insert(TrendNotification(user, Increase, now));
    } else if 2 * second < first {
      var _ := store.Insert(TrendNotification(user, Decrease, now));
    }
  }

  // ---- all three -------------------------------------------------------------

  /** The report tables the rules read. */
  datatype Tables = Tables(expenses: seq<Record>, wastages: seq<Record>, usage: seq<UsageEntry>)

  /** What `generate_report_notifications` inserts, with the default
      thresholds, in rule order. */
  function ReportBatch(t: Tables, user: UserId, now: Instant): seq<Notification>
  {
    BudgetBatch(t.expenses, user, now, DefaultBudgetThreshold)
      + HighWastageBatch(t.wastages, user, now, DefaultWastageThreshold)
      + TrendBatch(t.usage, user, now)
  }

  /** Between zero and three notifications, all for the given user and all
      unread. */
  lemma ReportBatchBounds(t: Tables, user: UserId, now: Instant)
    ensures |ReportBatch(t, user, now)| <= 3
    ensures OwnedUnread(ReportBatch(t, user, now), user)
  {
    var a := BudgetBatch(t.expenses, user, now, DefaultBudgetThreshold);
    var b := HighWastageBatch(t.wastages, user, now, DefaultWastageThreshold);
    var c := TrendBatch(t.usage, user, now);
    assert |a| <= 1 && OwnedUnread(a, user) by {
      BudgetRule(t.expenses, user, now, DefaultBudgetThreshold);
    }
    assert |b| <= 1 && OwnedUnread(b, user) by {
      HighWastageRule(t.wastages, user, now, DefaultWastageThreshold);
    }
    assert |c| <= 1 && OwnedUnread(c, user) by {
      TrendRule(t.usage, user, now);
    }
    AppendOwnedUnread(a, b, user);
    AppendOwnedUnread(a + b, c, user);
  }

  /** What one run leaves in the notification table, and whether it
      raised. */
  datatype Run = Run(created: seq<Notification>, raised: bool)

  /** `generate_report_notifications` as written: the budget and wastage
      notifications are created first, and when the trend comparison then
      raises they stay created (each `objects.create` commits on its own
      in Django's default autocommit mode). */
  function ReportRunAsWritten(t: Tables, user: UserId, now: Instant): Run
  {
    var before := BudgetBatch(t.expenses, user, now, DefaultBudgetThreshold)
      + HighWastageBatch(t.wastages, user, now, DefaultWastageThreshold);
    match TrendVerdictAsWritten(FirstHalf(t.usage, user, now), SecondHalf(t.usage, user, now))
    case Raised(_) => Run(before, true)
    case Returned(v) => Run(before + (if v == Steady then [] else [TrendNotification(user, v, now)]), false)
  }

  /** As written, a run raises exactly when the first half of the trend
      window sums to a non-zero quantity, leaving the budget and wastage
      notifications behind; otherwise it creates exactly `ReportBatch`. */
  lemma ReportRunAsWrittenRaises(t: Tables, user: UserId, now: Instant)
    ensures var r := ReportRunAsWritten(t, user, now);
      (r.raised <==> FirstHalf(t.usage, user, now) != 0)
      && (r.raised ==> r.created == BudgetBatch(t.expenses, user, now, DefaultBudgetThreshold)
                                    + HighWastageBatch(t.wastages, user, now, DefaultWastageThreshold))
      && (!r.raised ==> r.created == ReportBatch(t, user, now))
  {
    TrendAsWrittenRaises(FirstHalf(t.usage, user, now), SecondHalf(t.usage, user, now));
  }

  method GenerateReportNotifications(store: NotificationStore, t: Tables, user: UserId, now: Instant)
    modifies store
    ensures store.notifications == old(store.notifications) + ReportBatch(t, user, now)
  {
    ghost var before := store.notifications;
    CheckBudgetExceeded(store, t.expenses, user, now, DefaultBudgetThreshold);
    CheckHighWastage(store, t.wastages, user, now, DefaultWastageThreshold);
    CheckConsumptionTrends(store, t.usage, user, now);
    AppendThree(before, BudgetBatch(t.expenses, user, now, DefaultBudgetThreshold),
      HighWastageBatch(t.wastages, user, now, DefaultWastageThreshold), TrendBatch(t.usage, user, now));
  }
}
