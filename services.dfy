/** The batch generators of notifications/services.py: expiring products,
    low stock, recent wastage and the 30-day wastage summary, each a loop
    (or a conditional insert) appending to the notification table, and
    `generate_all_notifications` running the four in order. The clock is
    the parameter `now`; DateFields compared with `now ± n days` see the
    date of that instant. */
module NotificationServices {
  import opened Common
  import opened Records
  import opened Ordering
  import opened ReportAggregates
  import opened Messages
  import opened Notifications

  /** `expiry_date__lte=now + timedelta(days=7)`. */
  const ExpiryHorizonDays := 7
  /** `quantity__lte=1`, in hundredths. */
  const LowStockLimit := 100
  /** `wastage_date__gte=now - timedelta(days=1)`. */
  const RecentWastageDays := 1

  /** `Product.Meta.ordering = ['expiry_date']`: soonest expiry first. */
  function SoonestFirst(ps: seq<Product>): seq<Product>
  {
    SortDesc(ps, (p: Product) => -p.expiry)
  }

  /** The product a notification points at (None for summaries). */
  function Referenced(n: Notification): Option<ProductId> { n.product }

  function ProductRef(p: Product): Option<ProductId> { Some(p.id) }

  // ---- expiry ----------------------------------------------------------------

  /** The user's active products expiring after today and at most seven
      days from now. */
  predicate ExpiresSoon(p: Product, user: UserId, today: Day)
  {
    p.owner == user && p.isActive && today < p.expiry <= today + ExpiryHorizonDays
  }

  function ExpiringRows(ps: seq<Product>, user: UserId, today: Day): seq<Product>
  {
    Filter(ps, p => ExpiresSoon(p, user, today))
  }

  function ExpiringProducts(ps: seq<Product>, user: UserId, today: Day): seq<Product>
  {
    SoonestFirst(ExpiringRows(ps, user, today))
  }

  lemma ExpiringAt(ps: seq<Product>, user: UserId, today: Day, i: nat)
    requires i < |ExpiringProducts(ps, user, today)|
    ensures ExpiringProducts(ps, user, today)[i] in ps
    ensures ExpiresSoon(ExpiringProducts(ps, user, today)[i], user, today)
  {
    var es := ExpiringProducts(ps, user, today);
    assert es[i] in multiset(ExpiringRows(ps, user, today));
    FilterMembers(ps, p => ExpiresSoon(p, user, today));
  }

  /** One expiry notification; the day count is the days from today to the
      expiry date. */
  function ExpiryNotification(p: Product, user: UserId, today: Day, now: Instant): Notification
  {
    NewNotification(user, ExpiryType, ExpiryTitle(p.name), ExpiryMessage(p.name, p.expiry - today),
      now, Some(ProductPage(p.id)), Some(p.id))
  }

  /** What `generate_expiry_notifications` inserts, one row per expiring
      product, soonest first. */
  function ExpiryBatch(ps: seq<Product>, user: UserId, now: Instant): seq<Notification>
  {
    var today := DayOf(now);
    Map(ExpiringProducts(ps, user, today), p => ExpiryNotification(p, user, today, now))
  }

  /** The products the batch points at are, with multiplicity, exactly the
      user's active products expiring within the next seven days. */
  lemma ExpiryBatchProducts(ps: seq<Product>, user: UserId, now: Instant)
    ensures multiset(Map(ExpiryBatch(ps, user, now), Referenced))
         == multiset(Map(ExpiringRows(ps, user, DayOf(now)), ProductRef))
  {
    var today := DayOf(now);
    var es := ExpiringProducts(ps, user, today);
    var b := ExpiryBatch(ps, user, now);
    MapAt(es, p => ExpiryNotification(p, user, today, now));
    MapAt(b, Referenced);
    MapAt(es, ProductRef);
    assert Map(b, Referenced) == Map(es, ProductRef);
    MapPermutation(es, ExpiringRows(ps, user, today), ProductRef);
  }

  /** An unread 'expiry' notification of the user about one of the user's
      active products expiring within a week, naming it, linking to its
      page, and giving a day count between 1 and 7. */
  predicate ExpiryRow(n: Notification, ps: seq<Product>, user: UserId, today: Day)
  {
    n.owner == user && n.kind == ExpiryType && !n.read && n.product.Some?
    && n.link == Some(ProductPage(n.product.value))
    && n.message.ExpiryMessage? && 1 <= n.message.daysLeft <= ExpiryHorizonDays
    && (exists p :: p in ps && p.id == n.product.value && ExpiresSoon(p, user, today)
          && n.message == ExpiryMessage(p.name, p.expiry - today))
  }

  lemma ExpiryBatchRows(ps: seq<Product>, user: UserId, now: Instant)
    ensures forall n :: n in ExpiryBatch(ps, user, now) ==> ExpiryRow(n, ps, user, DayOf(now))
  {
    var today := DayOf(now);
    var b := ExpiryBatch(ps, user, now);
    forall i | 0 <= i < |b| ensures ExpiryRow(b[i], ps, user, today) {
      ExpiryRowAt(ps, user, now, i);
    }
  }

  lemma ExpiryRowAt(ps: seq<Product>, user: UserId, now: Instant, i: nat)
    requires i < |ExpiryBatch(ps, user, now)|
    ensures ExpiryRow(ExpiryBatch(ps, user, now)[i], ps, user, DayOf(now))
  {
    var today := DayOf(now);
    var es := ExpiringProducts(ps, user, today);
    MapIndex(es, p => ExpiryNotification(p, user, today, now), i);
    ExpiringAt(ps, user, today, i);
    var p := es[i];
    assert ExpiryBatch(ps, user, now)[i] == ExpiryNotification(p, user, today, now);
  }

  /** Soonest first: the day counts never decrease along the batch. */
  lemma ExpiryBatchOrder(ps: seq<Product>, user: UserId, now: Instant)
    ensures var b := ExpiryBatch(ps, user, now);
      forall i, j :: 0 <= i < j < |b| && b[i].message.ExpiryMessage? && b[j].message.ExpiryMessage? ==>
        b[i].message.daysLeft <= b[j].message.daysLeft
  {
    var today := DayOf(now);
    var es := ExpiringProducts(ps, user, today);
    var b := ExpiryBatch(ps, user, now);
    forall i, j | 0 <= i < j < |b| && b[i].message.ExpiryMessage? && b[j].message.ExpiryMessage?
      ensures b[i].message.daysLeft <= b[j].message.daysLeft
    {
      MapIndex(es, p => ExpiryNotification(p, user, today, now), i);
      MapIndex(es, p => ExpiryNotification(p, user, today, now), j);
      assert -es[i].expiry >= -es[j].expiry;
    }
  }

  /** `generate_expiry_notifications` with the day count measured from
      today's date. */
  method GenerateExpiryNotifications(store: NotificationStore, ps: seq<Product>, user: UserId, now: Instant)
    modifies store
    ensures store.notifications == old(store.notifications) + ExpiryBatch(ps, user, now)
  {
    var today := DayOf(now);
    var es := ExpiringProducts(ps, user, today);
    store.InsertEach(es, p => ExpiryNotification(p, user, today, now));
  }

  /** The loop as written subtracts the current datetime from a date,
      which raises TypeError on the first expiring product, before any row
      is inserted. With no expiring product it inserts nothing. */
  function ExpiryBatchAsWritten(ps: seq<Product>, user: UserId, now: Instant): Outcome<seq<Notification>>
  {
    if ExpiringProducts(ps, user, DayOf(now)) != [] then Raised("TypeError") else Returned([])
  }

  /** As written the expiry generator fails exactly when it has something
      to report, and agrees with the corrected one otherwise. */
  lemma ExpiryAsWrittenRaises(ps: seq<Product>, user: UserId, now: Instant)
    ensures ExpiryBatchAsWritten(ps, user, now).Raised? <==> ExpiryBatch(ps, user, now) != []
    ensures ExpiryBatchAsWritten(ps, user, now).Returned? ==>
      ExpiryBatchAsWritten(ps, user, now) == Returned(ExpiryBatch(ps, user, now))
  {
  }

  /** A product expiring in three days: the corrected generator reports it,
      the code as written raises. */
  lemma ExpiryAsWrittenExample()
    ensures var milk := Product(1, "Mleko", None, 1, 3, 100, "l", 7, true);
      ExpiryBatchAsWritten([milk], 7, 0) == Raised("TypeError") && |ExpiryBatch([milk], 7, 0)| == 1
  {
    var milk := Product(1, "Mleko", None, 1, 3, 100, "l", 7, true);
    assert DayOf(0) == 0;
    assert ExpiringRows([milk], 7, 0) == [milk];
  }

  // ---- low stock -------------------------------------------------------------

  /** The user's active products holding at most one unit. */
  predicate LowOnStock(p: Product, user: UserId)
  {
    p.owner == user && p.isActive && p.quantity <= LowStockLimit
  }

  function LowStockRows(ps: seq<Product>, user: UserId): seq<Product>
  {
    Filter(ps, p => LowOnStock(p, user))
  }

  lemma LowStockAt(ps: seq<Product>, user: UserId, i: nat)
    requires i < |SoonestFirst(LowStockRows(ps, user))|
    ensures SoonestFirst(LowStockRows(ps, user))[i] in ps
    ensures LowOnStock(SoonestFirst(LowStockRows(ps, user))[i], user)
  {
    var ls := SoonestFirst(LowStockRows(ps, user));
    assert ls[i] in multiset(LowStockRows(ps, user));
    FilterMembers(ps, p => LowOnStock(p, user));
  }

  function LowStockNotification(p: Product, user: UserId, now: Instant): Notification
  {
    NewNotification(user, LowStockType, LowStockTitle(p.name), LowStockMessage(p.name, p.quantity, p.unit),
      now, Some(ProductPage(p.id)), Some(p.id))
  }

  /** What `generate_low_stock_notifications` inserts, in product order. */
  function LowStockBatch(ps: seq<Product>, user: UserId, now: Instant): seq<Notification>
  {
    Map(SoonestFirst(LowStockRows(ps, user)), p => LowStockNotification(p, user, now))
  }

  /** The products the batch points at are, with multiplicity, exactly the
      user's active products with quantity at most 1. */
  lemma LowStockBatchProducts(ps: seq<Product>, user: UserId, now: Instant)
    ensures multiset(Map(LowStockBatch(ps, user, now), Referenced))
         == multiset(Map(LowStockRows(ps, user), ProductRef))
  {
    var ls := SoonestFirst(LowStockRows(ps, user));
    var b := LowStockBatch(ps, user, now);
    MapAt(ls, p => LowStockNotification(p, user, now));
    MapAt(b, Referenced);
    MapAt(ls, ProductRef);
    assert Map(b, Referenced) == Map(ls, ProductRef);
    MapPermutation(ls, LowStockRows(ps, user), ProductRef);
  }

  /** An unread 'low_stock' notification of the user about one of the
      user's active products holding at most one unit, linking to its page
      and quoting its name, quantity and unit. */
  predicate LowStockRow(n: Notification, ps: seq<Product>, user: UserId)
  {
    n.owner == user && n.kind == LowStockType && !n.read && n.product.Some?
    && n.link == Some(ProductPage(n.product.value))
    && (exists p :: p in ps && p.id == n.product.value && LowOnStock(p, user)
          && n.message == LowStockMessage(p.name, p.quantity, p.unit))
  }

  lemma LowStockBatchRows(ps: seq<Product>, user: UserId, now: Instant)
    ensures forall n :: n in LowStockBatch(ps, user, now) ==> LowStockRow(n, ps, user)
  {
    var ls := SoonestFirst(LowStockRows(ps, user));
    var b := LowStockBatch(ps, user, now);
    forall i | 0 <= i < |b| ensures LowStockRow(b[i], ps, user) {
      MapIndex(ls, p => LowStockNotification(p, user, now), i);
      LowStockAt(ps, user, i);
    }
  }

  method GenerateLowStockNotifications(store: NotificationStore, ps: seq<Product>, user: UserId, now: Instant)
    modifies store
    ensures store.notifications == old(store.notifications) + LowStockBatch(ps, user, now)
  {
    var ls := SoonestFirst(LowStockRows(ps, user));
    store.InsertEach(ls, p => LowStockNotification(p, user, now));
  }

  // ---- recent wastage --------------------------------------------------------

  /** The rows of the wastage table. */
  predicate WastageRows(ws: seq<Record>)
  {
    forall i :: 0 <= i < |ws| ==> ws[i].Wastage?
  }

  /** The user's wastage rows dated yesterday or later. */
  predicate RecentlyWasted(r: Record, user: UserId, today: Day)
  {
    r.owner == user && r.date >= today - RecentWastageDays
  }

  function RecentRows(ws: seq<Record>, user: UserId, today: Day): seq<Record>
  {
    Filter(ws, w => RecentlyWasted(w, user, today))
  }

  lemma RecentAt(ws: seq<Record>, user: UserId, today: Day, i: nat)
    requires i < |NewestFirst(RecentRows(ws, user, today))|
    ensures NewestFirst(RecentRows(ws, user, today))[i] in ws
    ensures RecentlyWasted(NewestFirst(RecentRows(ws, user, today))[i], user, today)
  {
    var rs := NewestFirst(RecentRows(ws, user, today));
    assert rs[i] in multiset(RecentRows(ws, user, today));
    FilterMembers(ws, w => RecentlyWasted(w, user, today));
  }

  /** One wastage notification; for a row that is not a wastage row (which
      the table does not hold) it names nothing. */
  function WastedNotification(r: Record, user: UserId, now: Instant): Notification
  {
    var name := if r.Wastage? then r.productName else "";
    var reason := if r.Wastage? then r.reason else "";
    var product := if r.Wastage? then r.product else 0;
    NewNotification(user, WastageType, WastedTitle(name), WastedMessage(name, reason),
      now, Some(ProductPage(product)), Some(product))
  }

  /** What `generate_wastage_notifications` inserts, newest first
      (`ProductWastage.Meta.ordering = ['-wastage_date']`). */
  function WastageBatch(ws: seq<Record>, user: UserId, now: Instant): seq<Notification>
  {
    Map(NewestFirst(RecentRows(ws, user, DayOf(now))), r => WastedNotification(r, user, now))
  }

  /** An unread 'wastage' notification of the user quoting one of the
      user's recent wastage rows: its product, link and reason. */
  predicate WastageRow(n: Notification, ws: seq<Record>, user: UserId, today: Day)
  {
    n.owner == user && n.kind == WastageType && !n.read
    && (exists r :: r in ws && r.Wastage? && RecentlyWasted(r, user, today)
          && n.product == Some(r.product) && n.link == Some(ProductPage(r.product))
          && n.message == WastedMessage(r.productName, r.reason))
  }

  /** One row per recent wastage record of the user, each quoting its
      record: with multiplicity, the batch is exactly the notifications of
      the recent records, one each. */
  lemma WastageBatchRows(ws: seq<Record>, user: UserId, now: Instant)
    requires WastageRows(ws)
    ensures |WastageBatch(ws, user, now)| == |RecentRows(ws, user, DayOf(now))|
    ensures forall n :: n in WastageBatch(ws, user, now) ==> WastageRow(n, ws, user, DayOf(now))
    ensures multiset(WastageBatch(ws, user, now))
         == multiset(Map(RecentRows(ws, user, DayOf(now)), (r: Record) => WastedNotification(r, user, now)))
  {
    var today := DayOf(now);
    var rs := NewestFirst(RecentRows(ws, user, today));
    var b := WastageBatch(ws, user, now);
    forall i | 0 <= i < |b| ensures WastageRow(b[i], ws, user, today) {
      MapIndex(rs, r => WastedNotification(r, user, now), i);
      RecentAt(ws, user, today, i);
    }
    MapPermutation(rs, RecentRows(ws, user, today), (r: Record) => WastedNotification(r, user, now));
  }

  method GenerateWastageNotifications(store: NotificationStore, ws: seq<Record>, user: UserId, now: Instant)
    modifies store
    ensures store.notifications == old(store.notifications) + WastageBatch(ws, user, now)
  {
    var rs := NewestFirst(RecentRows(ws, user, DayOf(now)));
    store.InsertEach(rs, r => WastedNotification(r, user, now));
  }

  // ---- 30-day summary --------------------------------------------------------

  function SummaryNotification(user: UserId, count: nat, now: Instant): Notification
  {
    NewNotification(user, ReportType, SummaryTitle, SummaryMessage(count), now, Some(WastageReportPage), None)
  }

  /** What `generate_report_notifications` inserts: one 'report' summary
      when the user has wasted anything in the last 30 days. */
  function SummaryBatch(ws: seq<Record>, user: UserId, now: Instant): seq<Notification>
  {
    var count := |Window(ws, user, DayOf(now))|;
    if count > 0 then [SummaryNotification(user, count, now)] else []
  }

  /** Exactly one summary iff some wastage row of the user lies in the
      30-day window; it quotes the window's row count, links to the
      wastage report and references no product. */
  lemma SummaryRule(ws: seq<Record>, user: UserId, now: Instant)
    ensures var b := SummaryBatch(ws, user, now);
      (|b| == 1 <==> exists r :: r in ws && InWindow(r, user, DayOf(now)))
      && (b == [] <==> !exists r :: r in ws && InWindow(r, user, DayOf(now)))
    ensures var b := SummaryBatch(ws, user, now);
      forall i :: 0 <= i < |b| ==>
        b[i].owner == user && b[i].kind == ReportType && !b[i].read && b[i].product == None
        && b[i].link == Some(WastageReportPage)
        && b[i].message == SummaryMessage(|Window(ws, user, DayOf(now))|)
  {
    var w := Window(ws, user, DayOf(now));
    if w != [] {
      assert w[0] in ws;
    }
  }

  method GenerateSummaryNotification(store: NotificationStore, ws: seq<Record>, user: UserId, now: Instant)
    modifies store
    ensures store.notifications == old(store.notifications) + SummaryBatch(ws, user, now)
  {
    var count := |Window(ws, user, DayOf(now))|;
    if count > 0 {
      var _ := store.Insert(SummaryNotification(user, count, now));
    }
  }

  // ---- all four --------------------------------------------------------------

  /** What `generate_all_notifications` inserts: the four batches in order. */
  function AllBatch(ps: seq<Product>, ws: seq<Record>, user: UserId, now: Instant): seq<Notification>
  {
    ExpiryBatch(ps, user, now) + LowStockBatch(ps, user, now) + WastageBatch(ws, user, now)
      + SummaryBatch(ws, user, now)
  }

  method GenerateAllNotifications(store: NotificationStore, ps: seq<Product>, ws: seq<Record>,
                                  user: UserId, now: Instant)
    modifies store
    ensures store.notifications == old(store.notifications) + AllBatch(ps, ws, user, now)
  {
    ghost var before := store.notifications;
    GenerateExpiryNotifications(store, ps, user, now);
    GenerateLowStockNotifications(store, ps, user, now);
    GenerateWastageNotifications(store, ws, user, now);
    GenerateSummaryNotification(store, ws, user, now);
    AppendFour(before, ExpiryBatch(ps, user, now), LowStockBatch(ps, user, now),
      WastageBatch(ws, user, now), SummaryBatch(ws, user, now));
  }

  lemma AllBatchOwnedUnread(ps: seq<Product>, ws: seq<Record>, user: UserId, now: Instant)
    requires WastageRows(ws)
    ensures OwnedUnread(AllBatch(ps, ws, user, now), user)
  {
    var e, l, w, s := ExpiryBatch(ps, user, now), LowStockBatch(ps, user, now),
                      WastageBatch(ws, user, now), SummaryBatch(ws, user, now);
    assert OwnedUnread(e, user) by {
      ExpiryBatchRows(ps, user, now);
      forall i | 0 <= i < |e| ensures UnreadOf(e[i], user) { assert e[i] in e; }
    }
    assert OwnedUnread(l, user) by {
      LowStockBatchRows(ps, user, now);
      forall i | 0 <= i < |l| ensures UnreadOf(l[i], user) { assert l[i] in l; }
    }
    assert OwnedUnread(w, user) by {
      WastageBatchRows(ws, user, now);
      forall i | 0 <= i < |w| ensures UnreadOf(w[i], user) { assert w[i] in w; }
    }
    assert OwnedUnread(s, user) by {
      SummaryRule(ws, user, now);
    }
    AppendOwnedUnread(e, l, user);
    AppendOwnedUnread(e + l, w, user);
    AppendOwnedUnread(e + l + w, s, user);
  }

  /** No deduplication: running the generators twice on unchanged data
      inserts every notification twice, so the user's unread count grows by
      twice the batch. */
  lemma RepeatedRunsAddAgain(ns: seq<Notification>, ps: seq<Product>, ws: seq<Record>,
                             user: UserId, now: Instant)
    requires WastageRows(ws)
    ensures var b := AllBatch(ps, ws, user, now);
      UnreadCount(ns + b + b, user) == UnreadCount(ns, user) + 2 * |b|
  {
    var b := AllBatch(ps, ws, user, now);
    AllBatchOwnedUnread(ps, ws, user, now);
    FilterKeepsAll(b, n => UnreadOf(n, user));
    FilterAppend(ns + b, b, n => UnreadOf(n, user));
    FilterAppend(ns, b, n => UnreadOf(n, user));
  }

  /** `generate_all_notifications` as written: the expiry generator runs
      first, so its TypeError aborts the whole call before anything is
      inserted. */
  function AllBatchAsWritten(ps: seq<Product>, ws: seq<Record>, user: UserId, now: Instant)
    : Outcome<seq<Notification>>
  {
    match ExpiryBatchAsWritten(ps, user, now)
    case Raised(e) => Raised(e)
    case Returned(b) => Returned(b + LowStockBatch(ps, user, now) + WastageBatch(ws, user, now)
                                   + SummaryBatch(ws, user, now))
  }

  /** As written, the whole refresh fails whenever a product expires within
      a week, and otherwise inserts what the corrected generators insert. */
  lemma AllAsWrittenRaises(ps: seq<Product>, ws: seq<Record>, user: UserId, now: Instant)
    ensures AllBatchAsWritten(ps, ws, user, now).Raised? <==> ExpiryBatch(ps, user, now) != []
    ensures AllBatchAsWritten(ps, ws, user, now).Returned? ==>
      AllBatchAsWritten(ps, ws, user, now) == Returned(AllBatch(ps, ws, user, now))
  {
    ExpiryAsWrittenRaises(ps, user, now);
  }
}
