/** The post-save receivers of notifications/signals.py: the expiry and
    low-stock checks run after a product is saved, and a notice after a
    shopping list is created. Each receiver decides on zero or one
    notification and inserts it through `create_notification` with the
    saved instance as the related object. `created` is the flag the signal
    passes; the clock is the parameter `now`. */
module NotificationSignals {
  import opened Common
  import opened Records
  import opened Messages
  import opened Notifications

  /** The row `create_notification` leaves in the table when given a
      related object. */
  function LinkedNotification(user: UserId, kind: NotificationType, title: Text, message: Text,
                              related: RelatedObject, now: Instant): Notification
  {
    NewNotification(user, kind, title, message, now, None, None)
      .(contentType := Some(related.model), objectId := Some(related.pk))
  }

  /** The saved product as a related object: its model and primary key. */
  function ProductObject(p: Product): RelatedObject { RelatedObject(ProductModel, p.id) }

  // ---- product expiry --------------------------------------------------------

  /** The horizon of the "soon" notice, in days. */
  const SoonDays := 7

  datatype ExpiryDecision = NoAction | Soon(days: int) | Expired

  /** `check_product_expiry`'s branch: nothing for a new product; for an
      update, "soon" with the day count when it is between 1 and 7,
      "expired" when it is 0 or less, nothing beyond a week. The product's
      `expiry_date` is a non-null DateField, so the `instance.expiry_date`
      guard always holds. */
  function ExpiryDecisionFor(created: bool, p: Product, today: Day): ExpiryDecision
  {
    if created then NoAction
    else
      var days := p.expiry - today;
      if days <= SoonDays && days > 0 then Soon(days)
      else if days <= 0 then Expired
      else NoAction
  }

  /** The three outcomes split the days until expiry into [1, 7], (-inf, 0]
      and [8, +inf); a newly created product never gets a notice. */
  lemma ExpiryDecisionCases(created: bool, p: Product, today: Day)
    ensures created ==> ExpiryDecisionFor(created, p, today) == NoAction
    ensures !created ==>
      (ExpiryDecisionFor(created, p, today) == Soon(p.expiry - today) <==> 1 <= p.expiry - today <= SoonDays)
      && (ExpiryDecisionFor(created, p, today) == Expired <==> p.expiry <= today)
      && (ExpiryDecisionFor(created, p, today) == NoAction <==> p.expiry - today > SoonDays)
    ensures ExpiryDecisionFor(created, p, today).Soon? ==> ExpiryDecisionFor(created, p, today).days == p.expiry - today
  {
  }

  /** What `check_product_expiry` inserts. */
  function ExpirySignalBatch(created: bool, p: Product, now: Instant): seq<Notification>
  {
    match ExpiryDecisionFor(created, p, DayOf(now))
    case NoAction => []
    case Soon(days) =>
      [LinkedNotification(p.owner, ExpiryType, ExpiringSoonTitle, ExpiringSoonMessage(p.name, days), ProductObject(p), now)]
    case Expired =>
      [LinkedNotification(p.owner, ExpiryType, ExpiredTitle, ExpiredMessage(p.name), ProductObject(p), now)]
  }

  /** At most one notice, to the product's owner, linked to the product:
      the "soon" notice quoting the day count exactly when an existing
      product expires within 1 to 7 days, the "expired" notice exactly when
      its date is today or past. */
  lemma ExpirySignalRule(created: bool, p: Product, now: Instant)
    ensures var b := ExpirySignalBatch(created, p, now); var days := p.expiry - DayOf(now);
      |b| <= 1
      && (b == [] <==> created || days > SoonDays)
      && (|b| == 1 && b[0].title == ExpiringSoonTitle <==> !created && 1 <= days <= SoonDays)
      && (|b| == 1 && b[0].title == ExpiredTitle <==> !created && days <= 0)
      && (|b| == 1 && b[0].title == ExpiringSoonTitle ==> b[0].message == ExpiringSoonMessage(p.name, days))
    ensures var b := ExpirySignalBatch(created, p, now);
      forall i :: 0 <= i < |b| ==>
        b[i].owner == p.owner && b[i].kind == ExpiryType && !b[i].read
        && b[i].contentType == Some(ProductModel) && b[i].objectId == Some(p.id)
  {
  }

  method CheckProductExpiry(store: NotificationStore, p: Product, created: bool, now: Instant)
    modifies store
    ensures store.notifications == old(store.notifications) + ExpirySignalBatch(created, p, now)
  {
    if !created {
      var days := p.expiry - DayOf(now);
      if days <= SoonDays && days > 0 {
        var _, _ := CreateNotification(store, p.owner, ExpiryType, ExpiringSoonTitle,
          ExpiringSoonMessage(p.name, days), Some(ProductObject(p)), now);
      } else if days <= 0 {
        var _, _ := CreateNotification(store, p.owner, ExpiryType, ExpiredTitle,
          ExpiredMessage(p.name), Some(ProductObject(p)), now);
      }
    }
  }

  // ---- low stock -------------------------------------------------------------

  /** What `check_low_stock` inserts, with the minimum quantity the code
      reads as a parameter: one notice when an existing product holds at
      most that quantity. */
  function StockSignalBatch(created: bool, p: Product, minQuantity: Hundredths, now: Instant): seq<Notification>
  {
    if !created && p.quantity <= minQuantity then
      [LinkedNotification(p.owner, LowStockType, StockTitle, StockMessage(p.name, p.quantity, p.unit),
        ProductObject(p), now)]
    else []
  }

  /** Exactly one notice iff the product was updated (not created) and its
      quantity is at most the minimum; it goes to the owner, is linked to
      the product and quotes the quantity and unit. */
  lemma StockSignalRule(created: bool, p: Product, minQuantity: Hundredths, now: Instant)
    ensures var b := StockSignalBatch(created, p, minQuantity, now);
      |b| <= 1 && (|b| == 1 <==> !created && p.quantity <= minQuantity)
    ensures var b := StockSignalBatch(created, p, minQuantity, now);
      forall i :: 0 <= i < |b| ==>
        b[i].owner == p.owner && b[i].kind == LowStockType && !b[i].read
        && b[i].message == StockMessage(p.name, p.quantity, p.unit)
        && b[i].contentType == Some(ProductModel) && b[i].objectId == Some(p.id)
  {
  }

  method CheckLowStock(store: NotificationStore, p: Product, created: bool, minQuantity: Hundredths, now: Instant)
    modifies store
    ensures store.notifications == old(store.notifications) + StockSignalBatch(created, p, minQuantity, now)
  {
    if !created && p.quantity <= minQuantity {
      var _, _ := CreateNotification(store, p.owner, LowStockType, StockTitle,
        StockMessage(p.name, p.quantity, p.unit), Some(ProductObject(p)), now);
    }
  }

  /** `check_low_stock` as written: Product has no `min_quantity` field, so
      reading it raises AttributeError on every update; on creation the
      `not created` test short-circuits and nothing happens. */
  function StockSignalAsWritten(created: bool, p: Product, now: Instant): Outcome<seq<Notification>>
  {
    if created then Returned([]) else Raised("AttributeError")
  }

  /** As written the receiver fails on every update, whatever the product,
      and agrees with the corrected receiver, for any minimum, only on
      creation. */
  lemma StockSignalAsWrittenRaises(created: bool, p: Product, minQuantity: Hundredths, now: Instant)
    ensures StockSignalAsWritten(created, p, now).Raised? <==> !created
    ensures created ==> StockSignalAsWritten(created, p, now) == Returned(StockSignalBatch(created, p, minQuantity, now))
  {
  }

  /** Both product receivers, in registration order, after one save. */
  method OnProductSaved(store: NotificationStore, p: Product, created: bool, minQuantity: Hundredths,
                        now: Instant)
    modifies store
    ensures store.notifications == old(store.notifications) + ExpirySignalBatch(created, p, now)
                                   + StockSignalBatch(created, p, minQuantity, now)
  {
    CheckProductExpiry(store, p, created, now);
    CheckLowStock(store, p, created, minQuantity, now);
  }

  /** Saving a product inserts at most two notices, both for its owner and
      none when the product was just created. */
  lemma ProductSavedBounds(created: bool, p: Product, minQuantity: Hundredths, now: Instant)
    ensures var b := ExpirySignalBatch(created, p, now) + StockSignalBatch(created, p, minQuantity, now);
      |b| <= 2 && (created ==> b == [])
      && forall i :: 0 <= i < |b| ==> b[i].owner == p.owner && b[i].objectId == Some(p.id)
  {
    ExpirySignalRule(created, p, now);
    StockSignalRule(created, p, minQuantity, now);
  }

  // ---- shopping lists --------------------------------------------------------

  /** What `notify_shopping_list_created` inserts for the list with primary
      key `pk`: one notice on creation, none on update. */
  function ListSignalBatch(l: ShoppingList, pk: nat, created: bool, now: Instant): seq<Notification>
  {
    if created then
      [LinkedNotification(l.owner, ShoppingListType, NewListTitle, NewListMessage(l.name),
        RelatedObject(ShoppingListModel, pk), now)]
    else []
  }

  /** Exactly one notice iff the list was created; it goes to the list's
      owner, names the list and is linked to it. */
  lemma ListSignalRule(l: ShoppingList, pk: nat, created: bool, now: Instant)
    ensures |ListSignalBatch(l, pk, created, now)| == (if created then 1 else 0)
    ensures forall n :: n in ListSignalBatch(l, pk, created, now) ==>
      n.owner == l.owner && n.kind == ShoppingListType && !n.read && n.message == NewListMessage(l.name)
      && n.contentType == Some(ShoppingListModel) && n.objectId == Some(pk)
  {
  }

  method NotifyShoppingListCreated(store: NotificationStore, l: ShoppingList, pk: nat, created: bool, now: Instant)
    modifies store
    ensures store.notifications == old(store.notifications) + ListSignalBatch(l, pk, created, now)
  {
    if created {
      var _, _ := CreateNotification(store, l.owner, ShoppingListType, NewListTitle, NewListMessage(l.name),
        Some(RelatedObject(ShoppingListModel, pk)), now);
    }
  }
}
