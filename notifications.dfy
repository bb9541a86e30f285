/** The notification table of notifications/models.py with its read-state
    operations (notifications/views.py) and the insert helper of
    notifications/utils.py. The table is a `NotificationStore` object whose
    rows are kept in insertion order; a row's primary key is its position
    plus one. */
module Notifications {
  import opened Common
  import opened Ordering
  import opened Messages

  /** The `notification_type` values the code writes. Only the first four
      are declared as choices; `objects.create` does not validate choices,
      so the rules also store 'budget', 'consumption' and 'shopping_list'. */
  datatype NotificationType =
    | ExpiryType | LowStockType | WastageType | ReportType
    | BudgetType | ConsumptionType | ShoppingListType

  /** The declared choices: 'expiry', 'low_stock', 'wastage', 'report'. */
  predicate Declared(t: NotificationType)
  {
    t.ExpiryType? || t.LowStockType? || t.WastageType? || t.ReportType?
  }

  /** The stored code of a type. */
  function Code(t: NotificationType): (c: string)
    ensures |c| > 0
  {
    match t
    case ExpiryType => "expiry"
    case LowStockType => "low_stock"
    case WastageType => "wastage"
    case ReportType => "report"
    case BudgetType => "budget"
    case ConsumptionType => "consumption"
    case ShoppingListType => "shopping_list"
  }

  /** Distinct types are stored under distinct codes, and exactly the four
      declared types have a code among the declared choices. */
  lemma CodesDistinct(s: NotificationType, t: NotificationType)
    ensures Code(s) == Code(t) <==> s == t
    ensures Declared(t) <==> Code(t) in ["expiry", "low_stock", "wastage", "report"]
  {
    assert Code(t) == "budget" || Code(t) == "consumption" || Code(t) == "shopping_list" ==> !Declared(t);
    assert Code(s) == Code(t) ==> s == t by {
      if Code(s) == Code(t) {
        CodePrefix(s);
        CodePrefix(t);
      }
    }
  }

  /** The first characters of a code tell the type apart. */
  lemma CodePrefix(t: NotificationType)
    ensures |Code(t)| >= 6
    ensures Code(t)[0] == 'e' ==> t.ExpiryType?
    ensures Code(t)[0] == 'l' ==> t.LowStockType?
    ensures Code(t)[0] == 'w' ==> t.WastageType?
    ensures Code(t)[0] == 'r' ==> t.ReportType?
    ensures Code(t)[0] == 'b' ==> t.BudgetType?
    ensures Code(t)[0] == 'c' ==> t.ConsumptionType?
    ensures Code(t)[0] == 's' ==> t.ShoppingListType?
  {
  }

  /** The model a generic relation (`content_type`) points at. */
  datatype ContentType = ProductModel | ShoppingListModel

  /** An object a notification can be linked to: its model and primary key. */
  datatype RelatedObject = RelatedObject(model: ContentType, pk: nat)

  datatype Notification = Notification(
    owner: UserId,
    kind: NotificationType,
    title: Text,
    message: Text,
    createdAt: Instant,
    read: bool,
    link: Option<Link>,
    product: Option<ProductId>,
    contentType: Option<ContentType>,
    objectId: Option<nat>)

  /** The row `objects.create(...)` inserts: unread, created now, with no
      generic relation. */
  function NewNotification(owner: UserId, kind: NotificationType, title: Text, message: Text,
                           now: Instant, link: Option<Link>, product: Option<ProductId>): (n: Notification)
    ensures !n.read && n.contentType == None && n.objectId == None
    ensures n.owner == owner && n.kind == kind && n.title == title && n.message == message
    ensures n.createdAt == now && n.link == link && n.product == product
  {
    Notification(owner, kind, title, message, now, false, link, product, None, None)
  }

  /** `mark_as_read`: the read flag set, every other field kept. */
  function MarkedRead(n: Notification): Notification
  {
    n.(read := true)
  }

  lemma MarkedReadFacts(n: Notification)
    ensures MarkedRead(n).read
    ensures MarkedRead(MarkedRead(n)) == MarkedRead(n)
    ensures MarkedRead(n) == n <==> n.read
    ensures MarkedRead(n).(read := n.read) == n
  {
  }

  // ---- queries ---------------------------------------------------------------

  predicate OwnedBy(n: Notification, user: UserId) { n.owner == user }

  predicate UnreadOf(n: Notification, user: UserId) { n.owner == user && !n.read }

  /** Every row of the batch is the user's and unread. */
  predicate OwnedUnread(b: seq<Notification>, user: UserId)
  {
    forall i :: 0 <= i < |b| ==> UnreadOf(b[i], user)
  }

  lemma AppendOwnedUnread(a: seq<Notification>, b: seq<Notification>, user: UserId)
    requires OwnedUnread(a, user) && OwnedUnread(b, user)
    ensures OwnedUnread(a + b, user)
  {
    forall i | 0 <= i < |a + b| ensures UnreadOf((a + b)[i], user) {
      if i >= |a| { assert (a + b)[i] == b[i - |a|]; }
    }
  }

  /** `Notification.objects.filter(user=user)`, in table order. */
  function OwnedRows(ns: seq<Notification>, user: UserId): seq<Notification>
  {
    Filter(ns, n => OwnedBy(n, user))
  }

  /** `filter(user=user, read=False).count()`: the unread count of the
      API endpoint and of the list page. */
  function UnreadCount(ns: seq<Notification>, user: UserId): nat
  {
    |Filter(ns, n => UnreadOf(n, user))|
  }

  /** The list page's rows: the requester's notifications, newest first
      (`Meta.ordering = ['-created_at']`). */
  function ListFor(ns: seq<Notification>, user: UserId): (r: seq<Notification>)
    ensures multiset(r) == multiset(OwnedRows(ns, user))
    ensures forall i, j :: 0 <= i < j < |r| ==> r[i].createdAt >= r[j].createdAt
  {
    SortDesc(OwnedRows(ns, user), (n: Notification) => n.createdAt)
  }

  /** The list page's `unread_count` counts the same rows as the API:
      exactly the requester's unread notifications. */
  lemma ListUnreadCount(ns: seq<Notification>, user: UserId)
    ensures |Filter(ListFor(ns, user), (n: Notification) => !n.read)| == UnreadCount(ns, user)
  {
    var owned := OwnedRows(ns, user);
    FilterPermutation(ListFor(ns, user), owned, (n: Notification) => !n.read);
    FilterTwice(ns, user);
  }

  /** The count is zero exactly when none of the requester's
      notifications is unread. */
  lemma UnreadCountZero(ns: seq<Notification>, user: UserId)
    ensures UnreadCount(ns, user) == 0 <==> forall i :: 0 <= i < |ns| ==> !UnreadOf(ns[i], user)
  {
    FilterEmpty(ns, n => UnreadOf(n, user));
  }

  /** Filtering by owner and then by read flag is filtering by both. */
  lemma {:induction false} FilterTwice(ns: seq<Notification>, user: UserId)
    ensures Filter(OwnedRows(ns, user), (n: Notification) => !n.read)
         == Filter(ns, (n: Notification) => UnreadOf(n, user))
  {
    if ns != [] {
      FilterTwice(ns[1..], user);
      var o := if OwnedBy(ns[0], user) then [ns[0]] else [];
      assert OwnedRows(ns, user) == o + OwnedRows(ns[1..], user);
      FilterAppend(o, OwnedRows(ns[1..], user), (n: Notification) => !n.read);
    }
  }

  /** The unread count never exceeds the number of the requester's rows. */
  lemma {:induction false} UnreadAtMostOwned(ns: seq<Notification>, user: UserId)
    ensures UnreadCount(ns, user) <= |OwnedRows(ns, user)|
  {
    FilterTwice(ns, user);
  }

  // ---- mark all read ---------------------------------------------------------

  /** A row after `filter(user=user, read=False).update(read=True)`. */
  function ReadFor(n: Notification, user: UserId): Notification
  {
    if UnreadOf(n, user) then MarkedRead(n) else n
  }

  /** The table after `mark_all_read` by `user`. */
  function ReadAll(ns: seq<Notification>, user: UserId): seq<Notification>
  {
    if ns == [] then [] else [ReadFor(ns[0], user)] + ReadAll(ns[1..], user)
  }

  lemma {:induction false} ReadAllAppend(a: seq<Notification>, n: Notification, user: UserId)
    ensures ReadAll(a + [n], user) == ReadAll(a, user) + [ReadFor(n, user)]
  {
    if a != [] {
      assert (a + [n])[1..] == a[1..] + [n];
      ReadAllAppend(a[1..], n, user);
    }
  }

  /** One step of the row-by-row update: rewriting row `i` of the
      partially updated table extends the updated prefix by one row. */
  lemma ReadAllStep(ns: seq<Notification>, i: nat, user: UserId)
    requires i < |ns|
    ensures |ReadAll(ns[..i], user) + ns[i..]| == |ns|
    ensures (ReadAll(ns[..i], user) + ns[i..])[i] == ns[i]
    ensures (ReadAll(ns[..i], user) + ns[i..])[i := ReadFor(ns[i], user)]
         == ReadAll(ns[..i + 1], user) + ns[i + 1..]
  {
    ReadAllLength(ns[..i], user);
    ReadAllAppend(ns[..i], ns[i], user);
    assert ns[..i + 1] == ns[..i] + [ns[i]];
    assert ns[i..] == [ns[i]] + ns[i + 1..];
  }

  /** Row by row: the requester's rows are read afterwards, every other
      user's rows are untouched, and only the read flag ever changes. */
  lemma {:induction false} ReadAllRows(ns: seq<Notification>, user: UserId, i: nat)
    requires i < |ns|
    ensures |ReadAll(ns, user)| == |ns|
    ensures ns[i].owner == user ==> ReadAll(ns, user)[i].read
    ensures ns[i].owner != user ==> ReadAll(ns, user)[i] == ns[i]
    ensures ReadAll(ns, user)[i] == ns[i].(read := ReadAll(ns, user)[i].read)
  {
    ReadAllLength(ns, user);
    if i > 0 {
      ReadAllRows(ns[1..], user, i - 1);
    }
  }

  lemma {:induction false} ReadAllLength(ns: seq<Notification>, user: UserId)
    ensures |ReadAll(ns, user)| == |ns|
  {
    if ns != [] {
      ReadAllLength(ns[1..], user);
    }
  }

  /** After `mark_all_read` the requester has no unread notification. */
  lemma {:induction false} ReadAllClearsUnread(ns: seq<Notification>, user: UserId)
    ensures UnreadCount(ReadAll(ns, user), user) == 0
  {
    if ns != [] {
      ReadAllClearsUnread(ns[1..], user);
      assert ReadAll(ns, user)[1..] == ReadAll(ns[1..], user);
    }
  }

  /** Repeating `mark_all_read` changes nothing. */
  lemma {:induction false} ReadAllIdempotent(ns: seq<Notification>, user: UserId)
    ensures ReadAll(ReadAll(ns, user), user) == ReadAll(ns, user)
  {
    if ns != [] {
      ReadAllIdempotent(ns[1..], user);
      assert ReadAll(ns, user)[1..] == ReadAll(ns[1..], user);
    }
  }

  /** Another user's unread count is not affected. */
  lemma {:induction false} ReadAllOthersUnread(ns: seq<Notification>, user: UserId, other: UserId)
    requires other != user
    ensures UnreadCount(ReadAll(ns, user), other) == UnreadCount(ns, other)
  {
    if ns != [] {
      ReadAllOthersUnread(ns[1..], user, other);
      assert ReadAll(ns, user)[1..] == ReadAll(ns[1..], user);
    }
  }

  // ---- the table -------------------------------------------------------------

  class NotificationStore {
    var notifications: seq<Notification>

    constructor()
      ensures notifications == []
    {
      notifications := [];
    }

    /** `Notification.objects.create(...)`: appends the row and returns its
        primary key. */
    method Insert(n: Notification) returns (pk: nat)
      modifies this
      ensures notifications == old(notifications) + [n]
      ensures pk == |notifications| && notifications[pk - 1] == n
    {
      notifications := notifications + [n];
      pk := |notifications|;
    }

    /** `for x in xs: Notification.objects.create(...)`: one row built
        from each element, appended in order. */
    method InsertEach<T>(xs: seq<T>, make: T -> Notification)
      modifies this
      ensures notifications == old(notifications) + Map(xs, make)
    {
      ghost var b := Map(xs, make);
      for i := 0 to |xs|
        invariant notifications == old(notifications) + b[..i]
      {
        MapIndex(xs, make, i);
        var _ := Insert(make(xs[i]));
        assert b[..i + 1] == b[..i] + [b[i]];
      }
      assert b[..|xs|] == b;
    }

    /** `save()` of an existing row. */
    method Save(pk: nat, n: Notification)
      requires 1 <= pk <= |notifications|
      modifies this
      ensures notifications == old(notifications)[pk - 1 := n]
    {
      notifications := notifications[pk - 1 := n];
    }

    /** `mark_as_read` on row `pk`: assign the flag, then save. */
    method MarkAsRead(pk: nat)
      requires 1 <= pk <= |notifications|
      modifies this
      ensures notifications == old(notifications)[pk - 1 := MarkedRead(old(notifications)[pk - 1])]
    {
      var n := notifications[pk - 1];
      n := n.(read := true);
      Save(pk, n);
    }

    /** `mark_notification_read`: `get_object_or_404(pk=pk, user=requester)`
        then `mark_as_read`. Returns false (404) when there is no such row
        or it belongs to someone else; the table is then unchanged. */
    method MarkNotificationRead(requester: UserId, pk: nat) returns (found: bool)
      modifies this
      ensures found <==> 1 <= pk <= |old(notifications)| && old(notifications)[pk - 1].owner == requester
      ensures found ==> notifications == old(notifications)[pk - 1 := MarkedRead(old(notifications)[pk - 1])]
      ensures !found ==> notifications == old(notifications)
    {
      if 1 <= pk <= |notifications| && notifications[pk - 1].owner == requester {
        MarkAsRead(pk);
        found := true;
      } else {
        found := false;
      }
    }

    /** `mark_all_read`: every unread row of the requester is set read,
        one row at a time. */
    method MarkAllRead(requester: UserId)
      modifies this
      ensures notifications == ReadAll(old(notifications), requester)
    {
      var i := 0;
      ghost var before := notifications;
      assert before[..0] == [];
      while i < |notifications|
        invariant 0 <= i <= |before| == |notifications|
        invariant notifications == ReadAll(before[..i], requester) + before[i..]
      {
        ReadAllStep(before, i, requester);
        if notifications[i].owner == requester && !notifications[i].read {
          notifications := notifications[i := MarkedRead(notifications[i])];
        }
        i := i + 1;
      }
      assert before[..i] == before;
    }

    /** `get_unread_count`. */
    function GetUnreadCount(requester: UserId): (count: nat)
      reads this
      ensures count <= |OwnedRows(notifications, requester)|
      ensures count == 0 <==> forall i :: 0 <= i < |notifications| ==> !UnreadOf(notifications[i], requester)
    {
      UnreadAtMostOwned(notifications, requester);
      UnreadCountZero(notifications, requester);
      UnreadCount(notifications, requester)
    }
  }

  /** `create_notification`: inserts one unread row for `user` with the
      given type, title and message; when a related object is given, the
      row is then linked to it through `content_type` and `object_id` and
      saved again. Returns the row as stored and its primary key. */
  method CreateNotification(store: NotificationStore, user: UserId, kind: NotificationType,
                            title: Text, message: Text, related: Option<RelatedObject>,
                            now: Instant)
    returns (n: Notification, pk: nat)
    modifies store
    ensures store.notifications == old(store.notifications) + [n]
    ensures pk == |store.notifications|
    ensures n.owner == user && n.kind == kind && n.title == title && n.message == message
    ensures !n.read && n.createdAt == now && n.link == None && n.product == None
    ensures related == None ==> n.contentType == None && n.objectId == None
    ensures related != None ==> n.contentType == Some(related.value.model) && n.objectId == Some(related.value.pk)
  {
    n := NewNotification(user, kind, title, message, now, None, None);
    pk := store.Insert(n);
    if related.Some? {
      n := n.(contentType := Some(related.value.model), objectId := Some(related.value.pk));
      store.Save(pk, n);
    }
  }
}
