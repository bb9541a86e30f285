/** Shopping-list items (shopping_list/views.py): `add_item` attaches a new
    item to one of the requester's lists, and `toggle_item_status` flips
    an item's bought flag. Lists and items are kept in insertion order; a
    row's primary key is its position plus one, and an item's `list` is
    its list's primary key. */
module Shopping {
  import opened Common
  import opened Records

  datatype Tables = Tables(lists: seq<ShoppingList>, items: seq<ShoppingListItem>)

  /** `get_object_or_404(ShoppingList, pk=pk, user=requester)` finds the
      list. */
  predicate ListOwnedBy(t: Tables, listPk: nat, user: UserId)
  {
    1 <= listPk <= |t.lists| && t.lists[listPk - 1].owner == user
  }

  /** `get_object_or_404(ShoppingListItem, pk=item_pk,
      shopping_list__user=requester)` finds the item. */
  predicate ItemOwnedBy(t: Tables, itemPk: nat, user: UserId)
  {
    1 <= itemPk <= |t.items| && ListOwnedBy(t, t.items[itemPk - 1].list, user)
  }

  // ---- toggle_item_status ----------------------------------------------------

  /** The JSON answer: success with the new flag, a 404, or status 400 for
      anything but POST. */
  datatype ToggleResponse = Toggled(isBought: bool) | ItemNotFound | BadRequest

  function Flipped(it: ShoppingListItem): ShoppingListItem
  {
    it.(isBought := !it.isBought)
  }

  /** Flipping negates the flag, keeps every other field, and flipping
      twice restores the item. */
  lemma FlippedFacts(it: ShoppingListItem)
    ensures Flipped(it).isBought == !it.isBought
    ensures Flipped(it).(isBought := it.isBought) == it
    ensures Flipped(Flipped(it)) == it
  {
  }

  /** The list key in the URL is not consulted: the item is looked up by
      its own key and its list's owner. */
  function ToggleResult(t: Tables, requester: UserId, isPost: bool, itemPk: nat): ToggleResponse
  {
    if !isPost then BadRequest
    else if !ItemOwnedBy(t, itemPk, requester) then ItemNotFound
    else Toggled(!t.items[itemPk - 1].isBought)
  }

  function AfterToggle(t: Tables, requester: UserId, isPost: bool, itemPk: nat): Tables
  {
    if isPost && ItemOwnedBy(t, itemPk, requester) then
      t.(items := t.items[itemPk - 1 := Flipped(t.items[itemPk - 1])])
    else t
  }

  /** A successful toggle reports the flag now stored; a 400 or a 404
      changes nothing. */
  lemma ToggleReportsNewValue(t: Tables, requester: UserId, isPost: bool, itemPk: nat)
    ensures var r := ToggleResult(t, requester, isPost, itemPk);
      var u := AfterToggle(t, requester, isPost, itemPk);
      (r.Toggled? <==> isPost && ItemOwnedBy(t, itemPk, requester))
      && (r.Toggled? ==> |u.items| == |t.items| && r.isBought == u.items[itemPk - 1].isBought
                         && r.isBought != t.items[itemPk - 1].isBought)
      && (!r.Toggled? ==> u == t)
      && (r == BadRequest <==> !isPost)
  {
  }

  /** Toggling the same item twice restores the tables, and a toggle
      touches no other item and no list. */
  lemma ToggleTwiceRestores(t: Tables, requester: UserId, isPost: bool, itemPk: nat)
    ensures AfterToggle(AfterToggle(t, requester, isPost, itemPk), requester, isPost, itemPk) == t
    ensures var u := AfterToggle(t, requester, isPost, itemPk);
      u.lists == t.lists && |u.items| == |t.items|
      && forall i :: 0 <= i < |t.items| && i != itemPk - 1 ==> u.items[i] == t.items[i]
  {
    var u := AfterToggle(t, requester, isPost, itemPk);
    if isPost && ItemOwnedBy(t, itemPk, requester) {
      assert ItemOwnedBy(u, itemPk, requester);
      FlippedFacts(t.items[itemPk - 1]);
      assert u.items[itemPk - 1 := Flipped(u.items[itemPk - 1])] == t.items;
    }
  }

  // ---- add_item --------------------------------------------------------------

  /** A 404 when the list is not the requester's; the redirect to the list
      after a valid POST; the form page otherwise (a GET or an invalid
      form). */
  datatype AddItemResponse = ListNotFound | RedirectToList(listPk: nat) | FormPage

  function AddItemResult(t: Tables, requester: UserId, listPk: nat, isPost: bool, formValid: bool): AddItemResponse
  {
    if !ListOwnedBy(t, listPk, requester) then ListNotFound
    else if isPost && formValid then RedirectToList(listPk)
    else FormPage
  }

  /** The tables after `add_item`: the form's item attached to the list and
      saved unbought, when the answer is the redirect. */
  function AfterAddItem(t: Tables, requester: UserId, listPk: nat, isPost: bool, formValid: bool,
                        product: ProductId, quantity: Hundredths, unit: string): Tables
  {
    if AddItemResult(t, requester, listPk, isPost, formValid).RedirectToList? then
      t.(items := t.items + [ShoppingListItem(listPk, product, quantity, unit, false)])
    else t
  }

  /** A saved item belongs to the requester's list with the given key, is
      not bought, and can then be toggled by the requester (and by nobody
      else); nothing is saved on a 404, a GET or an invalid form. */
  lemma AddItemAttaches(t: Tables, requester: UserId, listPk: nat, isPost: bool, formValid: bool,
                        product: ProductId, quantity: Hundredths, unit: string, other: UserId)
    ensures var u := AfterAddItem(t, requester, listPk, isPost, formValid, product, quantity, unit);
      AddItemResult(t, requester, listPk, isPost, formValid).RedirectToList? ==>
        |u.items| == |t.items| + 1 && u.items[..|t.items|] == t.items && u.lists == t.lists
        && u.items[|t.items|].list == listPk && !u.items[|t.items|].isBought
        && ItemOwnedBy(u, |u.items|, requester)
        && (other != requester ==> !ItemOwnedBy(u, |u.items|, other))
    ensures !AddItemResult(t, requester, listPk, isPost, formValid).RedirectToList? ==>
      AfterAddItem(t, requester, listPk, isPost, formValid, product, quantity, unit) == t
    ensures AddItemResult(t, requester, listPk, isPost, formValid) == ListNotFound <==> !ListOwnedBy(t, listPk, requester)
  {
  }

  // ---- the tables as objects -------------------------------------------------

  class ShoppingStore {
    var lists: seq<ShoppingList>
    var items: seq<ShoppingListItem>

    function State(): Tables
      reads this
    {
      Tables(lists, items)
    }

    constructor(ls: seq<ShoppingList>)
      ensures State() == Tables(ls, [])
    {
      lists, items := ls, [];
    }

    /** `toggle_item_status`: flip `is_bought`, save, and answer with the
        flag as saved. */
    method ToggleItemStatus(requester: UserId, isPost: bool, listPk: nat, itemPk: nat)
      returns (response: ToggleResponse)
      modifies this
      ensures response == ToggleResult(old(State()), requester, isPost, itemPk)
      ensures State() == AfterToggle(old(State()), requester, isPost, itemPk)
    {
      if !isPost {
        return BadRequest;
      }
      if !(1 <= itemPk <= |items| && 1 <= items[itemPk - 1].list <= |lists|
           && lists[items[itemPk - 1].list - 1].owner == requester) {
        return ItemNotFound;
      }
      var item := items[itemPk - 1];
      item := item.(isBought := !item.isBought);
      items := items[itemPk - 1 := item];
      response := Toggled(item.isBought);
    }

    /** `add_item`: look the list up for the requester, then on a valid
        POST attach the form's item to it and save. */
    method AddItem(requester: UserId, listPk: nat, isPost: bool, formValid: bool,
                   product: ProductId, quantity: Hundredths, unit: string)
      returns (response: AddItemResponse)
      modifies this
      ensures response == AddItemResult(old(State()), requester, listPk, isPost, formValid)
      ensures State() == AfterAddItem(old(State()), requester, listPk, isPost, formValid, product, quantity, unit)
    {
      if !(1 <= listPk <= |lists| && lists[listPk - 1].owner == requester) {
        return ListNotFound;
      }
      if isPost && formValid {
        var item := ShoppingListItem(0, product, quantity, unit, false);
        item := item.(list := listPk);
        items := items + [item];
        response := RedirectToList(listPk);
      } else {
        response := FormPage;
      }
    }
  }
}
