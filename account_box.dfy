/**
 * AccountBoxBase (apps/meteor/app/ui-utils/client/lib/AccountBox.ts): the open/closed status of
 * the account box and its list of items.
 *
 * SideNav.ts is not part of this model: the side-nav flex is an object with an open flag that
 * `open` reads, and a count of the `closeFlex` calls it receives.
 */
module AccountBox {
  import opened Wrappers
  import opened Collections

  /** An account-box item; `appId` is absent for items not contributed by an app. */
  datatype Item = Item(name: string, appId: Option<string>)

  /** The account box and the side-nav flex it consults, as a value. */
  datatype BoxState = BoxState(status: int, items: seq<Item>, flexOpen: bool, closeFlexCalls: nat)

  /** open: with the flex open, only close the flex; otherwise the box opens. */
  function OpenEffect(s: BoxState): (r: BoxState)
    ensures s.flexOpen ==> r == s.(closeFlexCalls := s.closeFlexCalls + 1)
    ensures !s.flexOpen ==> r == s.(status := 1)
  {
    if s.flexOpen then s.(closeFlexCalls := s.closeFlexCalls + 1) else s.(status := 1)
  }

  /** close and openFlex: status 0. */
  function CloseEffect(s: BoxState): (r: BoxState)
    ensures r.status == 0 && r.items == s.items && r.flexOpen == s.flexOpen && r.closeFlexCalls == s.closeFlexCalls
  {
    s.(status := 0)
  }

  /** toggle: a truthy status closes, status 0 opens. */
  function ToggleEffect(s: BoxState): (r: BoxState)
    ensures s.status != 0 ==> r.status == 0
    ensures s.status == 0 && !s.flexOpen ==> r.status == 1
    ensures s.status == 0 && s.flexOpen ==> r.status == 0 && r.closeFlexCalls == s.closeFlexCalls + 1
    ensures r.items == s.items
  {
    if s.status != 0 then CloseEffect(s) else OpenEffect(s)
  }

  /** addItem: the item pushed at the end. */
  function AddItemEffect(items: seq<Item>, newItem: Item): (r: seq<Item>)
    ensures |r| == |items| + 1 && r[..|items|] == items && r[|items|] == newItem
  {
    items + [newItem]
  }

  /** `appId` equality as `===` decides it: two items without an app id match. */
  function SameApp(item: Item): Item -> bool {
    (other: Item) => other.appId == item.appId
  }

  /**
   * deleteItem: `splice(findIndex(...), 1)`. When no item matches, findIndex gives -1 and
   * `splice(-1, 1)` removes the last element.
   */
  function DeleteItemEffect(items: seq<Item>, item: Item): (r: seq<Item>)
    ensures |items| == 0 ==> r == []
    ensures |items| > 0 ==> |r| == |items| - 1
    ensures FirstIndex(items, SameApp(item)).None? && |items| > 0 ==> r == items[..|items| - 1]
    ensures FirstIndex(items, SameApp(item)).Some? ==> r == RemoveAt(items, FirstIndex(items, SameApp(item)).value)
  {
    match FirstIndex(items, SameApp(item))
    case Some(i) => RemoveAt(items, i)
    case None => if |items| == 0 then [] else RemoveAt(items, |items| - 1)
  }

  /** toggle from a nonzero status is close; from status 0 it is open. */
  lemma ToggleIsCloseOrOpen(s: BoxState)
    ensures s.status != 0 ==> ToggleEffect(s) == CloseEffect(s)
    ensures s.status == 0 ==> ToggleEffect(s) == OpenEffect(s)
  {
  }

  /** Toggling a closed box with the flex shut opens it, and toggling again closes it. */
  lemma ToggleTwiceCloses(s: BoxState)
    requires s.status == 0 && !s.flexOpen
    ensures ToggleEffect(ToggleEffect(s)) == s
  {
  }

  /** Deleting right after adding an item whose app id no stored item has restores the list. */
  lemma {:induction false} DeleteUndoesAdd(items: seq<Item>, newItem: Item)
    requires forall k :: 0 <= k < |items| ==> items[k].appId != newItem.appId
    ensures DeleteItemEffect(AddItemEffect(items, newItem), newItem) == items
  {
    var added := AddItemEffect(items, newItem);
    assert forall k :: 0 <= k < |items| ==> !SameApp(newItem)(added[k]);
    assert SameApp(newItem)(added[|items|]);
    assert FirstIndex(added, SameApp(newItem)) == Some(|items|);
    assert RemoveAt(added, |items|) == items;
  }

  /** Deleting an item no stored item matches drops the last item all the same. */
  lemma DeleteUnmatchedDropsLast(items: seq<Item>, item: Item)
    requires |items| > 0 && forall k :: 0 <= k < |items| ==> items[k].appId != item.appId
    ensures DeleteItemEffect(items, item) == items[..|items| - 1]
  {
  }

  /** Deleting removes the first matching item only: every other item keeps its relative order. */
  lemma DeleteRemovesFirstMatch(items: seq<Item>, item: Item, i: nat)
    requires i < |items| && items[i].appId == item.appId
    requires forall k :: 0 <= k < i ==> items[k].appId != item.appId
    ensures DeleteItemEffect(items, item) == items[..i] + items[i + 1..]
  {
    assert SameApp(item)(items[i]);
    assert forall k :: 0 <= k < i ==> !SameApp(item)(items[k]);
  }

  /** The side-nav flex as far as the account box uses it. */
  class SideNav {
    var flexOpen: bool
    var closeFlexCalls: nat

    constructor (flexOpen: bool)
      ensures this.flexOpen == flexOpen && closeFlexCalls == 0
    {
      this.flexOpen := flexOpen;
      closeFlexCalls := 0;
    }

    /** SideNav.closeFlex, recorded as a call. */
    method CloseFlex()
      modifies this
      ensures flexOpen == old(flexOpen) && closeFlexCalls == old(closeFlexCalls) + 1
    {
      closeFlexCalls := closeFlexCalls + 1;
    }
  }

  /** The account box. */
  class AccountBoxBase {
    var status: int
    var items: seq<Item>
    const sideNav: SideNav

    function State(): BoxState
      reads this, sideNav
    {
      BoxState(status, items, sideNav.flexOpen, sideNav.closeFlexCalls)
    }

    constructor (sideNav: SideNav)
      ensures status == 0 && items == [] && this.sideNav == sideNav
    {
      status := 0;
      items := [];
      this.sideNav := sideNav;
    }

    method Open()
      modifies this, sideNav
      ensures State() == OpenEffect(old(State()))
    {
      if sideNav.flexOpen {
        sideNav.CloseFlex();
        return;
      }
      status := 1;
    }

    method Close()
      modifies this
      ensures State() == CloseEffect(old(State()))
    {
      status := 0;
    }

    method Toggle()
      modifies this, sideNav
      ensures State() == ToggleEffect(old(State()))
    {
      if status != 0 {
        Close();
        return;
      }
      Open();
    }

    method OpenFlex()
      modifies this
      ensures State() == CloseEffect(old(State()))
    {
      status := 0;
    }

    method AddItem(newItem: Item)
      modifies this
      ensures items == AddItemEffect(old(items), newItem) && status == old(status)
    {
      items := items + [newItem];
    }

    method DeleteItem(item: Item)
      modifies this
      ensures items == DeleteItemEffect(old(items), item) && status == old(status)
    {
      var itemIndex: int := match FirstIndex(items, SameApp(item)) case Some(i) => i case None => -1;
      // splice with a negative start counts from the end
      var start := if itemIndex < 0 then |items| + itemIndex else itemIndex;
      if 0 <= start < |items| {
        items := items[..start] + items[start + 1..];
      }
    }

    /** getItems: the stored items the dropdown filters let through, each as often as stored. */
    function GetItems(visible: Item -> bool): (r: seq<Item>)
      reads this
      ensures forall x :: x in r <==> x in items && visible(x)
      ensures forall x :: multiset(r)[x] == if visible(x) then multiset(items)[x] else 0
      ensures |r| <= |items|
    {
      Filter(items, visible)
    }
  }
}
