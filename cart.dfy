/** The reservation cart of main.js (`ReservationCart`): an ordered list of room
    selections, persisted in full under `reservationCart` after every change, and
    the count badges it refreshes. */
module Cart {
  import opened Wrappers

  /** One selection; `addedAt` is the clock's reading when it was added. */
  datatype CartItem = CartItem(roomId: string, checkIn: string, checkOut: string, guests: int, addedAt: int)

  /** What every `.cart-count` element shows: the count as its text, displayed iff it is positive. */
  datatype Badge = Badge(count: int, visible: bool)

  function BadgeFor(count: nat): (b: Badge)
    ensures b.count == count
    ensures b.visible <==> count > 0
  {
    Badge(count, count > 0)
  }

  /** `JSON.parse(localStorage.getItem(key)) || []`: an absent entry reads as the empty list. */
  function Load(stored: Option<seq<CartItem>>): seq<CartItem> {
    stored.GetOr([])
  }

  /** Where `splice(index, 1)` starts: a negative index counts from the end (clamped at 0), a large one is clamped at the length. */
  function SpliceStart(index: int, len: nat): (k: nat)
    ensures k <= len
    ensures 0 <= index ==> k == if index < len then index else len
    ensures index < 0 ==> k == if len + index >= 0 then len + index else 0
  {
    if index < 0 then (if len + index >= 0 then len + index else 0)
    else if index < len then index else len
  }

  /** `items.splice(index, 1)`: drops the one item at the start position when there is one. */
  function Spliced<T>(s: seq<T>, index: int): (r: seq<T>)
    ensures var k := SpliceStart(index, |s|);
      && |r| == (if k < |s| then |s| - 1 else |s|)
      && forall j | 0 <= j < |r| :: r[j] == if j < k then s[j] else s[j + 1]
  {
    var k := SpliceStart(index, |s|);
    if k < |s| then s[..k] + s[k + 1..] else s
  }

  /** For an index in range, exactly that item goes and the others keep their order; past the end nothing changes. */
  lemma SplicedInRange<T>(s: seq<T>, index: int)
    ensures 0 <= index < |s| ==> Spliced(s, index) == s[..index] + s[index + 1..]
    ensures index >= |s| ==> Spliced(s, index) == s
  {
  }

  /** A negative index removes the item that far from the end, or the first item once it reaches past the start. */
  lemma SplicedNegative<T>(s: seq<T>, index: int)
    requires index < 0 && s != []
    ensures var k := if |s| + index >= 0 then |s| + index else 0;
      Spliced(s, index) == s[..k] + s[k + 1..]
  {
  }

  class ReservationCart {
    var items: seq<CartItem>
    /** The `reservationCart` entry of local storage. */
    var store: Option<seq<CartItem>>
    /** The badges' state; `None` until the first refresh. */
    var badge: Option<Badge>

    /** Reloading the store gives back the list in memory. */
    ghost predicate Valid()
      reads this
    {
      Load(store) == items
    }

    /** The constructor loads the stored list, or the empty list when there is none. */
    constructor (stored: Option<seq<CartItem>>)
      ensures Valid()
      ensures items == Load(stored) && store == stored && badge == None
    {
      items := Load(stored);
      store := stored;
      badge := None;
    }

    /** `getCount` */
    function GetCount(): (n: nat)
      reads this
      ensures n == |items|
    {
      |items|
    }

    /** `save`: the whole list goes to the store. */
    method Save()
      modifies this`store
      ensures store == Some(items)
      ensures Valid()
    {
      store := Some(items);
    }

    /** `updateCartCount`: every badge shows the count and is visible iff it is positive. */
    method UpdateCartCount()
      modifies this`badge
      ensures badge == Some(BadgeFor(|items|))
    {
      badge := Some(BadgeFor(GetCount()));
    }

    /** `addItem`: appends one item at the end, earlier items untouched, then saves and refreshes the badges. */
    method AddItem(roomId: string, checkIn: string, checkOut: string, guests: int, now: int)
      modifies this
      ensures items == old(items) + [CartItem(roomId, checkIn, checkOut, guests, now)]
      ensures store == Some(items) && Valid()
      ensures badge == Some(BadgeFor(|items|))
    {
      items := items + [CartItem(roomId, checkIn, checkOut, guests, now)];
      Save();
      UpdateCartCount();
    }

    /** `removeItem`: `splice(index, 1)`, then save and refresh. */
    method RemoveItem(index: int)
      modifies this
      ensures items == Spliced(old(items), index)
      ensures store == Some(items) && Valid()
      ensures badge == Some(BadgeFor(|items|))
    {
      items := Spliced(items, index);
      Save();
      UpdateCartCount();
    }

    /** `clear`: empties the list, persists the empty list and hides the badges. */
    method Clear()
      modifies this
      ensures items == [] && GetCount() == 0
      ensures store == Some([]) && Valid()
      ensures badge == Some(Badge(0, false))
    {
      items := [];
      Save();
      UpdateCartCount();
    }
  }

  /** A later page load sees the cart as last saved: a fresh cart built from the store holds the same items. */
  method Reload(c: ReservationCart) returns (d: ReservationCart)
    requires c.Valid()
    ensures fresh(d) && d.Valid()
    ensures d.items == c.items && d.store == c.store
  {
    d := new ReservationCart(c.store);
  }
}
