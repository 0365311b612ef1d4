/**
 * The donation cart store: an insertion-ordered list of line items, a
 * processing flag, and the one storage slot ("donationCart") that every cart
 * change rewrites with the whole cart.
 */
module DonationContext {
  import opened Wrappers
  import opened ListOps

  datatype Frequency = OneTime | Monthly | Quarterly | Yearly

  /** One pending donation line in the cart. */
  datatype DonationItem = DonationItem(
    id: string,
    campaignId: string,
    campaignTitle: string,
    amount: int,
    frequency: Frequency,
    anonymous: bool)

  /** `Omit<DonationItem, 'id'>`: what a caller hands to addToCart. */
  datatype NewDonation = NewDonation(
    campaignId: string,
    campaignTitle: string,
    amount: int,
    frequency: Frequency,
    anonymous: bool)

  /** `Partial<DonationItem>`: the fields an update overrides (`None` = field not given). */
  datatype ItemUpdate = ItemUpdate(
    id: Option<string>,
    campaignId: Option<string>,
    campaignTitle: Option<string>,
    amount: Option<int>,
    frequency: Option<Frequency>,
    anonymous: Option<bool>)

  /**
   * The storage slot. Serialisation is abstract: a present slot holds the
   * item sequence it was written with.
   */
  datatype Slot = Absent | Saved(items: seq<DonationItem>)

  /** The message `useDonation` throws outside a provider. */
  const OutsideProviderMessage: string := "useDonation must be used within a DonationProvider"

  /** The ids that occur in the cart. */
  function Ids(cart: seq<DonationItem>): set<string>
  {
    set item | item in cart :: item.id
  }

  /** No two items of the cart share an id. */
  predicate UniqueIds(cart: seq<DonationItem>)
  {
    forall i, j :: 0 <= i < j < |cart| ==> cart[i].id != cart[j].id
  }

  /** The line item addToCart builds: the given fields plus the new id. */
  function WithId(d: NewDonation, id: string): DonationItem
  {
    DonationItem(id, d.campaignId, d.campaignTitle, d.amount, d.frequency, d.anonymous)
  }

  function Amount(item: DonationItem): int
  {
    item.amount
  }

  /** getTotalAmount: `cart.reduce((total, item) => total + item.amount, 0)`. */
  function Total(cart: seq<DonationItem>): int
  {
    SumOf(Amount, cart)
  }

  /** removeFromCart's list: `cart.filter(item => item.id !== id)`. */
  function Without(cart: seq<DonationItem>, id: string): seq<DonationItem>
  {
    Filter((item: DonationItem) => item.id != id, cart)
  }

  /** `{ ...item, ...updates }`: every field the update gives replaces the item's. */
  function Merge(item: DonationItem, u: ItemUpdate): (r: DonationItem)
    ensures r.id == (if u.id.Some? then u.id.value else item.id)
    ensures r.campaignId == (if u.campaignId.Some? then u.campaignId.value else item.campaignId)
    ensures r.campaignTitle == (if u.campaignTitle.Some? then u.campaignTitle.value else item.campaignTitle)
    ensures r.amount == (if u.amount.Some? then u.amount.value else item.amount)
    ensures r.frequency == (if u.frequency.Some? then u.frequency.value else item.frequency)
    ensures r.anonymous == (if u.anonymous.Some? then u.anonymous.value else item.anonymous)
  {
    DonationItem(
      u.id.GetOr(item.id),
      u.campaignId.GetOr(item.campaignId),
      u.campaignTitle.GetOr(item.campaignTitle),
      u.amount.GetOr(item.amount),
      u.frequency.GetOr(item.frequency),
      u.anonymous.GetOr(item.anonymous))
  }

  /** updateCartItem's list: `cart.map(item => item.id === id ? { ...item, ...updates } : item)`. */
  function UpdateMatching(cart: seq<DonationItem>, id: string, u: ItemUpdate): (r: seq<DonationItem>)
  {
    if cart == [] then []
    else [if cart[0].id == id then Merge(cart[0], u) else cart[0]] + UpdateMatching(cart[1..], id, u)
  }

  /** The total after an append is the old total plus the new amount. */
  lemma TotalAppend(cart: seq<DonationItem>, item: DonationItem)
    ensures Total(cart + [item]) == Total(cart) + item.amount
  {
    SumOfSnoc(Amount, cart, item);
  }

  /** removeFromCart keeps exactly the items with another id, in their original order. */
  lemma WithoutSpec(cart: seq<DonationItem>, id: string)
    ensures IsSubsequence(Without(cart, id), cart)
    ensures forall k :: 0 <= k < |Without(cart, id)| ==> Without(cart, id)[k].id != id
    ensures forall k :: 0 <= k < |cart| && cart[k].id != id ==> cart[k] in Without(cart, id)
    ensures id !in Ids(cart) ==> Without(cart, id) == cart
  {
    FilterIsSubsequence((item: DonationItem) => item.id != id, cart);
    if id !in Ids(cart) {
      FilterAll((item: DonationItem) => item.id != id, cart);
    }
  }

  /** Removing by id keeps the remaining ids distinct. */
  lemma {:induction false} WithoutUniqueIds(cart: seq<DonationItem>, id: string)
    requires UniqueIds(cart)
    ensures UniqueIds(Without(cart, id))
  {
    if cart != [] {
      var rest := Without(cart[1..], id);
      assert UniqueIds(cart[1..]) by {
        forall i, j | 0 <= i < j < |cart[1..]| ensures cart[1..][i].id != cart[1..][j].id {
          assert cart[1..][i] == cart[i + 1] && cart[1..][j] == cart[j + 1];
        }
      }
      WithoutUniqueIds(cart[1..], id);
      if cart[0].id != id {
        var r := [cart[0]] + rest;
        assert Without(cart, id) == r;
        assert cart[0].id !in Ids(rest) by {
          forall item | item in rest ensures item.id != cart[0].id {
            assert item in cart[1..];
            var k :| 0 <= k < |cart[1..]| && cart[1..][k] == item;
            assert cart[k + 1] == item;
          }
        }
        forall i, j | 0 <= i < j < |r| ensures r[i].id != r[j].id {
          if i == 0 {
            assert r[j] == rest[j - 1] && rest[j - 1] in rest;
          } else {
            assert r[i] == rest[i - 1] && r[j] == rest[j - 1];
          }
        }
      } else {
        assert Without(cart, id) == rest;
      }
    }
  }

  /** updateCartItem keeps length and order; matching items take the update, the others are unchanged. */
  lemma {:induction false} UpdateMatchingSpec(cart: seq<DonationItem>, id: string, u: ItemUpdate)
    ensures |UpdateMatching(cart, id, u)| == |cart|
    ensures forall k :: 0 <= k < |cart| ==>
      UpdateMatching(cart, id, u)[k] == (if cart[k].id == id then Merge(cart[k], u) else cart[k])
  {
    if cart != [] {
      UpdateMatchingSpec(cart[1..], id, u);
      var r := UpdateMatching(cart, id, u);
      forall k | 0 < k < |cart|
        ensures r[k] == (if cart[k].id == id then Merge(cart[k], u) else cart[k])
      {
        assert r[k] == UpdateMatching(cart[1..], id, u)[k - 1];
        assert cart[1..][k - 1] == cart[k];
      }
    }
  }

  /** An update for an id that is not in the cart changes nothing. */
  lemma {:induction false} UpdateAbsent(cart: seq<DonationItem>, id: string, u: ItemUpdate)
    requires id !in Ids(cart)
    ensures UpdateMatching(cart, id, u) == cart
  {
    if cart != [] {
      assert cart[0] in cart;
      assert Ids(cart[1..]) <= Ids(cart);
      UpdateAbsent(cart[1..], id, u);
    }
  }

  /** useDonation: the provider's store, or the error it throws when there is none. */
  function UseDonation(provider: Option<CartStore>): (r: Result<CartStore, string>)
    ensures r.Ok? <==> provider.Some?
    ensures r.Ok? ==> r.value == provider.value
    ensures r.Err? ==> r.error == OutsideProviderMessage
  {
    match provider
    case Some(store) => Ok(store)
    case None => Err(OutsideProviderMessage)
  }

  /** DonationProvider's state. */
  class CartStore {
    var cart: seq<DonationItem>
    var isProcessing: bool
    /** The storage slot, as the effect on `cart` last wrote it. */
    var slot: Slot

    /** The slot holds the current cart. */
    predicate Persisted()
      reads this
    {
      slot == Saved(cart)
    }

    /**
     * Mount: the cart starts empty and not processing, the load effect takes a
     * present slot's items, and the save effect then writes the cart back.
     */
    constructor (stored: Slot)
      ensures cart == (if stored.Saved? then stored.items else [])
      ensures !isProcessing
      ensures Persisted()
    {
      cart := [];
      isProcessing := false;
      if stored.Saved? {
        cart := stored.items;
      }
      slot := Saved(cart);
    }

    /** addToCart with a caller-chosen id that no item of the cart has yet. */
    method AddToCart(d: NewDonation, freshId: string)
      requires freshId !in Ids(cart)
      modifies this`cart, this`slot
      ensures cart == old(cart) + [WithId(d, freshId)]
      ensures Total(cart) == Total(old(cart)) + d.amount
      ensures old(UniqueIds(cart)) ==> UniqueIds(cart)
      ensures Persisted()
    {
      var item := WithId(d, freshId);
      TotalAppend(cart, item);
      assert UniqueIds(cart) ==> UniqueIds(cart + [item]) by {
        var r := cart + [item];
        if UniqueIds(cart) {
          forall i, j | 0 <= i < j < |r| ensures r[i].id != r[j].id {
            assert r[i] == cart[i] && cart[i] in cart;
          }
        }
      }
      cart := cart + [item];
      slot := Saved(cart);
    }

    /** removeFromCart: every item with that id dropped, the rest kept in order. */
    method RemoveFromCart(id: string)
      modifies this`cart, this`slot
      ensures cart == Without(old(cart), id)
      ensures old(UniqueIds(cart)) ==> UniqueIds(cart)
      ensures Persisted()
    {
      if UniqueIds(cart) {
        WithoutUniqueIds(cart, id);
      }
      cart := Without(cart, id);
      slot := Saved(cart);
    }

    /** updateCartItem: the update merged into every item with that id. */
    method UpdateCartItem(id: string, u: ItemUpdate)
      modifies this`cart, this`slot
      ensures cart == UpdateMatching(old(cart), id, u)
      ensures Persisted()
    {
      cart := UpdateMatching(cart, id, u);
      slot := Saved(cart);
    }

    /** clearCart. */
    method ClearCart()
      modifies this`cart, this`slot
      ensures cart == [] && Total(cart) == 0
      ensures Persisted()
    {
      cart := [];
      slot := Saved(cart);
    }

    /** processDonation up to its await: the flag goes up, the cart is untouched. */
    method BeginProcessDonation()
      modifies this`isProcessing
      ensures isProcessing
    {
      isProcessing := true;
    }

    /** processDonation after the delay: the cart is cleared, then the flag goes down. */
    method FinishProcessDonation()
      modifies this`cart, this`slot, this`isProcessing
      ensures cart == [] && Total(cart) == 0
      ensures !isProcessing
      ensures Persisted()
    {
      ClearCart();
      isProcessing := false;
    }
  }

  /** The two-item scenario: totals add up and insertion order is kept. */
  method CartScenario()
  {
    var store := new CartStore(Absent);
    assert store.cart == [];
    store.AddToCart(NewDonation("1", "Hurricane Relief - Florida Coast", 100, OneTime, false), "a");
    store.AddToCart(NewDonation("2", "Wildfire Emergency Support", 50, Monthly, true), "b");
    assert |store.cart| == 2 && store.cart[0].campaignId == "1" && store.cart[1].campaignId == "2";
    assert Total(store.cart) == 150;
    store.RemoveFromCart("a");
    assert store.cart == [store.cart[0]] && store.cart[0].id == "b";
  }
}
