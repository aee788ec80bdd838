/**
 * components/PluginStore.tsx: the plugin catalogue, ownership, what each
 * card offers, and the purchase handler with its shortfall message and
 * in-progress marker.
 */
module Store {
  import opened Common
  import opened Text
  import opened Auth

  datatype Category = Core | AI | Studio

  /** `StoreItem`, without its display name, description and icon. */
  datatype StoreItem = StoreItem(id: string, cost: int, category: Category)

  /** `STORE_ITEMS` */
  const StoreItems: seq<StoreItem> := [
    StoreItem("feature_tone", 50, Core),
    StoreItem("feature_keywords", 30, Core),
    StoreItem("feature_rhyme", 60, Core),
    StoreItem("feature_flow", 80, Core),
    StoreItem("feature_structure", 100, Core),
    StoreItem("feature_ai_advanced", 150, AI),
    StoreItem("feature_beat_upload", 120, Studio),
    StoreItem("feature_sequencer", 90, Studio)
  ]

  /** The ids of the catalogue, in order. */
  function StoreIds(): (ids: seq<string>)
    ensures |ids| == |StoreItems|
    ensures forall k :: 0 <= k < |ids| ==> ids[k] == StoreItems[k].id
  {
    seq(|StoreItems|, k requires 0 <= k < |StoreItems| => StoreItems[k].id)
  }

  /** Eight items, no two with the same id, each with a positive price. */
  lemma CatalogueWellFormed()
    ensures |StoreItems| == 8
    ensures forall a, b :: 0 <= a < b < |StoreItems| ==> StoreItems[a].id != StoreItems[b].id
    ensures forall k :: 0 <= k < |StoreItems| ==> StoreItems[k].cost > 0
  {
    forall a, b | 0 <= a < b < |StoreItems|
      ensures StoreItems[a].id != StoreItems[b].id
    {
      var x, y := StoreItems[a].id, StoreItems[b].id;
      assert x[8] != y[8] || x[9] != y[9] || |x| != |y| || x[10] != y[10];
    }
  }

  /** `isOwned` */
  predicate IsOwned(u: User, itemId: string): (owned: bool)
    ensures owned <==> exists k :: 0 <= k < |u.ownedPlugins| && u.ownedPlugins[k] == itemId
  {
    itemId in u.ownedPlugins
  }

  /** What an item's card shows: activated, a disabled processing button, or a buy button. */
  datatype CardAction = Activated | Processing | BuyButton(cost: int, affordable: bool)

  function CardFor(u: User, item: StoreItem, buyingId: Option<string>): (a: CardAction)
    ensures a.Activated? <==> IsOwned(u, item.id)
    ensures a.Processing? <==> !IsOwned(u, item.id) && buyingId == Some(item.id)
    ensures a.BuyButton? ==> a.cost == item.cost && (a.affordable <==> u.credits >= item.cost)
  {
    if IsOwned(u, item.id) then Activated
    else if buyingId == Some(item.id) then Processing
    else BuyButton(item.cost, u.credits >= item.cost)
  }

  /** The error for a purchase the balance does not cover; it names the missing amount. */
  function ShortfallMessage(missing: int): string {
    "اعتبار کافی نیست! شما به " + IntToString(missing) + " واحد دیگر نیاز دارید."
  }

  const PurchaseFailedMessage: string := "خطا در خرید. مجددا تلاش کنید."

  /** The store panel's own state: the item being bought and the error shown. */
  class StorePanel {
    var buyingId: Option<string>
    var error: Option<string>

    constructor ()
      ensures buyingId == None && error == None
    {
      buyingId := None;
      error := None;
    }

    /**
     * `handleBuy` for a signed-in user. A shortfall only sets the message
     * naming the positive missing amount and never calls `buyPlugin`.
     * Otherwise the item is marked as being bought, `buyPlugin` runs with
     * its whole effect (`BuyEffect`), a failure sets the error, and the mark
     * is cleared.
     */
    method HandleBuy(auth: AuthStore, item: StoreItem, serverOk: bool) returns (ok: bool)
      requires auth.user.Some?
      modifies this, auth
      ensures var u := old(auth.user.value);
        && (u.credits < item.cost ==>
          && item.cost - u.credits > 0
          && !ok && error == Some(ShortfallMessage(item.cost - u.credits)) && buyingId == old(buyingId)
          && auth.user == old(auth.user) && auth.stored == old(auth.stored)
          && auth.writes == old(auth.writes) && auth.activity == old(auth.activity))
        && (u.credits >= item.cost ==>
          && buyingId == None
          && error == (if ok then old(error) else Some(PurchaseFailedMessage))
          && BuyEffect(auth, item.id, item.cost, serverOk, ok))
    {
      var u := auth.user.value;
      if u.credits < item.cost {
        error := Some(ShortfallMessage(item.cost - u.credits));
        return false;
      }
      buyingId := Some(item.id);
      ok := auth.BuyPlugin(item.id, item.cost, serverOk);
      if !ok {
        error := Some(PurchaseFailedMessage);
      }
      buyingId := None;
    }

    /** The timer set with a shortfall message clears it. */
    method ErrorTimeout()
      modifies this
      ensures error == None && buyingId == old(buyingId)
    {
      error := None;
    }
  }
}
