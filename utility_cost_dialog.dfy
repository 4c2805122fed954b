/** `src/components/utility-cost-dialog.tsx`: a local copy of the store's
    unit prices, edited per type and written back on confirm. */
module UtilityCostDialog {
  import opened Types
  import UtilityCostsStore

  class Dialog {
    const store: UtilityCostsStore.Store
    var costs: seq<UtilCost>

    /** The local list starts as the store's. */
    constructor(store: UtilityCostsStore.Store)
      ensures this.store == store && costs == store.costs
    {
      this.store := store;
      costs := store.costs;
    }

    /** `handlePriceChange`: the price of the entries of type `t`. */
    method HandlePriceChange(t: UtilType, price: real)
      modifies this
      ensures costs == UtilityCostsStore.Updated(old(costs), t, price)
    {
      costs := UtilityCostsStore.Updated(costs, t, price);
    }

    /** `handleConfirm`: the local list handed to `setCosts`. */
    method HandleConfirm()
      modifies store
      ensures store.costs == UtilityCostsStore.WithDefaults(costs)
      ensures forall t :: UtilityCostsStore.PriceOf(store.costs, t) == UtilityCostsStore.PriceOf(costs, t)
    {
      forall t ensures UtilityCostsStore.PriceOf(UtilityCostsStore.WithDefaults(costs), t) == UtilityCostsStore.PriceOf(costs, t) {
        UtilityCostsStore.PriceAfterSetCosts(costs, t);
      }
      store.SetCosts(costs);
    }
  }
}
