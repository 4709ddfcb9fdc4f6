/**
 * The provider registry: two dictionaries from provider id to provider, filled
 * once by the constructor and only read afterwards.
 *
 * A .NET `Dictionary` with no removals enumerates its values in insertion
 * order; the runtime does not promise this, so the model states it as an
 * assumption by keeping the insertion order of the keys (`PriceKeys`,
 * `StockKeys`) beside each map.
 */
module Factories {
  import opened DotNet
  import opened MockPriceProviders
  import opened MockStockProviders

  class ProviderFactory {
    const PriceProviders: map<string, PriceProviderKind>
    const StockProviders: map<string, StockProviderKind>
    const PriceKeys: seq<string>
    const StockKeys: seq<string>

    /** The registry as the constructor leaves it; the fields are read-only, so it stays so. */
    ghost predicate Valid() {
      && PriceProviders == map["PRICE_A" := MockPriceProviderA, "PRICE_B" := MockPriceProviderB, "PRICE_C" := MockPriceProviderC]
      && PriceKeys == ["PRICE_A", "PRICE_B", "PRICE_C"]
      && StockProviders == map["STOCK_EAST" := MockStockProviderEast, "STOCK_WEST" := MockStockProviderWest]
      && StockKeys == ["STOCK_EAST", "STOCK_WEST"]
    }

    constructor()
      ensures Valid()
      ensures PriceProviders.Keys == {"PRICE_A", "PRICE_B", "PRICE_C"}
      ensures StockProviders.Keys == {"STOCK_EAST", "STOCK_WEST"}
    {
      PriceProviders := map["PRICE_A" := MockPriceProviderA, "PRICE_B" := MockPriceProviderB, "PRICE_C" := MockPriceProviderC];
      PriceKeys := ["PRICE_A", "PRICE_B", "PRICE_C"];
      StockProviders := map["STOCK_EAST" := MockStockProviderEast, "STOCK_WEST" := MockStockProviderWest];
      StockKeys := ["STOCK_EAST", "STOCK_WEST"];
    }

    /** `_priceProviders.Values`, in insertion order. */
    function GetPriceProviders(): (ps: seq<PriceProviderKind>)
      requires Valid()
      ensures |ps| == |PriceProviders|
      ensures forall i :: 0 <= i < |ps| ==> ps[i] == PriceProviders[PriceKeys[i]]
    {
      seq(|PriceKeys|, i requires 0 <= i < |PriceKeys| => PriceProviders[PriceKeys[i]])
    }

    /** `_stockProviders.Values`, in insertion order. */
    function GetStockProviders(): (ps: seq<StockProviderKind>)
      requires Valid()
      ensures |ps| == |StockProviders|
      ensures forall i :: 0 <= i < |ps| ==> ps[i] == StockProviders[StockKeys[i]]
    {
      seq(|StockKeys|, i requires 0 <= i < |StockKeys| => StockProviders[StockKeys[i]])
    }

    /** `TryGetValue`: the provider stored under `providerId`, or null when there is none. */
    function GetPriceProvider(providerId: string): (p: Option<PriceProviderKind>)
      ensures p.Some? <==> providerId in PriceProviders
      ensures p.Some? ==> p.value == PriceProviders[providerId]
    {
      if providerId in PriceProviders then Some(PriceProviders[providerId]) else None
    }

    /** `TryGetValue`: the provider stored under `providerId`, or null when there is none. */
    function GetStockProvider(providerId: string): (p: Option<StockProviderKind>)
      ensures p.Some? <==> providerId in StockProviders
      ensures p.Some? ==> p.value == StockProviders[providerId]
    {
      if providerId in StockProviders then Some(StockProviders[providerId]) else None
    }

    /** Every key names the provider stored under it. */
    lemma KeysAreProviderIds()
      requires Valid()
      ensures forall id :: id in PriceProviders ==> PriceProviders[id].ProviderId() == id
      ensures forall id :: id in StockProviders ==> StockProviders[id].ProviderId() == id
    {
    }

    /** The registries are separate: no id finds both a price and a stock provider. */
    lemma RegistriesDisjoint(providerId: string)
      requires Valid()
      ensures GetPriceProvider(providerId).Some? ==> GetStockProvider(providerId).None?
      ensures GetStockProvider(providerId).Some? ==> GetPriceProvider(providerId).None?
    {
    }

    /** Every provider the enumerations yield is found again by its own id, and the enumerations list three and two providers. */
    lemma ListedProvidersAreFound()
      requires Valid()
      ensures |GetPriceProviders()| == 3 && |GetStockProviders()| == 2
      ensures forall p :: p in GetPriceProviders() ==> GetPriceProvider(p.ProviderId()) == Some(p)
      ensures forall p :: p in GetStockProviders() ==> GetStockProvider(p.ProviderId()) == Some(p)
    {
    }
  }
}
