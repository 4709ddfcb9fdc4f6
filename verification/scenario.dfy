/**
 * The service with the five mock providers registered in the order the
 * application registers them: price providers A, B, C and stock providers
 * East, West. The random draws and failure decisions of each provider, per
 * request slot, are the parameter `MockDraws`.
 */
module MockScenario {
  import opened DotNet
  import opened Models
  import opened Services
  import opened MockPriceProviders
  import opened MockStockProviders

  /** What the mock providers' random number generators decide for the product in each slot. */
  datatype MockDraws = MockDraws(
    A: nat -> DrawA,
    B: nat -> DrawB,
    C: nat -> DrawC,
    AUnavailable: nat -> bool,
    EastUnavailable: nat -> bool)

  const PriceKinds: seq<PriceProviderKind> := [MockPriceProviderA, MockPriceProviderB, MockPriceProviderC]
  const StockKinds: seq<StockProviderKind> := [MockStockProviderEast, MockStockProviderWest]

  /** The identities of the registered mock providers, in registration order. */
  const MockPriceInfos: seq<ProviderInfo> := seq(3, i requires 0 <= i < 3 => ProviderInfo(PriceKinds[i].ProviderId(), PriceKinds[i].ProviderName()))
  const MockStockInfos: seq<ProviderInfo> := seq(2, i requires 0 <= i < 2 => ProviderInfo(StockKinds[i].ProviderId(), StockKinds[i].ProviderName()))

  /** What the i-th registered price provider returns for `productId` in `slot`. */
  function MockPriceCall(i: nat, productId: string, slot: nat, hash: string -> Int32, draws: MockDraws): PriceCall {
    if i == 0 then Returned(GetPriceA(productId, hash, draws.AUnavailable(slot), draws.A(slot)))
    else if i == 1 then Returned(GetPriceB(productId, hash, draws.B(slot)))
    else Returned(GetPriceC(productId, hash, draws.C(slot)))
  }

  /** What the i-th registered stock provider returns for `productId` in `slot`. */
  function MockStockCall(i: nat, productId: string, slot: nat, hash: string -> Int32, draws: MockDraws): StockCall {
    if i == 0 then Returned(GetStockEast(productId, hash, draws.EastUnavailable(slot)))
    else Returned(GetStockWest(productId, hash))
  }

  /** The behaviour of the mock providers: they never throw. */
  function MockBehaviour(hash: string -> Int32, draws: MockDraws): ProviderBehaviour {
    ProviderBehaviour(
      (i: nat, productId: string, slot: nat) => MockPriceCall(i, productId, slot, hash, draws),
      (i: nat, productId: string, slot: nat) => MockStockCall(i, productId, slot, hash, draws))
  }

  /**
   * With the mocks registered and neither A nor East failing for `slot`, a
   * product gets one quote from each of A, B and C in that order, and eight
   * stock levels: East's four warehouses, then West's four.
   */
  lemma MockProductComplete(service: ProductAggregatorService, productId: string, hash: string -> Int32, draws: MockDraws, slot: nat)
    requires service.PriceProviders == MockPriceInfos && service.StockProviders == MockStockInfos
    requires !draws.AUnavailable(slot) && !draws.EastUnavailable(slot)
    requires hash(productId) != MinValue
    ensures var r := service.ProductSpec(productId, true, true, hash, MockBehaviour(hash, draws), slot);
      && r.Returned?
      && |r.value.Prices| == 3
      && (forall i :: 0 <= i < 3 ==>
            r.value.Prices[i].ProviderId == PriceKinds[i].ProviderId() && r.value.Prices[i].Currency == "USD")
      && |r.value.StockLevels| == 8
      && (forall i :: 0 <= i < 4 ==> r.value.StockLevels[i].WarehouseId == "WH_" + MockStockProviderEast.Warehouses()[i])
      && (forall i :: 0 <= i < 4 ==> r.value.StockLevels[4 + i].WarehouseId == "WH_" + MockStockProviderWest.Warehouses()[i])
  {
    var behaviour := MockBehaviour(hash, draws);
    var prices := service.PriceCalls(behaviour, productId, slot);
    assert prices[0] == MockPriceCall(0, productId, slot, hash, draws);
    assert prices[1] == MockPriceCall(1, productId, slot, hash, draws);
    assert prices[2] == MockPriceCall(2, productId, slot, hash, draws);
    CollectedPricesAllDelivered(prices);
    var stock := service.StockCalls(behaviour, productId, slot);
    var east := GetStockEast(productId, hash, false);
    var west := GetStockWest(productId, hash);
    assert stock == [Returned(east), Returned(west)];
    assert stock == [Returned(east)] + [Returned(west)];
    CollectedLevelsAppend([Returned(east)], [Returned(west)]);
    assert CollectedLevels([Returned(east)]) == east.StockInfos;
    assert CollectedLevels([Returned(west)]) == west.StockInfos;
  }

  /**
   * The two-product scenario: for `PROD-0001` and `PROD-0002` with the mocks
   * registered and no provider failing, both products are returned, in request
   * order, each with three quotes and eight stock levels, and no error.
   */
  lemma TwoProductScenario(service: ProductAggregatorService, hash: string -> Int32, draws: MockDraws, elapsedMs: int)
    requires service.PriceProviders == MockPriceInfos && service.StockProviders == MockStockInfos
    requires !draws.AUnavailable(0) && !draws.EastUnavailable(0)
    requires !draws.AUnavailable(1) && !draws.EastUnavailable(1)
    requires hash("PROD-0001") != MinValue && hash("PROD-0002") != MinValue
    ensures var r := service.AggregateSpec(AggregatedProductRequest(["PROD-0001", "PROD-0002"], true, true),
                                           hash, MockBehaviour(hash, draws), elapsedMs);
      && r.TotalRequested == 2 && r.TotalSuccessful == 2 && r.Errors == []
      && r.Products[0].Id == "PROD-0001" && r.Products[1].Id == "PROD-0002"
      && |r.Products[0].Prices| == 3 && |r.Products[1].Prices| == 3
      && |r.Products[0].StockLevels| == 8 && |r.Products[1].StockLevels| == 8
  {
    var request := AggregatedProductRequest(["PROD-0001", "PROD-0002"], true, true);
    var behaviour := MockBehaviour(hash, draws);
    service.AllSucceedWithoutOverflow(request, hash, behaviour, elapsedMs);
    MockProductComplete(service, "PROD-0001", hash, draws, 0);
    MockProductComplete(service, "PROD-0002", hash, draws, 1);
  }
}
