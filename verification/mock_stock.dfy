/**
 * The two simulated stock providers. Each reports four fixed warehouses; a
 * warehouse's quantity is `Math.Abs(hash(productId + warehouse) % n)`. The
 * delay is not modelled and the East provider's random failure decision is the
 * parameter `unavailable`.
 */
module MockStockProviders {
  import opened DotNet
  import opened Models

  /** The two stock providers, with the identity each one reports. */
  datatype StockProviderKind = MockStockProviderEast | MockStockProviderWest
  {
    function ProviderId(): string {
      match this
      case MockStockProviderEast => "STOCK_EAST"
      case MockStockProviderWest => "STOCK_WEST"
    }

    function ProviderName(): string {
      match this
      case MockStockProviderEast => "East Coast Inventory"
      case MockStockProviderWest => "West Coast Inventory"
    }

    /** The warehouses the provider reports, in the order it reports them. */
    function Warehouses(): seq<string> {
      match this
      case MockStockProviderEast => ["NYC", "BOS", "MIA", "ATL"]
      case MockStockProviderWest => ["LAX", "SEA", "SFO", "PHX"]
    }

    /** The prefix of every warehouse's `Location`. */
    function Coast(): string {
      match this
      case MockStockProviderEast => "East Coast"
      case MockStockProviderWest => "West Coast"
    }

    /** The modulus of the quantity: quantities lie in [0, QuantityBound()). */
    function QuantityBound(): nat {
      match this
      case MockStockProviderEast => 100
      case MockStockProviderWest => 150
    }
  }

  const EastUnavailableMessage: string := "East Coast inventory service unavailable"

  /** The stock entry `kind` reports for `productId` in warehouse `wh`. */
  function WarehouseStock(kind: StockProviderKind, productId: string, wh: string, hash: string -> Int32): (s: StockInfo)
    ensures s.WarehouseId == "WH_" + wh
    ensures s.WarehouseName == wh + " Distribution Center"
    ensures s.Location == kind.Coast() + " - " + wh
    ensures 0 <= s.Quantity < kind.QuantityBound()
    ensures s.Quantity == Mag(hash(productId + wh)) % kind.QuantityBound()
  {
    StockInfo(
      "WH_" + wh,
      wh + " Distribution Center",
      kind.Coast() + " - " + wh,
      AbsRem(hash(productId + wh), kind.QuantityBound()))
  }

  /** The `Select` over the warehouse array: one entry per warehouse, in array order. */
  function StockInfos(kind: StockProviderKind, productId: string, hash: string -> Int32): (infos: seq<StockInfo>)
    ensures |infos| == |kind.Warehouses()| == 4
    ensures forall i :: 0 <= i < 4 ==> infos[i] == WarehouseStock(kind, productId, kind.Warehouses()[i], hash)
  {
    var whs := kind.Warehouses();
    seq(|whs|, i requires 0 <= i < |whs| => WarehouseStock(kind, productId, whs[i], hash))
  }

  /** A successful response for `kind`. */
  function Stocked(kind: StockProviderKind, productId: string, hash: string -> Int32): StockProviderResponse {
    StockProviderResponse(true, None, productId, StockInfos(kind, productId, hash))
  }

  /**
   * True when `resp` is a success reporting exactly `kind`'s four warehouses,
   * in order, each quantity being `|hash(productId + wh)|` modulo the bound.
   */
  predicate ReportsWarehouses(resp: StockProviderResponse, kind: StockProviderKind, productId: string, hash: string -> Int32) {
    && resp.Success
    && resp.ProductId == productId
    && |resp.StockInfos| == 4
    && forall i :: 0 <= i < 4 ==>
         && resp.StockInfos[i].WarehouseId == "WH_" + kind.Warehouses()[i]
         && resp.StockInfos[i].WarehouseName == kind.Warehouses()[i] + " Distribution Center"
         && resp.StockInfos[i].Location == kind.Coast() + " - " + kind.Warehouses()[i]
         && 0 <= resp.StockInfos[i].Quantity < kind.QuantityBound()
         && resp.StockInfos[i].Quantity == Mag(hash(productId + kind.Warehouses()[i])) % kind.QuantityBound()
  }

  /** The East provider: fails when `unavailable` (a 5% draw in the source) with no entries, otherwise NYC, BOS, MIA, ATL. */
  function GetStockEast(productId: string, hash: string -> Int32, unavailable: bool): (resp: StockProviderResponse)
    ensures resp.ProductId == productId
    ensures resp.Success <==> !unavailable
    ensures resp.Success ==> ReportsWarehouses(resp, MockStockProviderEast, productId, hash)
    ensures !resp.Success ==> resp.StockInfos == [] && resp.ErrorMessage == Some(EastUnavailableMessage)
  {
    if unavailable then
      NewStockResponse.(ErrorMessage := Some(EastUnavailableMessage), ProductId := productId)
    else
      Stocked(MockStockProviderEast, productId, hash)
  }

  /** The West provider never fails: LAX, SEA, SFO, PHX. */
  function GetStockWest(productId: string, hash: string -> Int32): (resp: StockProviderResponse)
    ensures ReportsWarehouses(resp, MockStockProviderWest, productId, hash)
  {
    Stocked(MockStockProviderWest, productId, hash)
  }

  /**
   * A mock warehouse entry is never negative, so it is available exactly when
   * the hash of the id and warehouse code is not a multiple of the bound.
   */
  lemma MockAvailability(kind: StockProviderKind, productId: string, wh: string, hash: string -> Int32)
    ensures WarehouseStock(kind, productId, wh, hash).IsAvailable() <==> Mag(hash(productId + wh)) % kind.QuantityBound() != 0
    ensures !WarehouseStock(kind, productId, wh, hash).IsAvailable() ==> WarehouseStock(kind, productId, wh, hash).Quantity == 0
  {
  }
}
