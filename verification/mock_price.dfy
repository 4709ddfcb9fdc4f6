/**
 * The three simulated price providers. Each one waits for a random delay,
 * may fail, and otherwise quotes a price derived from the product id's hash
 * plus a small random amount. The delay is not modelled; the failure decision
 * (`unavailable`) and the random amount (`r`, the result of `Random.Next`) are
 * parameters, and the hash is the caller's `hash` function.
 */
module MockPriceProviders {
  import opened DotNet
  import opened Models

  /** The three price providers, with the identity each one reports. */
  datatype PriceProviderKind = MockPriceProviderA | MockPriceProviderB | MockPriceProviderC
  {
    function ProviderId(): string {
      match this
      case MockPriceProviderA => "PRICE_A"
      case MockPriceProviderB => "PRICE_B"
      case MockPriceProviderC => "PRICE_C"
    }

    function ProviderName(): string {
      match this
      case MockPriceProviderA => "PriceWatch API"
      case MockPriceProviderB => "BestPrice API"
      case MockPriceProviderC => "PremiumDeals API"
    }
  }

  /** The results `Random.Next(0, 50)`, `Random.Next(0, 30)` and `Random.Next(0, 20)` can draw. */
  type DrawA = r: int | 0 <= r < 50
  type DrawB = r: int | 0 <= r < 30
  type DrawC = r: int | 0 <= r < 20

  const UnavailableMessage: string := "Provider temporarily unavailable"

  /** `Math.Abs(productId.GetHashCode() % 1000)`, the spread every provider bases its price on. */
  function Spread(productId: string, hash: string -> Int32): (s: nat)
    ensures s < 1000
    ensures s == Mag(hash(productId)) % 1000
  {
    AbsRem(hash(productId), 1000)
  }

  /** A successful response carrying `price` (in tenths) from `kind`. */
  function Quote(kind: PriceProviderKind, productId: string, price: Tenths): PriceProviderResponse {
    PriceProviderResponse(
      true, None, productId,
      Some(PriceInfo(kind.ProviderId(), kind.ProviderName(), price, "USD")))
  }

  /** True when `resp` is a successful quote by `kind` for `productId`, in dollars, priced within [lo, hi] tenths. */
  predicate QuotedWithin(resp: PriceProviderResponse, kind: PriceProviderKind, productId: string, lo: int, hi: int) {
    && resp.Success
    && resp.ErrorMessage.None?
    && resp.ProductId == productId
    && resp.PriceInfo.Some?
    && resp.PriceInfo.value.ProviderId == kind.ProviderId()
    && resp.PriceInfo.value.ProviderName == kind.ProviderName()
    && resp.PriceInfo.value.Currency == "USD"
    && lo <= resp.PriceInfo.value.Price <= hi
  }

  /**
   * Provider A: fails when `unavailable` (a 5% draw in the source), otherwise
   * quotes Spread + 10.0 + r/10, which lies in [10.0, 1013.9].
   */
  function GetPriceA(productId: string, hash: string -> Int32, unavailable: bool, r: DrawA): (resp: PriceProviderResponse)
    ensures resp.ProductId == productId
    ensures resp.Success <==> !unavailable
    ensures resp.Success ==> QuotedWithin(resp, MockPriceProviderA, productId, 100, 10139)
    ensures resp.Success ==> resp.PriceInfo.value.Price == 10 * (Mag(hash(productId)) % 1000) + 100 + r
    ensures !resp.Success ==> resp.PriceInfo.None? && resp.ErrorMessage == Some(UnavailableMessage)
  {
    if unavailable then
      PriceProviderResponse(false, Some(UnavailableMessage), productId, None)
    else
      var basePrice := 10 * Spread(productId, hash) + 100;
      Quote(MockPriceProviderA, productId, basePrice + r)
  }

  /** Provider B never fails; it quotes Spread + 5.0 + r/10, which lies in [5.0, 1006.9]. */
  function GetPriceB(productId: string, hash: string -> Int32, r: DrawB): (resp: PriceProviderResponse)
    ensures QuotedWithin(resp, MockPriceProviderB, productId, 50, 10069)
    ensures resp.PriceInfo.value.Price == 10 * (Mag(hash(productId)) % 1000) + 50 + r
  {
    var basePrice := 10 * Spread(productId, hash) + 50;
    Quote(MockPriceProviderB, productId, basePrice + r)
  }

  /** Provider C never fails; it quotes Spread * 0.9 + r/10, which lies in [0.0, 901.0]. */
  function GetPriceC(productId: string, hash: string -> Int32, r: DrawC): (resp: PriceProviderResponse)
    ensures QuotedWithin(resp, MockPriceProviderC, productId, 0, 9010)
    ensures resp.PriceInfo.value.Price == 9 * (Mag(hash(productId)) % 1000) + r
  {
    var basePrice := 9 * Spread(productId, hash);
    Quote(MockPriceProviderC, productId, basePrice + r)
  }
}
