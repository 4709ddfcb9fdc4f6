/**
 * The records the aggregator reads and produces: products with their price
 * quotes and stock levels, the batch request and response, and the responses
 * the providers return. Each C# class with auto-properties becomes a datatype;
 * the property initialisers become the `New...` constants.
 */
module Models {
  import opened DotNet

  /**
   * A `decimal` amount, held exactly as a whole number of tenths. Every price
   * the providers produce is a multiple of 0.1, and the aggregator only copies
   * prices, so nothing finer is ever needed.
   */
  type Tenths = int

  /** Price information from one provider (`LastUpdated`, a clock read, is not modelled). */
  datatype PriceInfo = PriceInfo(
    ProviderId: string,
    ProviderName: string,
    Price: Tenths,
    Currency: string)

  /** Stock availability in one warehouse. */
  datatype StockInfo = StockInfo(
    WarehouseId: string,
    WarehouseName: string,
    Location: string,
    Quantity: Int32)
  {
    /** The derived property: a warehouse has the product when it holds at least one unit. */
    predicate IsAvailable() {
      Quantity > 0
    }
  }

  /** A product with what the providers reported about it. */
  datatype Product = Product(
    Id: string,
    Name: string,
    Description: string,
    Category: string,
    Prices: seq<PriceInfo>,
    StockLevels: seq<StockInfo>)

  /** A batch request; `ProductIds` may hold duplicates. */
  datatype AggregatedProductRequest = AggregatedProductRequest(
    ProductIds: seq<string>,
    IncludePrices: bool,
    IncludeStock: bool)

  /** A batch response; `ProcessingTimeMs` is a wall-clock measurement supplied from outside. */
  datatype AggregatedProductResponse = AggregatedProductResponse(
    Products: seq<Product>,
    TotalRequested: int,
    TotalSuccessful: int,
    ProcessingTimeMs: int,
    Errors: seq<string>)

  /** What a price provider returns (`Timestamp`, a clock read, is not modelled). */
  datatype PriceProviderResponse = PriceProviderResponse(
    Success: bool,
    ErrorMessage: Option<string>,
    ProductId: string,
    PriceInfo: Option<PriceInfo>)

  /** What a stock provider returns (`Timestamp`, a clock read, is not modelled). */
  datatype StockProviderResponse = StockProviderResponse(
    Success: bool,
    ErrorMessage: Option<string>,
    ProductId: string,
    StockInfos: seq<StockInfo>)

  // The values `new X()` produces, from the property initialisers.

  const NewProduct: Product := Product("", "", "", "", [], [])
  const NewPriceInfo: PriceInfo := PriceInfo("", "", 0, "USD")
  const NewStockInfo: StockInfo := StockInfo("", "", "", 0)
  const NewRequest: AggregatedProductRequest := AggregatedProductRequest([], true, true)
  const NewResponse: AggregatedProductResponse := AggregatedProductResponse([], 0, 0, 0, [])
  const NewStockResponse: StockProviderResponse := StockProviderResponse(false, None, "", [])
  const NewPriceResponse: PriceProviderResponse := PriceProviderResponse(false, None, "", None)
}
