# Product aggregator, modelled in Dafny

The system answers product queries by asking several price providers and
several stock providers about each product and merging what they report.
This project models its aggregation core:

- **the aggregation service** (`Services`, `aggregator.dfy`): the batch loop of
  `AggregateProductsAsync`, the per-product loop of `GetProductInternalAsync`,
  `GetProductAsync` and `GetCategoryFromId`. The two loops are imperative
  methods of the class `ProductAggregatorService`, each proved equal to a
  specification function (`ProductSpec`, `AggregateSpec`). The lemmas about
  those functions state what the service promises: the counts, request order,
  the overflow error path, and which providers contribute what;
- **the provider registry** (`Factories`, `provider_factory.dfy`): the class
  `ProviderFactory`, whose read-only dictionary fields are filled by its
  constructor, and its enumerations and lookups;
- **the mock providers** (`MockPriceProviders`, `MockStockProviders`): the
  responses the three price providers and two stock providers build;
- **the records** (`Models`): `Product`, `PriceInfo`, `StockInfo`, the request
  and response, the provider responses, and the values `new X()` produces
  (`NewProduct`, `NewPriceInfo`, `NewStockInfo`, `NewRequest`, `NewResponse`,
  `NewPriceResponse`, `NewStockResponse`). `StockInfo.IsAvailable` is the
  predicate `Quantity > 0`;
- **the controller's decisions** (`Controllers`): the batch-size guard, the
  not-found rule for one product, and the benchmark's clamped count and ids;
- **the application's wiring of the mocks** (`MockScenario`): the service with
  providers A, B, C and East, West registered in that order, as
  `src/ProductAggregator.Api/Program.cs` registers them.

How the outside world enters the model:

- `string.GetHashCode` is randomised per process, so it is a parameter
  `hash: string -> Int32` wherever the code hashes a string.
- Providers are abstract in the service. A `ProviderBehaviour` gives what the
  i-th registered provider yields (a response, or a thrown exception) when asked
  about an id for a given request slot. The service asks each provider at most
  once per slot, so every run of real, randomised providers is one behaviour.
- The mock providers' `Random.Next` draws are parameters of subset types
  (`DrawA` is 0..49, and so on), and their failure draws are booleans.
- Exceptions are `Outcome<T>`: `Returned(value)` or `Threw(message)`. A
  nullable result is `Option<T>`.
- C#'s `Math.Abs` on `int.MinValue` throws `OverflowException`, and the model
  keeps this. It is the one way `GetCategoryFromId` throws for a non-null id,
  and so, among non-null ids, the one way an id ends up as an error line
  instead of a product. A null element of `ProductIds` is not modelled (see
  "## Left out"). C#'s `%` truncates toward zero; `DotNet.Rem` models it.
- Prices are `decimal` in the code and whole tenths (`Tenths`) here. Every
  price a mock produces is a multiple of 0.1, and the service only copies
  prices.
- The registry assumes that a `Dictionary` with no removals lists its values
  in insertion order. .NET does not promise this, so the model keeps the key
  order explicitly (`PriceKeys`, `StockKeys`). The fields are `const`, so
  repeated lookups return the same result.

The code awaits each provider in turn and each product in turn, and the model
follows it. The benchmark endpoint exists to compare implementations, so a
rewrite that launches all calls at once and joins the results by slot is
anticipated. That rewrite is not modelled. The `Entries` function gives one
entry per requested slot, and `AggregateProducts`' postcondition proves that
the sequential loop yields exactly that list. A slot-joining rewrite would
have to reproduce it.

## Model

| member | source | states |
|---|---|---|
| DotNet.Abs | src/ProductAggregator.Core/Services/ProductAggregatorService.cs:116 | `Math.Abs` returns a non-negative value of the same magnitude, and throws `OverflowException` exactly for `int.MinValue` |
| DotNet.Rem | src/ProductAggregator.Core/Services/MockProviders/MockPriceProvider.cs:33 | C#'s `%` by a positive modulus lies strictly between `-n` and `n`, takes the sign of the dividend, and its magnitude is the dividend's magnitude modulo `n` |
| DotNet.RemIsTruncatedRemainder | src/ProductAggregator.Core/Services/MockProviders/MockPriceProvider.cs:33 | `x == n * (x / n) + x % n` with C#'s quotient truncated toward zero, whose multiple of `n` never exceeds `x` in magnitude |
| DotNet.AbsRem | src/ProductAggregator.Core/Services/MockProviders/MockStockProvider.cs:37 | `Math.Abs(x % n)` never throws and equals `|x|` modulo `n`, which lies in `[0, n)` |
| DotNet.Clamp | src/ProductAggregator.Api/Controllers/ProductsController.cs:86 | `Math.Clamp` lands in `[min, max]`, keeps values already inside, and maps values below/above to `min`/`max` |
| MockPriceProviders.Spread | src/ProductAggregator.Core/Services/MockProviders/MockPriceProvider.cs:33 | the hash spread `Math.Abs(hash % 1000)` that every price is based on is `|hash|` modulo 1000, and so below 1000 |
| MockPriceProviders.GetPriceA | src/ProductAggregator.Core/Services/MockProviders/MockPriceProvider.cs:16-48 | A fails exactly when its failure draw says so, with "Provider temporarily unavailable" and no PriceInfo. Otherwise it echoes the id and quotes in USD as PRICE_A/"PriceWatch API". The price is `(|h| mod 1000) + 10.0 + r/10`, which lies in [10.0, 1013.9] |
| MockPriceProviders.GetPriceB | src/ProductAggregator.Core/Services/MockProviders/MockPriceProvider.cs:61-81 | B always succeeds. It echoes the id and quotes in USD as PRICE_B/"BestPrice API". The price is `(|h| mod 1000) + 5.0 + r/10`, which lies in [5.0, 1006.9] |
| MockPriceProviders.GetPriceC | src/ProductAggregator.Core/Services/MockProviders/MockPriceProvider.cs:94-114 | C always succeeds. It echoes the id and quotes in USD as PRICE_C/"PremiumDeals API". The price is `(|h| mod 1000) * 0.9 + r/10`, which lies in [0.0, 901.0] and is never negative |
| MockStockProviders.WarehouseStock | src/ProductAggregator.Core/Services/MockProviders/MockStockProvider.cs:32-38 | an entry is `WH_<wh>`, `<wh> Distribution Center`, `<coast> - <wh>`. Its quantity is `|hash(id + wh)|` modulo 100 (East) or 150 (West) |
| MockStockProviders.StockInfos | src/ProductAggregator.Core/Services/MockProviders/MockStockProvider.cs:31-38 | the `Select` yields exactly four entries, one per warehouse, in array order |
| MockStockProviders.GetStockEast | src/ProductAggregator.Core/Services/MockProviders/MockStockProvider.cs:16-46 | East fails exactly when its failure draw says so, with its message and no entries. Otherwise it echoes the id and reports NYC, BOS, MIA, ATL in that order, with each entry's id, name, location and hashed quantity in [0, 99] |
| MockStockProviders.GetStockWest | src/ProductAggregator.Core/Services/MockProviders/MockStockProvider.cs:59-79 | West always succeeds. It echoes the id and reports LAX, SEA, SFO, PHX in that order, with each entry's id, name, location and hashed quantity in [0, 149] |
| MockStockProviders.MockAvailability | src/ProductAggregator.Core/Models/Product.cs:37 | `IsAvailable` (quantity above zero) holds for a mock entry exactly when its hash is not a multiple of the bound; an unavailable mock entry has quantity 0, never a negative one |
| Factories.ProviderFactory.constructor | src/ProductAggregator.Core/Factories/ProviderFactory.cs:20-36 | the price registry has exactly the keys PRICE_A, PRICE_B, PRICE_C, and the stock registry exactly STOCK_EAST, STOCK_WEST |
| Factories.ProviderFactory.GetPriceProviders | src/ProductAggregator.Core/Factories/ProviderFactory.cs:38 | lists every registered price provider once, in key insertion order |
| Factories.ProviderFactory.GetStockProviders | src/ProductAggregator.Core/Factories/ProviderFactory.cs:40 | lists every registered stock provider once, in key insertion order |
| Factories.ProviderFactory.GetPriceProvider | src/ProductAggregator.Core/Factories/ProviderFactory.cs:42-46 | returns the provider stored under the id, and null exactly when the id is not a key |
| Factories.ProviderFactory.GetStockProvider | src/ProductAggregator.Core/Factories/ProviderFactory.cs:48-52 | returns the provider stored under the id, and null exactly when the id is not a key |
| Factories.ProviderFactory.KeysAreProviderIds | src/ProductAggregator.Core/Factories/ProviderFactory.cs:23-35 | every registry key equals the `ProviderId` of the provider stored under it |
| Factories.ProviderFactory.RegistriesDisjoint | src/ProductAggregator.Core/Factories/ProviderFactory.cs:42-52 | no id finds both a price provider and a stock provider |
| Factories.ProviderFactory.ListedProvidersAreFound | src/ProductAggregator.Core/Factories/ProviderFactory.cs:38-46 | the enumerations list three and two providers, and each listed provider is found again by its own id |
| Services.GetCategoryFromId | src/ProductAggregator.Core/Services/ProductAggregatorService.cs:114-119 | returns a category exactly when the hash is not `int.MinValue`, namely the `(|h| mod 6)`-th of the six; otherwise it throws the overflow |
| Services.CategoryDependsOnlyOnHash | src/ProductAggregator.Core/Services/ProductAggregatorService.cs:114-119 | ids with equal hashes get the same category, or both throw |
| Services.CollectedPrices | src/ProductAggregator.Core/Services/ProductAggregatorService.cs:73-90 | the price list never holds more quotes than there were provider calls |
| Services.CollectedPricesMembers | src/ProductAggregator.Core/Services/ProductAggregatorService.cs:73-90 | a quote is in the price list iff some call returned a successful response carrying it; failed and throwing calls add nothing |
| Services.CollectedPricesAllDelivered | src/ProductAggregator.Core/Services/ProductAggregatorService.cs:73-90 | when every call succeeds with a quote, the list has one quote per provider, in provider order |
| Services.CollectedPricesAppend | src/ProductAggregator.Core/Services/ProductAggregatorService.cs:73-90 | the price list of two runs of calls is the first run's list followed by the second's: order is provider order |
| Services.CollectedLevels | src/ProductAggregator.Core/Services/ProductAggregatorService.cs:92-109 | a stock level is in the product's list iff some successful stock response reported it |
| Services.CollectedLevelsAppend | src/ProductAggregator.Core/Services/ProductAggregatorService.cs:92-109 | stock lists concatenate in provider order, with no merging or deduplication |
| Services.CollectedLevelsCount | src/ProductAggregator.Core/Services/ProductAggregatorService.cs:92-109 | when every stock call succeeds with `k` levels, the product has `k` levels per provider |
| Services.FailureLine | src/ProductAggregator.Core/Services/ProductAggregatorService.cs:43 | the error line is "Failed to process product ", the id, ": ", and the exception message, so the id and message can be read back from their positions |
| Services.IdentityOf | src/ProductAggregator.Core/Services/ProductAggregatorService.cs:65-71 | a new product carries the id, the "Product {id}" name, the "Description for product {id}" description and the category, with both lists at their empty defaults |
| Services.EntriesPartition | src/ProductAggregator.Core/Services/ProductAggregatorService.cs:30-45 | every slot yields exactly one entry, either a product or an error, and the success counter equals the number of products |
| Services.EntriesInSlotOrder | src/ProductAggregator.Core/Services/ProductAggregatorService.cs:30-45 | the j-th product (error) is the entry of the j-th successful (failed) slot, and those slots strictly increase |
| Services.AllAdded | src/ProductAggregator.Core/Services/ProductAggregatorService.cs:34-39 | when every slot succeeds, the products are the slots' products, one for one, and there are no errors |
| Services.ProductAggregatorService.constructor | src/ProductAggregator.Core/Services/ProductAggregatorService.cs:12-18 | keeps the injected provider lists in registration order |
| Services.ProductAggregatorService.InvocationsFor | src/ProductAggregator.Core/Services/ProductAggregatorService.cs:73-109 | with `IncludePrices` false no price provider is invoked; with `IncludeStock` false no stock provider is. Otherwise every price provider is invoked once in registration order, followed by every stock provider once in registration order |
| Services.ProductAggregatorService.ProductSpec | src/ProductAggregator.Core/Services/ProductAggregatorService.cs:63-112 | a product is built exactly when the id's hash is not `int.MinValue`, whatever the providers do. It carries the id, the templated name and description, and the `(|h| mod 6)`-th category. It has at most one quote per price provider, and empty lists for what the flags exclude |
| Services.ProductAggregatorService.AggregateSpec | src/ProductAggregator.Core/Services/ProductAggregatorService.cs:20-51 | `TotalRequested` is the number of ids, `TotalSuccessful` the number of products, and products plus errors add up to the number of ids |
| Services.ProductAggregatorService.EntryFor | src/ProductAggregator.Core/Services/ProductAggregatorService.cs:30-45 | a slot gives a product with its own id iff the id's hash is not `int.MinValue`; otherwise it gives the failure line naming that id and the overflow message |
| Services.ProductAggregatorService.NothingIncludedLeavesDefaults | src/ProductAggregator.Core/Services/ProductAggregatorService.cs:65-71 | with both flags off, a product keeps the empty default lists and gets the templated name and description |
| Services.ProductAggregatorService.EmptyBatchIsNewResponse | src/ProductAggregator.Core/Services/ProductAggregatorService.cs:24-50 | an empty batch is the default response (no products, no errors, zero counts) with the elapsed time set |
| Services.ProductAggregatorService.ResponseInRequestOrder | src/ProductAggregator.Core/Services/ProductAggregatorService.cs:30-45 | products and errors come out in request order. The j-th product is the one built for the j-th successful id. The j-th error is "Failed to process product {id}: {overflow message}" for the j-th id whose hash is `int.MinValue` |
| Services.ProductAggregatorService.SuccessCountIsNonOverflowing | src/ProductAggregator.Core/Services/ProductAggregatorService.cs:35-44 | `TotalSuccessful` is the number of requested ids (duplicates counted each time) whose hash is not `int.MinValue`, regardless of provider failures |
| Services.ProductAggregatorService.AllSucceedWithoutOverflow | src/ProductAggregator.Core/Services/ProductAggregatorService.cs:30-45 | when no hash overflows, every id, duplicates included, yields its own product at its own position, and there are no errors |
| Services.ProductAggregatorService.GetProductInternal | src/ProductAggregator.Core/Services/ProductAggregatorService.cs:63-112 | the provider loops build exactly `ProductSpec`'s product and never return null. They invoke exactly the providers the flags allow, in order, and none when the category throws |
| Services.ProductAggregatorService.AskPriceProviders | src/ProductAggregator.Core/Services/ProductAggregatorService.cs:73-90 | the price loop asks every price provider once, in registration order. It leaves the product carrying exactly the quotes of the successful responses |
| Services.ProductAggregatorService.AskStockProviders | src/ProductAggregator.Core/Services/ProductAggregatorService.cs:92-109 | the stock loop asks every stock provider once, in registration order. It leaves the product carrying exactly the concatenated levels of the successful responses |
| Services.ProductAggregatorService.GetProduct | src/ProductAggregator.Core/Services/ProductAggregatorService.cs:53-61 | one product with both flags on. Never null, and it throws only on the overflow |
| Services.ProductAggregatorService.AggregateProducts | src/ProductAggregator.Core/Services/ProductAggregatorService.cs:20-51 | the sequential loop yields exactly the slot-per-product response `AggregateSpec`, with its count invariants |
| Controllers.AggregateProducts | src/ProductAggregator.Api/Controllers/ProductsController.cs:31-52 | the service is called iff 1 ≤ count ≤ 50. A null or empty list gets BadRequest "At least one product ID is required."; more than 50 ids get BadRequest "Maximum 50 products per request." |
| Controllers.GetProduct | src/ProductAggregator.Api/Controllers/ProductsController.cs:63-75 | NotFound is never returned because the service never yields null. The product is returned iff the hash does not overflow, and otherwise the overflow escapes |
| Controllers.DecimalDigits | src/ProductAggregator.Api/Controllers/ProductsController.cs:89 | a number's decimal digits: at least one, all digits, at most four below 10000 |
| Controllers.FormatD4 | src/ProductAggregator.Api/Controllers/ProductsController.cs:89 | `{i:D4}` is four digit characters for every `i` below 10000 |
| Controllers.ParseDecimalDigits | src/ProductAggregator.Api/Controllers/ProductsController.cs:89 | formatting a number and reading the digits back gives the number |
| Controllers.FormatD4RoundTrip | src/ProductAggregator.Api/Controllers/ProductsController.cs:89 | the zero-padded form reads back as the number, so `D4` is injective |
| Controllers.BenchmarkIds | src/ProductAggregator.Api/Controllers/ProductsController.cs:88-90 | the benchmark generates exactly `count` ids |
| Controllers.BenchmarkIdsDistinct | src/ProductAggregator.Api/Controllers/ProductsController.cs:88-90 | id k is exactly "PROD-" followed by `FormatD4(k + 1)` (nine characters), which parses back as k+1, and the ids are pairwise distinct |
| Controllers.RunBenchmark | src/ProductAggregator.Api/Controllers/ProductsController.cs:82-104 | the count is clamped into [1, 20], and successes plus errors equal that count |
| Controllers.BenchmarkUsesDefaultFlags | src/ProductAggregator.Api/Controllers/ProductsController.cs:92-100 | the benchmark request includes prices and stock, and `SuccessfulProducts` is the response's `TotalSuccessful` |
| MockScenario.MockProductComplete | src/ProductAggregator.Core/Services/ProductAggregatorService.cs:73-109 | with the mocks registered and no failure draw, a product gets quotes from A, B, C in that order and eight stock levels, East's four then West's four |
| MockScenario.TwoProductScenario | src/ProductAggregator.Core/Services/ProductAggregatorService.cs:20-51 | PROD-0001 and PROD-0002 with no failures give 2 requested, 2 successful, no errors, and products in request order with 3 quotes and 8 stock levels each |

## Left out

- Latency: the mock providers' `Task.Delay` is not modelled. Their failure chance (`Random.NextDouble() < 0.05`) is a boolean parameter, and their `Random.Next` draws are bounded parameters.
- Async and cancellation: async/await is not modelled. The service never reads its `CancellationToken` and never forwards it to the providers, so a caller's cancellation has no effect on the service. The model therefore has no token.
- Concurrency: the code runs one call at a time. A rewrite that launches every call at once is not modelled. `Entries` is the one-entry-per-slot list that such a rewrite would have to reproduce.
- Timing: `Stopwatch` time is the parameter `elapsedMs`. `AverageTimePerProduct` is a `double` and is left out.
- Timestamps: `DateTime.UtcNow` in `PriceInfo.LastUpdated` and `ProviderResponse.Timestamp` is a clock read and is left out.
- `string.GetHashCode`: an uninterpreted parameter. The model does not compute any concrete hash.
- `decimal` scale: prices are exact values in tenths. The scale a `decimal` carries (for example `10.0` vs `10.00`) is not modelled.
- Null ids: a JSON body can put a null element in `ProductIds`, and the controller checks only the list itself. For a null id, `GetHashCode` throws `NullReferenceException`, and the service logs "Failed to process product : " plus that exception's message. Ids are `seq<string>` here, so this second error path is not modelled. The claims about a single error path hold for non-null ids only.
- Null collections: a null `StockInfos` list in a successful response is not modelled. The property is declared non-null, so `AddRange` on null is not modelled either.
- Framework: HTTP attributes, `ActionResult` shaping beyond the four outcomes, logging, and the dependency-injection setup are left out. The registration order of `src/ProductAggregator.Api/Program.cs` appears only as `MockScenario`'s provider lists.
- `IProductAggregatorService`, `IProviderFactory`, `IExternalProvider` and `ProviderResponse` hold only signatures and shapes. They appear as the datatypes in `Models` and `Services`.
- Controllers.FormatD4: the length promise is stated only below 10000. That is the only range the benchmark uses (1 to 20).
