/**
 * The aggregation service. For each requested product id it derives the
 * product's identity fields from the id, asks every registered price provider
 * and then every stock provider in registration order, keeps what succeeded,
 * and records the product, or an error string when building it threw.
 *
 * Providers are abstract here. `ProviderBehaviour` says what each provider
 * yields on each invocation (a response, or an exception); the service calls a
 * given provider at most once per request slot, so any run of real, randomised
 * providers is described by some behaviour. `hash` stands for
 * `string.GetHashCode`, which .NET randomises per process.
 */
module Services {
  import opened DotNet
  import opened Models

  type PriceCall = Outcome<PriceProviderResponse>
  type StockCall = Outcome<StockProviderResponse>

  /**
   * `Price(i, id, slot)` is what the i-th registered price provider yields when
   * the service asks it about `id` for the request slot `slot`; likewise `Stock`.
   */
  datatype ProviderBehaviour = ProviderBehaviour(
    Price: (nat, string, nat) -> PriceCall,
    Stock: (nat, string, nat) -> StockCall)

  /** One invocation of a provider, by its position in the registration order. */
  datatype Invocation = PriceInvocation(provider: nat) | StockInvocation(provider: nat)

  /** What every provider exposes about itself (`IExternalProvider`). */
  datatype ProviderInfo = ProviderInfo(ProviderId: string, ProviderName: string)

  /** What one request slot contributes to the batch response. */
  datatype Entry = Added(product: Product) | Logged(error: string)

  const Categories: seq<string> := ["Electronics", "Clothing", "Home", "Sports", "Books", "Toys"]

  /**
   * `GetCategoryFromId`: `Math.Abs` of the hash picks one of six categories, and
   * throws for the one hash value `Math.Abs` cannot negate.
   */
  function GetCategoryFromId(productId: string, hash: string -> Int32): (r: Outcome<string>)
    ensures r.Returned? <==> hash(productId) != MinValue
    ensures r.Returned? ==> r.value in Categories
    ensures r.Returned? ==> r.value == Categories[Mag(hash(productId)) % 6]
    ensures r.Threw? ==> r.message == OverflowMessage
  {
    match Abs(hash(productId))
    case Threw(m) => Threw(m)
    case Returned(h) => Returned(Categories[h % |Categories|])
  }

  /** The category depends on the hash alone: ids with equal hashes get the same category, or both throw. */
  lemma CategoryDependsOnlyOnHash(a: string, b: string, hash: string -> Int32)
    requires hash(a) == hash(b)
    ensures GetCategoryFromId(a, hash) == GetCategoryFromId(b, hash)
  {
  }

  /** The quote a price call contributes: the PriceInfo of a successful response that has one. */
  function QuoteOf(call: PriceCall): seq<PriceInfo> {
    if call.Returned? && call.value.Success && call.value.PriceInfo.Some? then [call.value.PriceInfo.value] else []
  }

  /** The stock levels a stock call contributes: all of them if the response is a success. */
  function LevelsOf(call: StockCall): seq<StockInfo> {
    if call.Returned? && call.value.Success then call.value.StockInfos else []
  }

  /** True when `call` contributes `info` to the price list. */
  predicate Delivers(call: PriceCall, info: PriceInfo) {
    call.Returned? && call.value.Success && call.value.PriceInfo == Some(info)
  }

  /** The price list built from `calls`, in call order; failed and throwing calls are skipped. */
  function CollectedPrices(calls: seq<PriceCall>): (prices: seq<PriceInfo>)
    ensures |prices| <= |calls|
  {
    if calls == [] then [] else CollectedPrices(calls[..|calls| - 1]) + QuoteOf(calls[|calls| - 1])
  }

  /**
   * The stock list built from `calls`: the successful lists concatenated in
   * call order. A level is in it exactly when some successful call reported it.
   */
  function CollectedLevels(calls: seq<StockCall>): (levels: seq<StockInfo>)
    ensures forall l :: l in levels ==> exists i :: 0 <= i < |calls| && l in LevelsOf(calls[i])
    ensures forall i, l :: 0 <= i < |calls| && l in LevelsOf(calls[i]) ==> l in levels
  {
    if calls == [] then [] else CollectedLevels(calls[..|calls| - 1]) + LevelsOf(calls[|calls| - 1])
  }

  /** The price list of `a + b` is that of `a` followed by that of `b`. */
  lemma {:induction false} CollectedPricesAppend(a: seq<PriceCall>, b: seq<PriceCall>)
    ensures CollectedPrices(a + b) == CollectedPrices(a) + CollectedPrices(b)
    decreases |b|
  {
    if b != [] {
      var b' := b[..|b| - 1];
      assert (a + b)[..|a + b| - 1] == a + b';
      CollectedPricesAppend(a, b');
    } else {
      assert a + b == a;
    }
  }

  /** The stock list of `a + b` is that of `a` followed by that of `b`: no merging, no reordering. */
  lemma {:induction false} CollectedLevelsAppend(a: seq<StockCall>, b: seq<StockCall>)
    ensures CollectedLevels(a + b) == CollectedLevels(a) + CollectedLevels(b)
    decreases |b|
  {
    if b != [] {
      var b' := b[..|b| - 1];
      assert (a + b)[..|a + b| - 1] == a + b';
      CollectedLevelsAppend(a, b');
    } else {
      assert a + b == a;
    }
  }

  /** A quote is in the price list exactly when some call delivered it. */
  lemma {:induction false} CollectedPricesMembers(calls: seq<PriceCall>, info: PriceInfo)
    ensures info in CollectedPrices(calls) <==> exists i :: 0 <= i < |calls| && Delivers(calls[i], info)
  {
    if calls != [] {
      var front := calls[..|calls| - 1];
      CollectedPricesMembers(front, info);
      if exists i :: 0 <= i < |calls| && Delivers(calls[i], info) {
        var i :| 0 <= i < |calls| && Delivers(calls[i], info);
        if i < |front| {
          assert Delivers(front[i], info);
        }
      }
      if exists i :: 0 <= i < |front| && Delivers(front[i], info) {
        var i :| 0 <= i < |front| && Delivers(front[i], info);
        assert Delivers(calls[i], info);
      }
    }
  }

  /** When every call delivers a quote, the price list holds one quote per call, in call order. */
  lemma {:induction false} CollectedPricesAllDelivered(calls: seq<PriceCall>)
    requires forall i :: 0 <= i < |calls| ==> calls[i].Returned? && calls[i].value.Success && calls[i].value.PriceInfo.Some?
    ensures |CollectedPrices(calls)| == |calls|
    ensures forall i :: 0 <= i < |calls| ==> CollectedPrices(calls)[i] == calls[i].value.PriceInfo.value
  {
    if calls != [] {
      CollectedPricesAllDelivered(calls[..|calls| - 1]);
    }
  }

  /** When every call succeeds with `k` stock levels, the stock list holds `k` levels per call. */
  lemma {:induction false} CollectedLevelsCount(calls: seq<StockCall>, k: nat)
    requires forall i :: 0 <= i < |calls| ==> calls[i].Returned? && calls[i].value.Success && |calls[i].value.StockInfos| == k
    ensures |CollectedLevels(calls)| == k * |calls|
  {
    if calls != [] {
      var front := calls[..|calls| - 1];
      CollectedLevelsCount(front, k);
      assert |LevelsOf(calls[|calls| - 1])| == k;
      assert k * |calls| == k * |front| + k;
    }
  }

  /** Invocations of the first `n` price providers, in order. */
  function PriceInvocations(n: nat): (calls: seq<Invocation>)
    ensures |calls| == n
    ensures forall i :: 0 <= i < n ==> calls[i] == PriceInvocation(i)
  {
    if n == 0 then [] else PriceInvocations(n - 1) + [PriceInvocation(n - 1)]
  }

  /** Invocations of the first `n` stock providers, in order. */
  function StockInvocations(n: nat): (calls: seq<Invocation>)
    ensures |calls| == n
    ensures forall i :: 0 <= i < n ==> calls[i] == StockInvocation(i)
  {
    if n == 0 then [] else StockInvocations(n - 1) + [StockInvocation(n - 1)]
  }

  /** The Added entries of `es`, in order. */
  function AddedOf(es: seq<Entry>): seq<Product> {
    if es == [] then []
    else AddedOf(es[..|es| - 1]) + (if es[|es| - 1].Added? then [es[|es| - 1].product] else [])
  }

  /** The Logged entries of `es`, in order. */
  function LoggedOf(es: seq<Entry>): seq<string> {
    if es == [] then []
    else LoggedOf(es[..|es| - 1]) + (if es[|es| - 1].Logged? then [es[|es| - 1].error] else [])
  }

  /** How many entries of `es` are Added. */
  function AddedCount(es: seq<Entry>): nat {
    if es == [] then 0 else AddedCount(es[..|es| - 1]) + (if es[|es| - 1].Added? then 1 else 0)
  }

  /** The slots whose entry is Added (when `added`) or Logged (otherwise), in increasing order. */
  function SlotsWhere(es: seq<Entry>, added: bool): seq<nat> {
    if es == [] then []
    else SlotsWhere(es[..|es| - 1], added) + (if es[|es| - 1].Added? == added then [|es| - 1] else [])
  }

  /** Every entry is either a product or an error, and the success count counts the products. */
  lemma {:induction false} EntriesPartition(es: seq<Entry>)
    ensures |AddedOf(es)| + |LoggedOf(es)| == |es|
    ensures AddedCount(es) == |AddedOf(es)|
  {
    if es != [] {
      EntriesPartition(es[..|es| - 1]);
    }
  }

  /**
   * Order preservation: the j-th product (error) is the entry of the j-th
   * Added (Logged) slot, and those slots increase strictly.
   */
  lemma {:induction false} EntriesInSlotOrder(es: seq<Entry>)
    ensures |SlotsWhere(es, true)| == |AddedOf(es)|
    ensures |SlotsWhere(es, false)| == |LoggedOf(es)|
    ensures forall j :: 0 <= j < |AddedOf(es)| ==>
      SlotsWhere(es, true)[j] < |es| && es[SlotsWhere(es, true)[j]] == Added(AddedOf(es)[j])
    ensures forall j :: 0 <= j < |LoggedOf(es)| ==>
      SlotsWhere(es, false)[j] < |es| && es[SlotsWhere(es, false)[j]] == Logged(LoggedOf(es)[j])
    ensures forall j, j' :: 0 <= j < j' < |SlotsWhere(es, true)| ==> SlotsWhere(es, true)[j] < SlotsWhere(es, true)[j']
    ensures forall j, j' :: 0 <= j < j' < |SlotsWhere(es, false)| ==> SlotsWhere(es, false)[j] < SlotsWhere(es, false)[j']
  {
    if es != [] {
      var front := es[..|es| - 1];
      EntriesInSlotOrder(front);
      SlotsBelow(front, true);
      SlotsBelow(front, false);
    }
  }

  /** Every slot `SlotsWhere` lists is a slot of `es`. */
  lemma {:induction false} SlotsBelow(es: seq<Entry>, added: bool)
    ensures forall j :: 0 <= j < |SlotsWhere(es, added)| ==> SlotsWhere(es, added)[j] < |es|
  {
    if es != [] {
      SlotsBelow(es[..|es| - 1], added);
    }
  }

  /** When every entry is Added, the products are the entries' products, slot for slot, and there are no errors. */
  lemma {:induction false} AllAdded(es: seq<Entry>)
    requires forall k :: 0 <= k < |es| ==> es[k].Added?
    ensures |AddedOf(es)| == |es| && LoggedOf(es) == []
    ensures forall k :: 0 <= k < |es| ==> AddedOf(es)[k] == es[k].product
  {
    if es != [] {
      AllAdded(es[..|es| - 1]);
    }
  }

  /** How many of `ids` have a hash `Math.Abs` accepts. */
  function NonOverflowing(ids: seq<string>, hash: string -> Int32): nat {
    if ids == [] then 0
    else NonOverflowing(ids[..|ids| - 1], hash) + (if hash(ids[|ids| - 1]) != MinValue then 1 else 0)
  }

  /** The error line for a product whose aggregation threw `message`. */
  function FailureLine(productId: string, message: string): (line: string)
    ensures |line| == |"Failed to process product "| + |productId| + 2 + |message|
    ensures line[..26] == "Failed to process product "
    ensures line[26..26 + |productId|] == productId
    ensures line[26 + |productId|..28 + |productId|] == ": "
    ensures line[28 + |productId|..] == message
  {
    "Failed to process product " + productId + ": " + message
  }

  /** The product fields that come from the id alone. */
  function IdentityOf(productId: string, category: string): (p: Product)
    ensures p.Id == productId && p.Category == category
    ensures p.Name == "Product " + productId && p.Description == "Description for product " + productId
    ensures p.Prices == NewProduct.Prices == [] && p.StockLevels == NewProduct.StockLevels == []
  {
    NewProduct.(Id := productId,
                Name := "Product " + productId,
                Description := "Description for product " + productId,
                Category := category)
  }

  class ProductAggregatorService {
    /** The injected providers, in registration order; never reassigned. */
    const PriceProviders: seq<ProviderInfo>
    const StockProviders: seq<ProviderInfo>

    constructor(priceProviders: seq<ProviderInfo>, stockProviders: seq<ProviderInfo>)
      ensures PriceProviders == priceProviders && StockProviders == stockProviders
    {
      PriceProviders := priceProviders;
      StockProviders := stockProviders;
    }

    /** What the price providers yield, in registration order, when asked about `productId` for slot `slot`. */
    function PriceCalls(behaviour: ProviderBehaviour, productId: string, slot: nat): (calls: seq<PriceCall>)
      ensures |calls| == |PriceProviders|
    {
      seq(|PriceProviders|, i requires 0 <= i => behaviour.Price(i, productId, slot))
    }

    /** What the stock providers yield, in registration order, when asked about `productId` for slot `slot`. */
    function StockCalls(behaviour: ProviderBehaviour, productId: string, slot: nat): (calls: seq<StockCall>)
      ensures |calls| == |StockProviders|
    {
      seq(|StockProviders|, i requires 0 <= i => behaviour.Stock(i, productId, slot))
    }

    /** The invocations the flags allow: every price provider, then every stock provider, in registration order. */
    function InvocationsFor(includePrices: bool, includeStock: bool): (calls: seq<Invocation>)
      ensures |calls| == (if includePrices then |PriceProviders| else 0) + (if includeStock then |StockProviders| else 0)
      ensures !includePrices ==> forall c :: c in calls ==> c.StockInvocation?
      ensures !includeStock ==> forall c :: c in calls ==> c.PriceInvocation?
      ensures includePrices ==> calls[..|PriceProviders|] == PriceInvocations(|PriceProviders|)
      ensures includeStock ==> calls[|calls| - |StockProviders|..] == StockInvocations(|StockProviders|)
    {
      (if includePrices then PriceInvocations(|PriceProviders|) else [])
      + (if includeStock then StockInvocations(|StockProviders|) else [])
    }

    /**
     * The product the service builds for `productId` in slot `slot`: identity
     * fields from the id, the collected prices and stock levels when the flags
     * ask for them, or the exception that deriving the category throws.
     */
    function ProductSpec(productId: string, includePrices: bool, includeStock: bool,
                         hash: string -> Int32, behaviour: ProviderBehaviour, slot: nat): (r: Outcome<Product>)
      ensures r.Returned? <==> hash(productId) != MinValue
      ensures r.Threw? ==> r.message == OverflowMessage
      ensures r.Returned? ==>
        && r.value.Id == productId
        && r.value.Name == "Product " + productId
        && r.value.Description == "Description for product " + productId
        && r.value.Category in Categories
        && r.value.Category == Categories[Mag(hash(productId)) % 6]
        && |r.value.Prices| <= |PriceProviders|
        && (!includePrices ==> r.value.Prices == [])
        && (!includeStock ==> r.value.StockLevels == [])
    {
      match GetCategoryFromId(productId, hash)
      case Threw(m) => Threw(m)
      case Returned(category) =>
        Returned(IdentityOf(productId, category).(
          Prices := if includePrices then CollectedPrices(PriceCalls(behaviour, productId, slot)) else [],
          StockLevels := if includeStock then CollectedLevels(StockCalls(behaviour, productId, slot)) else []))
    }

    /** What slot `slot` of the request contributes to the response. */
    function EntryFor(request: AggregatedProductRequest, hash: string -> Int32, behaviour: ProviderBehaviour, slot: nat): (e: Entry)
      requires slot < |request.ProductIds|
      ensures e.Added? <==> hash(request.ProductIds[slot]) != MinValue
      ensures e.Added? ==> e.product.Id == request.ProductIds[slot]
      ensures e.Logged? ==> e.error == FailureLine(request.ProductIds[slot], OverflowMessage)
    {
      var productId := request.ProductIds[slot];
      match ProductSpec(productId, request.IncludePrices, request.IncludeStock, hash, behaviour, slot)
      case Returned(p) => Added(p)
      case Threw(m) => Logged(FailureLine(productId, m))
    }

    /** One entry per requested id, slot by slot: the result a slot-per-product concurrent join must also produce. */
    function Entries(request: AggregatedProductRequest, hash: string -> Int32, behaviour: ProviderBehaviour): (es: seq<Entry>)
      ensures |es| == |request.ProductIds|
    {
      seq(|request.ProductIds|, k requires 0 <= k < |request.ProductIds| => EntryFor(request, hash, behaviour, k))
    }

    /** The batch response for `request`, given the measured `elapsedMs`. */
    function AggregateSpec(request: AggregatedProductRequest, hash: string -> Int32, behaviour: ProviderBehaviour, elapsedMs: int)
      : (r: AggregatedProductResponse)
      ensures r.TotalRequested == |request.ProductIds|
      ensures r.TotalSuccessful == |r.Products|
      ensures |r.Products| + |r.Errors| == |request.ProductIds|
    {
      var es := Entries(request, hash, behaviour);
      EntriesPartition(es);
      AggregatedProductResponse(AddedOf(es), |request.ProductIds|, AddedCount(es), elapsedMs, LoggedOf(es))
    }

    /**
     * With neither prices nor stock included, a product is a new `Product` with
     * only its identity fields set: its lists keep their empty defaults.
     */
    lemma NothingIncludedLeavesDefaults(productId: string, hash: string -> Int32, behaviour: ProviderBehaviour, slot: nat)
      requires hash(productId) != MinValue
      ensures var r := ProductSpec(productId, false, false, hash, behaviour, slot);
        && r.Returned?
        && r.value.Prices == NewProduct.Prices == []
        && r.value.StockLevels == NewProduct.StockLevels == []
        && r.value.Name == "Product " + productId
        && r.value.Description == "Description for product " + productId
    {
    }

    /** An empty batch is a new response with only the counts and the elapsed time set. */
    lemma EmptyBatchIsNewResponse(includePrices: bool, includeStock: bool, hash: string -> Int32, behaviour: ProviderBehaviour, elapsedMs: int)
      ensures AggregateSpec(AggregatedProductRequest([], includePrices, includeStock), hash, behaviour, elapsedMs)
              == NewResponse.(ProcessingTimeMs := elapsedMs)
    {
    }

    /** The slots whose id became a product, in increasing order. */
    function ProductSlots(request: AggregatedProductRequest, hash: string -> Int32, behaviour: ProviderBehaviour): seq<nat> {
      SlotsWhere(Entries(request, hash, behaviour), true)
    }

    /** The slots whose id became an error line, in increasing order. */
    function ErrorSlots(request: AggregatedProductRequest, hash: string -> Int32, behaviour: ProviderBehaviour): seq<nat> {
      SlotsWhere(Entries(request, hash, behaviour), false)
    }

    /**
     * Products and errors come out in request order: the j-th product is the
     * one built for the j-th successful slot, the j-th error names the id of
     * the j-th failed slot, and a slot fails exactly when its id's hash is
     * `int.MinValue`.
     */
    lemma ResponseInRequestOrder(request: AggregatedProductRequest, hash: string -> Int32, behaviour: ProviderBehaviour, elapsedMs: int)
      ensures var r := AggregateSpec(request, hash, behaviour, elapsedMs);
        var ps := ProductSlots(request, hash, behaviour);
        && |ps| == |r.Products|
        && (forall j, j' :: 0 <= j < j' < |ps| ==> ps[j] < ps[j'])
        && forall j :: 0 <= j < |ps| ==>
             && ps[j] < |request.ProductIds|
             && hash(request.ProductIds[ps[j]]) != MinValue
             && Returned(r.Products[j]) == ProductSpec(request.ProductIds[ps[j]], request.IncludePrices, request.IncludeStock, hash, behaviour, ps[j])
      ensures var r := AggregateSpec(request, hash, behaviour, elapsedMs);
        var fs := ErrorSlots(request, hash, behaviour);
        && |fs| == |r.Errors|
        && (forall j, j' :: 0 <= j < j' < |fs| ==> fs[j] < fs[j'])
        && forall j :: 0 <= j < |fs| ==>
             && fs[j] < |request.ProductIds|
             && hash(request.ProductIds[fs[j]]) == MinValue
             && r.Errors[j] == FailureLine(request.ProductIds[fs[j]], OverflowMessage)
    {
      var es := Entries(request, hash, behaviour);
      EntriesInSlotOrder(es);
    }

    /** The entries of a request cut after `n` ids are the first `n` entries of the whole request. */
    lemma EntriesPrefix(request: AggregatedProductRequest, hash: string -> Int32, behaviour: ProviderBehaviour, n: nat)
      requires n <= |request.ProductIds|
      ensures Entries(request.(ProductIds := request.ProductIds[..n]), hash, behaviour) == Entries(request, hash, behaviour)[..n]
    {
    }

    /** The success count is the number of requested ids whose hash `Math.Abs` accepts, whatever the providers do. */
    lemma {:induction false} SuccessCountIsNonOverflowing(request: AggregatedProductRequest, hash: string -> Int32,
                                                          behaviour: ProviderBehaviour, elapsedMs: int)
      ensures AggregateSpec(request, hash, behaviour, elapsedMs).TotalSuccessful == NonOverflowing(request.ProductIds, hash)
      decreases |request.ProductIds|
    {
      var ids := request.ProductIds;
      if ids != [] {
        var n := |ids| - 1;
        var shorter := request.(ProductIds := ids[..n]);
        SuccessCountIsNonOverflowing(shorter, hash, behaviour, elapsedMs);
        var es := Entries(request, hash, behaviour);
        EntriesPrefix(request, hash, behaviour, n);
        assert es[..|es| - 1] == es[..n];
        assert es[n].Added? <==> hash(ids[n]) != MinValue;
        assert ids[..|ids| - 1] == ids[..n];
      }
    }

    /**
     * When no requested id's hash is `int.MinValue`, every id yields its own
     * product, duplicates included, in request order, and there are no errors.
     */
    lemma AllSucceedWithoutOverflow(request: AggregatedProductRequest, hash: string -> Int32, behaviour: ProviderBehaviour, elapsedMs: int)
      requires forall k :: 0 <= k < |request.ProductIds| ==> hash(request.ProductIds[k]) != MinValue
      ensures var r := AggregateSpec(request, hash, behaviour, elapsedMs);
        && r.TotalSuccessful == |r.Products| == |request.ProductIds|
        && r.Errors == []
        && forall k :: 0 <= k < |request.ProductIds| ==>
             Returned(r.Products[k]) == ProductSpec(request.ProductIds[k], request.IncludePrices, request.IncludeStock, hash, behaviour, k)
    {
      var es := Entries(request, hash, behaviour);
      AllAdded(es);
    }

    /**
     * `GetProductInternalAsync`: builds the product for `productId`, asking the
     * providers in turn. Returns the (never null) product or the exception, and
     * the invocations made, in order.
     */
    method GetProductInternal(productId: string, request: AggregatedProductRequest, hash: string -> Int32,
                              behaviour: ProviderBehaviour, slot: nat)
      returns (r: Outcome<Option<Product>>, invoked: seq<Invocation>)
      ensures r.Returned? ==> r.value.Some?
      ensures r.Returned? ==> ProductSpec(productId, request.IncludePrices, request.IncludeStock, hash, behaviour, slot) == Returned(r.value.value)
      ensures r.Threw? ==> ProductSpec(productId, request.IncludePrices, request.IncludeStock, hash, behaviour, slot) == Threw(r.message)
      ensures invoked == if r.Threw? then [] else InvocationsFor(request.IncludePrices, request.IncludeStock)
    {
      invoked := [];
      var category := GetCategoryFromId(productId, hash);
      if category.Threw? {
        return Threw(category.message), invoked;
      }
      var product := IdentityOf(productId, category.value);
      if request.IncludePrices {
        product, invoked := AskPriceProviders(productId, behaviour, slot, product);
      }
      if request.IncludeStock {
        var stockInvoked;
        product, stockInvoked := AskStockProviders(productId, behaviour, slot, product);
        invoked := invoked + stockInvoked;
      }
      r := Returned(Some(product));
    }

    /**
     * The price loop: asks each price provider in turn, keeping the quote of
     * every successful response and skipping failures and exceptions.
     */
    method AskPriceProviders(productId: string, behaviour: ProviderBehaviour, slot: nat, product: Product)
      returns (priced: Product, invoked: seq<Invocation>)
      requires product.Prices == []
      ensures priced == product.(Prices := CollectedPrices(PriceCalls(behaviour, productId, slot)))
      ensures invoked == PriceInvocations(|PriceProviders|)
    {
      ghost var calls := PriceCalls(behaviour, productId, slot);
      priced, invoked := product, [];
      for i := 0 to |PriceProviders|
        invariant priced == product.(Prices := CollectedPrices(calls[..i]))
        invariant invoked == PriceInvocations(i)
      {
        var response := behaviour.Price(i, productId, slot);
        invoked := invoked + [PriceInvocation(i)];
        if response.Returned? && response.value.Success && response.value.PriceInfo.Some? {
          priced := priced.(Prices := priced.Prices + [response.value.PriceInfo.value]);
        }
        assert calls[..i + 1][..i] == calls[..i];
      }
      assert calls[..|PriceProviders|] == calls;
    }

    /**
     * The stock loop: asks each stock provider in turn, appending the levels of
     * every successful response and skipping failures and exceptions.
     */
    method AskStockProviders(productId: string, behaviour: ProviderBehaviour, slot: nat, product: Product)
      returns (stocked: Product, invoked: seq<Invocation>)
      requires product.StockLevels == []
      ensures stocked == product.(StockLevels := CollectedLevels(StockCalls(behaviour, productId, slot)))
      ensures invoked == StockInvocations(|StockProviders|)
    {
      ghost var calls := StockCalls(behaviour, productId, slot);
      stocked, invoked := product, [];
      for i := 0 to |StockProviders|
        invariant stocked == product.(StockLevels := CollectedLevels(calls[..i]))
        invariant invoked == StockInvocations(i)
      {
        var response := behaviour.Stock(i, productId, slot);
        invoked := invoked + [StockInvocation(i)];
        if response.Returned? && response.value.Success {
          stocked := stocked.(StockLevels := stocked.StockLevels + response.value.StockInfos);
        }
        assert calls[..i + 1][..i] == calls[..i];
      }
      assert calls[..|StockProviders|] == calls;
    }

    /**
     * `GetProductAsync`: one product, with the flags of a default request (both
     * included). The result is never null.
     */
    method GetProduct(productId: string, hash: string -> Int32, behaviour: ProviderBehaviour)
      returns (r: Outcome<Option<Product>>)
      ensures r.Returned? <==> hash(productId) != MinValue
      ensures r.Returned? ==> r.value.Some? && Returned(r.value.value) == ProductSpec(productId, true, true, hash, behaviour, 0)
      ensures r.Threw? ==> r.message == OverflowMessage
    {
      var request := NewRequest.(ProductIds := [productId]);
      var invoked;
      r, invoked := GetProductInternal(productId, request, hash, behaviour, 0);
    }

    /**
     * `AggregateProductsAsync`: asks for each requested id in turn, appending
     * the product and counting it, or appending an error line when building it
     * threw. `elapsedMs` is the stopwatch reading, supplied from outside.
     */
    method AggregateProducts(request: AggregatedProductRequest, hash: string -> Int32,
                             behaviour: ProviderBehaviour, elapsedMs: int)
      returns (response: AggregatedProductResponse)
      ensures response == AggregateSpec(request, hash, behaviour, elapsedMs)
      ensures response.TotalRequested == |request.ProductIds|
      ensures response.TotalSuccessful == |response.Products|
      ensures |response.Products| + |response.Errors| == |request.ProductIds|
    {
      response := NewResponse.(TotalRequested := |request.ProductIds|);
      ghost var es := Entries(request, hash, behaviour);

      for k := 0 to |request.ProductIds|
        invariant response.Products == AddedOf(es[..k])
        invariant response.Errors == LoggedOf(es[..k])
        invariant response.TotalSuccessful == AddedCount(es[..k])
        invariant response.TotalRequested == |request.ProductIds|
        invariant response.ProcessingTimeMs == 0
      {
        var productId := request.ProductIds[k];
        var product, invoked := GetProductInternal(productId, request, hash, behaviour, k);
        match product {
          case Returned(p) =>
            if p.Some? {
              response := response.(Products := response.Products + [p.value],
                                    TotalSuccessful := response.TotalSuccessful + 1);
            }
          case Threw(message) =>
            response := response.(Errors := response.Errors + [FailureLine(productId, message)]);
        }
        assert es[..k + 1][..k] == es[..k];
      }
      assert es[..|request.ProductIds|] == es;
      response := response.(ProcessingTimeMs := elapsedMs);
    }
  }
}
