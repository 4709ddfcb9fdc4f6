/**
 * The decisions the HTTP controller makes around the service: the batch-size
 * guard, the not-found rule for a single product, and the benchmark's clamped
 * count and generated ids. Each action is stated over the service's
 * specification functions; HTTP plumbing and logging are not modelled.
 */
module Controllers {
  import opened DotNet
  import opened Models
  import opened Services

  /** The action results the controller produces; `Unhandled` is an exception escaping the action. */
  datatype ActionResult<+T> = Ok(value: T) | BadRequest(message: string) | NotFound(message: string) | Unhandled(message: string)

  const MaxBatchSize: nat := 50
  const MissingIdsMessage: string := "At least one product ID is required."
  const TooManyIdsMessage: string := "Maximum 50 products per request."

  /** The benchmark's response body (`AverageTimePerProduct`, a `double`, is not modelled). */
  datatype BenchmarkResult = BenchmarkResult(
    ProductCount: int,
    ProcessingTimeMs: int,
    SuccessfulProducts: int,
    Errors: seq<string>)

  /**
   * `AggregateProducts`: a missing or empty id list and a list of more than 50
   * ids are refused; anything else is passed to the service.
   */
  function AggregateProducts(service: ProductAggregatorService, productIds: Option<seq<string>>,
                             includePrices: bool, includeStock: bool,
                             hash: string -> Int32, behaviour: ProviderBehaviour, elapsedMs: int)
    : (r: ActionResult<AggregatedProductResponse>)
    ensures r.Ok? <==> productIds.Some? && 1 <= |productIds.value| <= MaxBatchSize
    ensures !r.Ok? ==> r.BadRequest?
    ensures r.BadRequest? ==>
      r.message == (if productIds.None? || productIds.value == [] then MissingIdsMessage else TooManyIdsMessage)
    ensures r.Ok? ==>
      && r.value.TotalRequested == |productIds.value|
      && r.value.TotalSuccessful + |r.value.Errors| == |productIds.value|
      && r.value == service.AggregateSpec(AggregatedProductRequest(productIds.value, includePrices, includeStock),
                                          hash, behaviour, elapsedMs)
  {
    if productIds.None? || |productIds.value| == 0 then
      BadRequest(MissingIdsMessage)
    else if |productIds.value| > MaxBatchSize then
      BadRequest(TooManyIdsMessage)
    else
      Ok(service.AggregateSpec(AggregatedProductRequest(productIds.value, includePrices, includeStock),
                               hash, behaviour, elapsedMs))
  }

  /**
   * `GetProduct`: not-found when the service returns null, the product
   * otherwise. The service never returns null, so the product is found
   * whenever building it did not throw, and the not-found branch is dead.
   */
  function GetProduct(service: ProductAggregatorService, productId: string,
                      hash: string -> Int32, behaviour: ProviderBehaviour): (r: ActionResult<Product>)
    ensures !r.NotFound? && !r.BadRequest?
    ensures r.Ok? <==> hash(productId) != MinValue
    ensures r.Ok? ==> r.value.Id == productId && r.value.Category in Categories
    ensures r.Unhandled? ==> r.message == OverflowMessage
  {
    var product: Outcome<Option<Product>> :=
      match service.ProductSpec(productId, true, true, hash, behaviour, 0)
      case Returned(p) => Returned(Some(p))
      case Threw(m) => Threw(m);
    match product
    case Threw(m) => Unhandled(m)
    case Returned(None) => NotFound("Product " + productId + " not found.")
    case Returned(Some(p)) => Ok(p)
  }

  /** The characters `'0'` to `'9'`. */
  function DigitChar(d: nat): (c: char)
    requires d < 10
    ensures '0' <= c <= '9'
  {
    ('0' as int + d) as char
  }

  /** The value of a decimal digit character. */
  function DigitValue(c: char): (d: nat)
    ensures d < 10
  {
    if '0' <= c <= '9' then (c - '0') as nat else 0
  }

  /** `n.ToString()` for a non-negative `n`: its decimal digits, without leading zeros. */
  function DecimalDigits(n: nat): (s: seq<char>)
    ensures 1 <= |s|
    ensures forall i :: 0 <= i < |s| ==> '0' <= s[i] <= '9'
    ensures n < 10 <==> |s| == 1
    ensures n < 100 ==> |s| <= 2
    ensures n < 1000 ==> |s| <= 3
    ensures n < 10000 ==> |s| <= 4
  {
    if n < 10 then [DigitChar(n)] else DecimalDigits(n / 10) + [DigitChar(n % 10)]
  }

  /** The value of a string of decimal digits (the inverse of formatting, used to prove it injective). */
  function ParseDecimal(s: seq<char>): nat {
    if s == [] then 0 else 10 * ParseDecimal(s[..|s| - 1]) + DigitValue(s[|s| - 1])
  }

  /** `i.ToString("D4")`: the decimal digits of `i`, left-padded with zeros to at least four characters. */
  function FormatD4(i: nat): (s: string)
    ensures |s| == if i < 10000 then 4 else |DecimalDigits(i)|
    ensures forall k :: 0 <= k < |s| ==> '0' <= s[k] <= '9'
  {
    var digits := DecimalDigits(i);
    if |digits| >= 4 then digits else seq(4 - |digits|, _ => '0') + digits
  }

  /** Parsing the digits of `n` gives `n` back. */
  lemma {:induction false} ParseDecimalDigits(n: nat)
    ensures ParseDecimal(DecimalDigits(n)) == n
  {
    if n >= 10 {
      ParseDecimalDigits(n / 10);
      assert n == 10 * (n / 10) + n % 10;
      var s := DecimalDigits(n);
      assert s[..|s| - 1] == DecimalDigits(n / 10);
      assert DigitValue(s[|s| - 1]) == n % 10;
    }
  }

  /** A leading zero does not change the value. */
  lemma {:induction false} ParseLeadingZero(s: seq<char>)
    ensures ParseDecimal(['0'] + s) == ParseDecimal(s)
  {
    if s != [] {
      var t := ['0'] + s;
      assert t[..|t| - 1] == ['0'] + s[..|s| - 1];
      ParseLeadingZero(s[..|s| - 1]);
    } else {
      assert ParseDecimal(['0']) == 10 * ParseDecimal([]) + DigitValue('0');
    }
  }

  /** Leading zeros do not change the value. */
  lemma {:induction false} ParseLeadingZeros(z: nat, s: seq<char>)
    ensures ParseDecimal(seq(z, _ => '0') + s) == ParseDecimal(s)
  {
    if z > 0 {
      var zeros := seq(z, _ => '0');
      assert zeros + s == ['0'] + (seq(z - 1, _ => '0') + s);
      ParseLeadingZero(seq(z - 1, _ => '0') + s);
      ParseLeadingZeros(z - 1, s);
    } else {
      assert seq(z, _ => '0') + s == s;
    }
  }

  /** The zero-padded form of `i` reads back as `i`, so distinct numbers give distinct ids. */
  lemma FormatD4RoundTrip(i: nat)
    ensures ParseDecimal(FormatD4(i)) == i
  {
    var digits := DecimalDigits(i);
    ParseDecimalDigits(i);
    if |digits| < 4 {
      ParseLeadingZeros(4 - |digits|, digits);
    }
  }

  /** The benchmark's ids: `"PROD-"` followed by `i` as four digits, for `i` from 1 to `count`. */
  function BenchmarkIds(count: nat): (ids: seq<string>)
    ensures |ids| == count
  {
    seq(count, k requires 0 <= k => "PROD-" + FormatD4(k + 1))
  }

  /**
   * The benchmark ids are `PROD-0001`, `PROD-0002`, ... in increasing order:
   * each is nine characters long when count is below 10000, and they are
   * pairwise distinct.
   */
  lemma BenchmarkIdsDistinct(count: nat)
    ensures forall k :: 0 <= k < count ==>
      && BenchmarkIds(count)[k] == "PROD-" + FormatD4(k + 1)
      && BenchmarkIds(count)[k][..5] == "PROD-"
      && ParseDecimal(BenchmarkIds(count)[k][5..]) == k + 1
      && (count < 10000 ==> |BenchmarkIds(count)[k]| == 9)
    ensures forall k, k' :: 0 <= k < k' < count ==> BenchmarkIds(count)[k] != BenchmarkIds(count)[k']
  {
    var ids := BenchmarkIds(count);
    forall k | 0 <= k < count
      ensures ids[k][..5] == "PROD-" && ids[k][5..] == FormatD4(k + 1) && ParseDecimal(ids[k][5..]) == k + 1
    {
      FormatD4RoundTrip(k + 1);
      assert ids[k] == "PROD-" + FormatD4(k + 1);
    }
  }

  /**
   * `RunBenchmark`: clamps the count into [1, 20], aggregates that many
   * generated ids with both prices and stock included, and reports the count,
   * the successes and the errors.
   */
  function RunBenchmark(service: ProductAggregatorService, productCount: int,
                        hash: string -> Int32, behaviour: ProviderBehaviour, elapsedMs: int)
    : (r: ActionResult<BenchmarkResult>)
    ensures r.Ok?
    ensures 1 <= r.value.ProductCount <= 20
    ensures 1 <= productCount <= 20 ==> r.value.ProductCount == productCount
    ensures productCount < 1 ==> r.value.ProductCount == 1
    ensures 20 < productCount ==> r.value.ProductCount == 20
    ensures r.value.SuccessfulProducts + |r.value.Errors| == r.value.ProductCount
    ensures r.value.ProcessingTimeMs == elapsedMs
  {
    var count := Clamp(productCount, 1, 20);
    var request := NewRequest.(ProductIds := BenchmarkIds(count));
    var response := service.AggregateSpec(request, hash, behaviour, elapsedMs);
    Ok(BenchmarkResult(count, response.ProcessingTimeMs, response.TotalSuccessful, response.Errors))
  }

  /** The benchmark request includes both prices and stock, so every product it builds had every provider asked. */
  lemma BenchmarkUsesDefaultFlags(service: ProductAggregatorService, productCount: int,
                                  hash: string -> Int32, behaviour: ProviderBehaviour, elapsedMs: int)
    ensures var count := Clamp(productCount, 1, 20);
      var request := NewRequest.(ProductIds := BenchmarkIds(count));
      && request.IncludePrices && request.IncludeStock
      && RunBenchmark(service, productCount, hash, behaviour, elapsedMs).value.SuccessfulProducts
         == service.AggregateSpec(request, hash, behaviour, elapsedMs).TotalSuccessful
  {
  }
}
