/**
 * The `GET /api/rates` handler: check the access key, ask the provider for
 * rates quoted against EUR, validate the body, and rebase the display
 * currencies onto GBP by dividing each by the EUR-to-GBP rate.
 */
module RatesRoute {
  import opened Common

  const MsgMissingKey: string := "Missing EXCHANGE_API_KEY"
  const MsgProviderFailed: string := "Failed to fetch rates from provider"
  const MsgInvalidBody: string := "Provider response invalid (no GBP rate)"
  const MsgInternal: string := "Internal server error"

  /** The base the provider quotes against (its free plan forces EUR). */
  const ProviderBase: string := "EUR"

  /** The JSON the handler answers with: an error object with its status, or the rebased table. */
  datatype Response =
    | Failure(status: int, error: string)
    | Success(base: string, rates: RateTable)

  /** The request the handler sends upstream. */
  datatype ProviderRequest = ProviderRequest(accessKey: string, base: string, symbols: string)

  /**
   * What the upstream `fetch` comes back with. Unreachable: `fetch` itself
   * throws. NotOk: a non-2xx status, with the body `res.text()` reads for the
   * log, or None when that read rejects. Ok: a 2xx status with the body
   * `res.json()` reads.
   */
  datatype ProviderReply =
    | Unreachable
    | NotOk(status: int, text: Option<string>)
    | Ok(body: JsonBody)

  /** `!apiKey`: the variable is unset or is the empty string. */
  predicate KeyMissing(apiKey: Option<string>) {
    apiKey.None? || apiKey.value == ""
  }

  /** JavaScript truthiness of a rate read from the table: present and non-zero. */
  predicate Truthy(rates: RateTable, code: string) {
    code in rates && rates[code] != 0.0
  }

  /** `parts.join(sep)`. */
  function Join(parts: seq<string>, sep: char): string {
    if |parts| == 0 then ""
    else if |parts| == 1 then parts[0]
    else parts[0] + [sep] + Join(parts[1..], sep)
  }

  /** The symbol list the handler requests: the display currencies, then the pivot. */
  function Symbols(): string {
    Join(Currencies + [Pivot], ',')
  }

  /** The provider URL the handler fetches. */
  function RequestUrl(req: ProviderRequest): string {
    "https://api.exchangeratesapi.io/v1/latest?access_key=" + req.accessKey
      + "&base=" + req.base + "&symbols=" + req.symbols
  }

  /**
   * The table the rebasing loop has built after visiting `codes`: each truthy
   * code gets its provider rate divided by the pivot rate.
   */
  function RebaseOver(codes: seq<string>, rates: RateTable, pivotRate: real): RateTable
    requires pivotRate != 0.0
  {
    if |codes| == 0 then map[]
    else
      var acc := RebaseOver(codes[..|codes| - 1], rates, pivotRate);
      var code := codes[|codes| - 1];
      if Truthy(rates, code) then acc[code := rates[code] / pivotRate] else acc
  }

  /** A code is a key of the rebased table exactly when it was visited and its rate is truthy; its value is the ratio. */
  lemma {:induction false} RebaseOverCharacterized(codes: seq<string>, rates: RateTable, pivotRate: real, c: string)
    requires pivotRate != 0.0
    ensures c in RebaseOver(codes, rates, pivotRate) <==> c in codes && Truthy(rates, c)
    ensures c in RebaseOver(codes, rates, pivotRate) ==> RebaseOver(codes, rates, pivotRate)[c] == rates[c] / pivotRate
  {
    if |codes| > 0 {
      var init := codes[..|codes| - 1];
      RebaseOverCharacterized(init, rates, pivotRate, c);
      assert codes == init + [codes[|codes| - 1]];
      assert c in codes <==> c in init || c == codes[|codes| - 1];
    }
  }

  /** Every key of the rebased table is one of the visited codes. */
  lemma RebaseOverKeys(codes: seq<string>, rates: RateTable, pivotRate: real)
    requires pivotRate != 0.0
    ensures forall c :: c in RebaseOver(codes, rates, pivotRate) ==> c in codes
  {
    forall c | c in RebaseOver(codes, rates, pivotRate) ensures c in codes {
      RebaseOverCharacterized(codes, rates, pivotRate, c);
    }
  }

  /** The table the handler answers with on success, rebased from the provider's table. */
  function Rebased(rates: RateTable): (r: RateTable)
    requires Truthy(rates, Pivot)
    ensures forall c :: c in r ==> c in Currencies
    ensures Pivot !in r
  {
    RebaseOverKeys(Currencies, rates, rates[Pivot]);
    PivotIsNotDisplayed();
    RebaseOver(Currencies, rates, rates[Pivot])
  }

  /**
   * The response of the handler for a given key and provider reply, branch by
   * branch as the handler returns early. A reply that throws inside the `try`
   * becomes the internal-error response of the `catch`.
   */
  function Handle(apiKey: Option<string>, reply: ProviderReply): (r: Response)
    ensures r.Failure? ==> r.status == 500
    ensures r.Success? ==> r.base == Pivot && Pivot !in r.rates
    ensures r.Success? ==> forall c :: c in r.rates ==> c in Currencies
  {
    if KeyMissing(apiKey) then Failure(500, MsgMissingKey)
    else match reply
      case Unreachable => Failure(500, MsgInternal)
      case NotOk(_, text) => if text.None? then Failure(500, MsgInternal) else Failure(500, MsgProviderFailed)
      case Ok(Unparsable) => Failure(500, MsgInternal)
      case Ok(JsonNull) => Failure(500, MsgInternal)
      case Ok(Object(rates)) =>
        if rates.None? || !Truthy(rates.value, Pivot) then Failure(500, MsgInvalidBody)
        else Success(Pivot, Rebased(rates.value))
  }

  /**
   * The handler, step by step: the request it sends (None when it returns
   * before contacting the provider) and the response it answers with.
   */
  method Get(apiKey: Option<string>, reply: ProviderReply) returns (sent: Option<ProviderRequest>, response: Response)
    ensures sent == None <==> KeyMissing(apiKey)
    ensures sent.Some? ==> sent.value == ProviderRequest(apiKey.value, ProviderBase, Symbols())
    ensures response == Handle(apiKey, reply)
  {
    sent := None;
    if apiKey.None? || apiKey.value == "" {
      return sent, Failure(500, MsgMissingKey);
    }
    var symbols := Join(Currencies + [Pivot], ',');
    sent := Some(ProviderRequest(apiKey.value, ProviderBase, symbols));
    if reply.Unreachable? {
      return sent, Failure(500, MsgInternal);
    }
    if reply.NotOk? {
      if reply.text.None? {
        return sent, Failure(500, MsgInternal);
      }
      return sent, Failure(500, MsgProviderFailed);
    }
    if !reply.body.Object? {
      return sent, Failure(500, MsgInternal);
    }
    var data := reply.body;
    if data.rates.None? || !(Pivot in data.rates.value && data.rates.value[Pivot] != 0.0) {
      return sent, Failure(500, MsgInvalidBody);
    }
    var ratesFromEur := data.rates.value;
    var eurToGbp := ratesFromEur[Pivot];
    var gbpBased: RateTable := map[];
    var i := 0;
    while i < |Currencies|
      invariant 0 <= i <= |Currencies|
      invariant gbpBased == RebaseOver(Currencies[..i], ratesFromEur, eurToGbp)
    {
      var code := Currencies[i];
      assert Currencies[..i + 1][..i] == Currencies[..i];
      if code in ratesFromEur && ratesFromEur[code] != 0.0 {
        gbpBased := gbpBased[code := ratesFromEur[code] / eurToGbp];
      }
      i := i + 1;
    }
    assert Currencies[..i] == Currencies;
    response := Success(Pivot, gbpBased);
  }

  // ---- Properties of the handler ----

  /** Without a key the answer is the configuration error, whatever the provider would have said. */
  lemma MissingKeyError(apiKey: Option<string>, reply: ProviderReply)
    ensures Handle(apiKey, reply) == Failure(500, MsgMissingKey) <==> KeyMissing(apiKey)
  {
  }

  /** A non-2xx provider status whose body can be read is reported as a provider failure and carries no rates. */
  lemma ProviderFailureError(apiKey: Option<string>, reply: ProviderReply)
    requires !KeyMissing(apiKey)
    ensures Handle(apiKey, reply) == Failure(500, MsgProviderFailed) <==> reply.NotOk? && reply.text.Some?
  {
  }

  /**
   * Everything that throws inside the `try` gives the internal error: `fetch`
   * throwing, `res.text()` rejecting, `res.json()` throwing, or a `null` body.
   */
  lemma InternalError(apiKey: Option<string>, reply: ProviderReply)
    requires !KeyMissing(apiKey)
    ensures Handle(apiKey, reply) == Failure(500, MsgInternal)
        <==> reply.Unreachable? || (reply.NotOk? && reply.text.None?) || (reply.Ok? && !reply.body.Object?)
  {
  }

  /** A body without a rates table, or with an absent or zero GBP rate, is rejected as invalid. */
  lemma InvalidBodyError(apiKey: Option<string>, reply: ProviderReply)
    requires !KeyMissing(apiKey)
    ensures Handle(apiKey, reply) == Failure(500, MsgInvalidBody)
        <==> reply.Ok? && reply.body.Object? && (reply.body.rates.None? || !Truthy(reply.body.rates.value, Pivot))
  {
  }

  /** Success happens only on a well-formed body with a non-zero GBP rate, so the divisor is never zero. */
  lemma SuccessHasNonZeroDivisor(apiKey: Option<string>, reply: ProviderReply)
    ensures Handle(apiKey, reply).Success?
        <==> !KeyMissing(apiKey) && reply.Ok? && reply.body.Object? && reply.body.rates.Some?
             && Pivot in reply.body.rates.value && reply.body.rates.value[Pivot] != 0.0
  {
  }

  /**
   * On success, a display currency is an output key exactly when the provider
   * gave it a present, non-zero rate, and its value is that rate divided by
   * the GBP rate. Absent or zero rates are omitted, not defaulted.
   */
  lemma SuccessRates(apiKey: Option<string>, rates: RateTable, c: string)
    requires !KeyMissing(apiKey) && Truthy(rates, Pivot)
    ensures Handle(apiKey, Ok(Object(Some(rates)))).Success?
    ensures c in Handle(apiKey, Ok(Object(Some(rates)))).rates <==> c in Currencies && Truthy(rates, c)
    ensures c in Handle(apiKey, Ok(Object(Some(rates)))).rates
        ==> Handle(apiKey, Ok(Object(Some(rates)))).rates[c] == rates[c] / rates[Pivot]
  {
    RebaseOverCharacterized(Currencies, rates, rates[Pivot], c);
  }

  /** Every provider rate multiplied by the same factor. */
  function Scale(rates: RateTable, k: real): (r: RateTable)
    ensures r.Keys == rates.Keys
  {
    map c | c in rates :: k * rates[c]
  }

  /** One scaled rate over the scaled pivot is the unscaled ratio. */
  lemma ScaledRatio(rates: RateTable, code: string, p: real, k: real)
    requires code in rates && p != 0.0 && k != 0.0
    ensures Scale(rates, k)[code] / (k * p) == rates[code] / p
  {
  }

  /** Rebasing is a ratio: scaling every provider rate by the same non-zero factor changes nothing. */
  lemma {:induction false} RebaseOverScaleInvariant(codes: seq<string>, rates: RateTable, pivotRate: real, k: real)
    requires pivotRate != 0.0 && k != 0.0
    ensures RebaseOver(codes, Scale(rates, k), k * pivotRate) == RebaseOver(codes, rates, pivotRate)
  {
    if |codes| > 0 {
      var init, code := codes[..|codes| - 1], codes[|codes| - 1];
      var scaled := Scale(rates, k);
      RebaseOverScaleInvariant(init, rates, pivotRate, k);
      var acc := RebaseOver(init, rates, pivotRate);
      assert RebaseOver(init, scaled, k * pivotRate) == acc;
      if Truthy(rates, code) {
        assert scaled[code] == k * rates[code];
        assert Truthy(scaled, code);
        ScaledRatio(rates, code, pivotRate, k);
      } else {
        assert code in scaled ==> scaled[code] == k * rates[code] == 0.0;
        assert !Truthy(scaled, code);
      }
    }
  }

  /** Scaling every provider rate by the same non-zero factor leaves the handler's response unchanged. */
  lemma ScaleInvariant(apiKey: Option<string>, rates: RateTable, k: real)
    requires k != 0.0
    ensures Handle(apiKey, Ok(Object(Some(Scale(rates, k))))) == Handle(apiKey, Ok(Object(Some(rates))))
  {
    var scaled := Scale(rates, k);
    if Pivot in rates {
      assert scaled[Pivot] == k * rates[Pivot];
      assert scaled[Pivot] != 0.0 <==> rates[Pivot] != 0.0;
    }
    if Truthy(rates, Pivot) {
      var p := rates[Pivot];
      RebaseOverScaleInvariant(Currencies, rates, p, k);
      assert scaled[Pivot] == k * p;
      assert Rebased(scaled) == RebaseOver(Currencies, scaled, k * p);
      assert Rebased(scaled) == Rebased(rates);
    }
  }

  /** A provider table quoted against EUR (GBP 0.85, USD 1.10, CHF 0.95) rebases to USD and CHF only. */
  lemma ConcreteScenario(apiKey: string)
    requires apiKey != ""
    ensures Handle(Some(apiKey), Ok(Object(Some(map["USD" := 1.10, "GBP" := 0.85, "CHF" := 0.95]))))
         == Success("GBP", map["USD" := 1.10 / 0.85, "CHF" := 0.95 / 0.85])
  {
    var rates := map["USD" := 1.10, "GBP" := 0.85, "CHF" := 0.95];
    var expected := map["USD" := 1.10 / 0.85, "CHF" := 0.95 / 0.85];
    var got := Handle(Some(apiKey), Ok(Object(Some(rates)))).rates;
    forall c ensures c in got <==> c in expected {
      SuccessRates(Some(apiKey), rates, c);
    }
    forall c | c in got ensures got[c] == expected[c] {
      SuccessRates(Some(apiKey), rates, c);
    }
  }

  // ---- The symbol list, read back by the provider ----

  /** Position of the first `sep` in `s`. */
  function IndexOf(s: string, sep: char): (i: nat)
    requires sep in s
    ensures i < |s| && s[i] == sep && sep !in s[..i]
  {
    if s[0] == sep then 0 else 1 + IndexOf(s[1..], sep)
  }

  /** The provider's reading of a separated list: the pieces between separators. */
  function Split(s: string, sep: char): seq<string>
    decreases |s|
  {
    if sep !in s then [s]
    else var i := IndexOf(s, sep); [s[..i]] + Split(s[i + 1..], sep)
  }

  lemma SplitAfterPiece(p: string, sep: char, rest: string)
    requires sep !in p
    ensures Split(p + [sep] + rest, sep) == [p] + Split(rest, sep)
  {
    var s := p + [sep] + rest;
    assert s[..|p|] == p;
    assert s[|p|] == sep;
    var i := IndexOf(s, sep);
    assert i == |p|;
    assert s[i + 1..] == rest;
  }

  /** Splitting a join gives the parts back, when no part holds the separator. */
  lemma {:induction false} SplitJoin(parts: seq<string>, sep: char)
    requires |parts| > 0
    requires forall j :: 0 <= j < |parts| ==> sep !in parts[j]
    ensures Split(Join(parts, sep), sep) == parts
  {
    if |parts| > 1 {
      SplitJoin(parts[1..], sep);
      SplitAfterPiece(parts[0], sep, Join(parts[1..], sep));
    }
  }

  lemma JoinStep(first: string, rest: seq<string>, sep: char)
    requires |rest| > 0
    ensures Join([first] + rest, sep) == first + [sep] + Join(rest, sep)
  {
  }

  /** The requested symbols are the five display currencies in order, then GBP. */
  lemma SymbolsText()
    ensures Symbols() == "USD,EUR,CHF,AUD,CAD,GBP"
  {
    assert Currencies + [Pivot] == ["USD"] + (["EUR"] + (["CHF"] + (["AUD"] + (["CAD"] + ["GBP"]))));
    JoinStep("CAD", ["GBP"], ',');
    JoinStep("AUD", ["CAD"] + ["GBP"], ',');
    JoinStep("CHF", ["AUD"] + (["CAD"] + ["GBP"]), ',');
    JoinStep("EUR", ["CHF"] + (["AUD"] + (["CAD"] + ["GBP"])), ',');
    JoinStep("USD", ["EUR"] + (["CHF"] + (["AUD"] + (["CAD"] + ["GBP"]))), ',');
  }

  /** The provider reads the requested symbols back as the display currencies in order, then GBP. */
  lemma SymbolsList()
    ensures Split(Symbols(), ',') == Currencies + [Pivot]
  {
    SplitJoin(Currencies + [Pivot], ',');
  }

  /** The URL of the request `Get` sends, written out. */
  lemma RequestUrlText(apiKey: string)
    ensures RequestUrl(ProviderRequest(apiKey, ProviderBase, Symbols()))
         == "https://api.exchangeratesapi.io/v1/latest?access_key=" + apiKey + "&base=EUR&symbols=USD,EUR,CHF,AUD,CAD,GBP"
  {
    SymbolsText();
  }
}
