/** The symbol classifier that picks the market-data and execution providers
    for a symbol typed by the user. */
module InstrumentDetector {
  import opened Text
  import ProviderManager

  datatype Instrument = Instrument(
    instrumentType: string,
    marketProvider: string,
    executionProvider: string,
    normalizedSymbol: string)

  const FxList: set<string> := {"XAUUSD", "EURUSD", "GBPUSD", "USDJPY", "AUDUSD", "NZDUSD", "USDCAD", "USDCHF"}
  const CfdTokens: seq<string> := ["CFD", "_IBKR", ".FPM"]
  const BinanceTokens: seq<string> := ["XAUUSDT", "GOLDUSDT", "BTCUSDT", "ETHUSDT"]
  const OkxTokens: seq<string> := ["XAUTUSDT", "GOLDUSDT.OKX", "XAUT/USDT"]
  const FutTokens: seq<string> := ["GC", "GOLD"]

  /** `any(t in sym for t in tokens)` */
  predicate AnyContained(sym: string, tokens: seq<string>)
  {
    exists i :: 0 <= i < |tokens| && Contains(sym, tokens[i])
  }

  /** `any(sym.startswith(t) for t in tokens)` */
  predicate AnyPrefix(sym: string, tokens: seq<string>)
  {
    exists i :: 0 <= i < |tokens| && StartsWith(sym, tokens[i])
  }

  /** The CFD branch's normalisation: drop ".CFD", then "_IBKR", then ".FPM". */
  function StripCfd(sym: string): string
  {
    RemoveAll(RemoveAll(RemoveAll(sym, ".CFD"), "_IBKR"), ".FPM")
  }

  /** `detect_instrument(symbol)`: the first matching branch among FX list,
      CFD substring, Binance prefix, OKX prefix and futures prefix, else SIM. */
  function Detect(symbol: string): (r: Instrument)
    ensures r.marketProvider in ProviderManager.Registry
    ensures r.executionProvider in {"SIM", "IBKR"}
    ensures r.instrumentType in {"CRYPTO_BINANCE", "CRYPTO_OKX"} ==> r.executionProvider == "SIM"
    ensures r.instrumentType != "CFD" ==> r.normalizedSymbol == Upper(symbol)
  {
    ClassifyProviders(Upper(symbol));
    Classify(Upper(symbol))
  }

  lemma {:induction false} ClassifyProviders(sym: string)
    ensures var r := Classify(sym);
            && r.marketProvider in ProviderManager.Registry
            && r.executionProvider in {"SIM", "IBKR"}
            && (r.instrumentType in {"CRYPTO_BINANCE", "CRYPTO_OKX"} ==> r.executionProvider == "SIM")
            && (r.instrumentType != "CFD" ==> r.normalizedSymbol == sym)
  {
    var r := Classify(sym);
    assert r.marketProvider in {"SIM", "IBKR", "BINANCE", "OKX"};
  }

  /** The branch cascade on an already upper-cased symbol. */
  function Classify(sym: string): Instrument
  {
    if sym in FxList then Instrument("FX", "IBKR", "IBKR", sym)
    else if AnyContained(sym, CfdTokens) then Instrument("CFD", "IBKR", "IBKR", StripCfd(sym))
    else if AnyPrefix(sym, BinanceTokens) then Instrument("CRYPTO_BINANCE", "BINANCE", "SIM", sym)
    else if AnyPrefix(sym, OkxTokens) then Instrument("CRYPTO_OKX", "OKX", "SIM", sym)
    else if AnyPrefix(sym, FutTokens) then Instrument("FUTURES", "IBKR", "IBKR", sym)
    else Instrument("SIM", "SIM", "SIM", sym)
  }

  /** Matching ignores case: a symbol and its upper-cased form classify alike. */
  lemma {:induction false} DetectIgnoresCase(symbol: string)
    ensures Detect(Upper(symbol)) == Detect(symbol)
  {
    UpperIdempotent(symbol);
  }

  /** An FX-list symbol is FX on IBKR, whatever else it matches. */
  lemma {:induction false} FxWins(symbol: string)
    requires Upper(symbol) in FxList
    ensures Detect(symbol) == Instrument("FX", "IBKR", "IBKR", Upper(symbol))
  {
  }

  /** A symbol outside the FX list holding a CFD token anywhere is a CFD on
      IBKR, with the CFD suffixes stripped, whatever prefix it has. */
  lemma {:induction false} CfdBeforePrefixes(symbol: string)
    requires Upper(symbol) !in FxList && AnyContained(Upper(symbol), CfdTokens)
    ensures Detect(symbol) == Instrument("CFD", "IBKR", "IBKR", StripCfd(Upper(symbol)))
  {
  }

  /** Neither FX nor CFD, with a Binance prefix: Binance crypto executed on SIM. */
  lemma {:induction false} BinanceBeforeOkx(symbol: string)
    requires Upper(symbol) !in FxList && !AnyContained(Upper(symbol), CfdTokens)
    requires AnyPrefix(Upper(symbol), BinanceTokens)
    ensures Detect(symbol) == Instrument("CRYPTO_BINANCE", "BINANCE", "SIM", Upper(symbol))
  {
  }

  /** Neither FX, CFD nor Binance, with an OKX prefix: OKX crypto executed on SIM. */
  lemma {:induction false} OkxBeforeFutures(symbol: string)
    requires Upper(symbol) !in FxList && !AnyContained(Upper(symbol), CfdTokens)
    requires !AnyPrefix(Upper(symbol), BinanceTokens) && AnyPrefix(Upper(symbol), OkxTokens)
    ensures Detect(symbol) == Instrument("CRYPTO_OKX", "OKX", "SIM", Upper(symbol))
  {
  }

  /** Only after every other list fails does a futures prefix give FUTURES on IBKR. */
  lemma {:induction false} FuturesLast(symbol: string)
    requires Upper(symbol) !in FxList && !AnyContained(Upper(symbol), CfdTokens)
    requires !AnyPrefix(Upper(symbol), BinanceTokens) && !AnyPrefix(Upper(symbol), OkxTokens)
    requires AnyPrefix(Upper(symbol), FutTokens)
    ensures Detect(symbol) == Instrument("FUTURES", "IBKR", "IBKR", Upper(symbol))
  {
  }

  /** The instrument type names the first list that matches, in the order FX,
      CFD, Binance, OKX, futures, and SIM when none does. */
  lemma {:induction false} DetectTypeIsFirstMatch(symbol: string)
    ensures var sym, t := Upper(symbol), Detect(symbol).instrumentType;
            var fx, cfd := sym in FxList, AnyContained(sym, CfdTokens);
            var bin, okx, fut := AnyPrefix(sym, BinanceTokens), AnyPrefix(sym, OkxTokens), AnyPrefix(sym, FutTokens);
            && (t == "FX" <==> fx)
            && (t == "CFD" <==> !fx && cfd)
            && (t == "CRYPTO_BINANCE" <==> !fx && !cfd && bin)
            && (t == "CRYPTO_OKX" <==> !fx && !cfd && !bin && okx)
            && (t == "FUTURES" <==> !fx && !cfd && !bin && !okx && fut)
            && (t == "SIM" <==> !fx && !cfd && !bin && !okx && !fut)
  {
  }

  /** A symbol matching no list falls back to SIM for everything. */
  lemma {:induction false} DefaultIsSim(symbol: string)
    requires Upper(symbol) !in FxList
    requires !AnyContained(Upper(symbol), CfdTokens)
    requires !AnyPrefix(Upper(symbol), BinanceTokens + OkxTokens + FutTokens)
    ensures Detect(symbol) == Instrument("SIM", "SIM", "SIM", Upper(symbol))
  {
    var sym, all := Upper(symbol), BinanceTokens + OkxTokens + FutTokens;
    forall i | 0 <= i < |BinanceTokens| ensures !StartsWith(sym, BinanceTokens[i]) {
      assert all[i] == BinanceTokens[i];
    }
    forall i | 0 <= i < |OkxTokens| ensures !StartsWith(sym, OkxTokens[i]) {
      assert all[|BinanceTokens| + i] == OkxTokens[i];
    }
    forall i | 0 <= i < |FutTokens| ensures !StartsWith(sym, FutTokens[i]) {
      assert all[|BinanceTokens| + |OkxTokens| + i] == FutTokens[i];
    }
  }

  /** The OKX token "GOLDUSDT.OKX" can never select OKX: every symbol that
      starts with it also starts with the Binance token "GOLDUSDT", which is
      tried first. */
  lemma {:induction false} GoldUsdtOkxUnreachable(symbol: string)
    requires StartsWith(Upper(symbol), "GOLDUSDT.OKX")
    ensures Detect(symbol).instrumentType != "CRYPTO_OKX"
  {
    var sym := Upper(symbol);
    StartsWithTrans(sym, "GOLDUSDT.OKX", "GOLDUSDT");
    assert StartsWith(sym, BinanceTokens[1]);
  }

  lemma {:induction false} DetectXauusd()
    ensures Detect("XAUUSD") == Instrument("FX", "IBKR", "IBKR", "XAUUSD")
  {
    UpperOfUpper("XAUUSD");
  }

  /** "XAUUSD.CFD" is a CFD routed to IBKR, normalised to "XAUUSD". */
  lemma {:induction false} DetectXauusdCfd(symbol: string)
    requires symbol == "XAUUSD.CFD"
    ensures Detect(symbol) == Instrument("CFD", "IBKR", "IBKR", "XAUUSD")
  {
    UpperOfUpper(symbol);
    ClassifyXauusdCfd(symbol);
  }

  lemma {:induction false} ClassifyXauusdCfd(sym: string)
    requires sym == "XAUUSD.CFD"
    ensures Classify(sym) == Instrument("CFD", "IBKR", "IBKR", "XAUUSD")
  {
    assert sym[7..10] == "CFD";
    assert OccursAt(sym, CfdTokens[0], 7);
    assert AnyContained(sym, CfdTokens);
    StripCfdXauusd(sym);
  }

  lemma {:induction false} StripCfdXauusd(sym: string)
    requires sym == "XAUUSD.CFD"
    ensures StripCfd(sym) == "XAUUSD"
  {
    assert sym == "XAUUSD" + ".CFD";
    RemoveTrailing("XAUUSD", ".CFD");
    StripCfdClean(RemoveAll(sym, ".CFD"));
  }

  lemma {:induction false} StripCfdClean(x: string)
    requires x == "XAUUSD"
    ensures RemoveAll(RemoveAll(x, "_IBKR"), ".FPM") == x
  {
    NotContainsByChar(x, "_IBKR", 0);
    RemoveAllAbsent(x, "_IBKR");
    NotContainsByChar(x, ".FPM", 0);
    RemoveAllAbsent(x, ".FPM");
  }



  /** The three CFD tokens all carry a character missing from `sym`. */
  lemma {:induction false} NoCfdToken(sym: string)
    requires 'F' !in sym && '_' !in sym && '.' !in sym
    ensures !AnyContained(sym, CfdTokens)
  {
    NotContainsByChar(sym, CfdTokens[0], 1);
    NotContainsByChar(sym, CfdTokens[1], 0);
    NotContainsByChar(sym, CfdTokens[2], 0);
  }

  lemma {:induction false} DetectFutures()
    ensures Detect("GCZ4") == Instrument("FUTURES", "IBKR", "IBKR", "GCZ4")
  {
    UpperOfUpper("GCZ4");
    ClassifyFutures();
  }

  lemma {:induction false} ClassifyFutures()
    ensures Classify("GCZ4") == Instrument("FUTURES", "IBKR", "IBKR", "GCZ4")
  {
    var sym := "GCZ4";
    NoCfdToken(sym);
    forall i | 0 <= i < |BinanceTokens| ensures !StartsWith(sym, BinanceTokens[i]) {
      NotStartsWithByChar(sym, BinanceTokens[i], 1);
    }
    forall i | 0 <= i < |OkxTokens| ensures !StartsWith(sym, OkxTokens[i]) {
      NotStartsWithByChar(sym, OkxTokens[i], 1);
    }
    assert sym[..2] == FutTokens[0];
  }


  lemma {:induction false} DetectBinance()
    ensures Detect("XAUUSDT") == Instrument("CRYPTO_BINANCE", "BINANCE", "SIM", "XAUUSDT")
  {
    UpperOfUpper("XAUUSDT");
    ClassifyBinance();
  }

  lemma {:induction false} ClassifyBinance()
    ensures Classify("XAUUSDT") == Instrument("CRYPTO_BINANCE", "BINANCE", "SIM", "XAUUSDT")
  {
    var sym := "XAUUSDT";
    NoCfdToken(sym);
    assert sym[..7] == BinanceTokens[0];
  }


  lemma {:induction false} DetectOkx()
    ensures Detect("XAUTUSDT") == Instrument("CRYPTO_OKX", "OKX", "SIM", "XAUTUSDT")
  {
    UpperOfUpper("XAUTUSDT");
    ClassifyOkx();
  }

  lemma {:induction false} ClassifyOkx()
    ensures Classify("XAUTUSDT") == Instrument("CRYPTO_OKX", "OKX", "SIM", "XAUTUSDT")
  {
    var sym := "XAUTUSDT";
    NoCfdToken(sym);
    NotStartsWithByChar(sym, BinanceTokens[0], 3);
    NotStartsWithByChar(sym, BinanceTokens[1], 0);
    NotStartsWithByChar(sym, BinanceTokens[2], 0);
    NotStartsWithByChar(sym, BinanceTokens[3], 0);
    assert sym[..8] == OkxTokens[0];
  }


  lemma {:induction false} DetectUnknown()
    ensures Detect("UNKNOWN") == Instrument("SIM", "SIM", "SIM", "UNKNOWN")
  {
    UpperOfUpper("UNKNOWN");
    ClassifyUnknown();
  }

  lemma {:induction false} ClassifyUnknown()
    ensures Classify("UNKNOWN") == Instrument("SIM", "SIM", "SIM", "UNKNOWN")
  {
    var sym := "UNKNOWN";
    NoCfdToken(sym);
    forall i | 0 <= i < |BinanceTokens| ensures !StartsWith(sym, BinanceTokens[i]) {
      NotStartsWithByChar(sym, BinanceTokens[i], 0);
    }
    forall i | 0 <= i < |OkxTokens| ensures !StartsWith(sym, OkxTokens[i]) {
      NotStartsWithByChar(sym, OkxTokens[i], 0);
    }
    forall i | 0 <= i < |FutTokens| ensures !StartsWith(sym, FutTokens[i]) {
      NotStartsWithByChar(sym, FutTokens[i], 0);
    }
  }


  /** A string without lower-case letters is its own upper-cased form. */
  lemma {:induction false} UpperOfUpper(s: string)
    requires forall i :: 0 <= i < |s| ==> !('a' <= s[i] <= 'z')
    ensures Upper(s) == s
  {
  }
}
