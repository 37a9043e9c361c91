/** The campaign driver (app.py): for every product, aspect ratio and market
    of a brief it renders one creative and reports one row. What is modelled
    here is the plan of that loop: which rows exist, in which order, and
    the strings each row carries (language, message, file name, source
    label, legal flags), and where it stops early. Loading the brief,
    generation, composition, saving and the pixel checks on the saved file
    are I/O around it. */
module App {
  import opened Wrappers
  import opened Strings
  import opened Context
  import LegalChecks
  import BrandChecks
  import Imaging

  // ------------------------------------------------------------ the brief

  /** One entry of "products"; None is a missing key. */
  datatype Product = Product(
    id: Option<string>,          // "id", required
    name: Option<string>,        // "name", defaults to the id
    assetHint: Option<string>,   // "asset_hint", defaults to ""
    inputImage: Option<string>)  // "input_image", optional

  /** The keys of the brief main() reads; None is a missing key. */
  datatype Brief = Brief(
    products: Option<seq<Product>>,      // "products"
    aspectRatios: Option<seq<string>>,   // "aspect_ratios"
    markets: Option<seq<string>>,        // "target_markets"
    messages: Option<map<string, string>>, // "campaign_message"
    palette: Option<map<string, string>>, // "brand_palette"
    provider: Option<string>,            // "generator" -> "provider"
    prohibited: Option<seq<string>>)     // "legal_prohibited_words"

  /** The brief with main()'s defaults filled in. */
  datatype Settings = Settings(
    products: seq<Product>,
    ratios: seq<string>,
    markets: seq<string>,
    messages: map<string, string>,
    palette: map<string, string>,
    provider: Option<string>,
    prohibited: seq<string>)

  /** The palette main() uses when the brief has none. */
  const DefaultPalette: map<string, string> := map["primary_hex" := "#0B0B0B", "accent_hex" := "#FFD700"]

  function Resolve(b: Brief): (s: Settings)
    ensures s.products == b.products.GetOr([])
    ensures s.ratios == b.aspectRatios.GetOr(["1:1", "9:16", "16:9"])
    ensures s.markets == b.markets.GetOr(["US"])
    ensures s.messages == b.messages.GetOr(map["en" := "Hello World"])
    ensures s.palette == b.palette.GetOr(DefaultPalette)
  {
    Settings(
      b.products.GetOr([]),
      b.aspectRatios.GetOr(["1:1", "9:16", "16:9"]),
      b.markets.GetOr(["US"]),
      b.messages.GetOr(map["en" := "Hello World"]),
      b.palette.GetOr(DefaultPalette),
      b.provider,
      b.prohibited.GetOr([]))
  }

  // ------------------------------------------------------------ mappings

  /** ASPECT_MAP: the fixed output size of each supported aspect ratio. */
  const AspectMap: map<string, (int, int)> := map["1:1" := (1080, 1080), "9:16" := (1080, 1920), "16:9" := (1920, 1080)]

  /** The language whose message a market gets. */
  function LangKey(market: string): (r: string)
    ensures r == "de" <==> Lower(market) in {"de", "germany"}
    ensures r == "ja" <==> Lower(market) in {"jp", "japan"}
    ensures r == "en" <==> Lower(market) !in {"de", "germany", "jp", "japan"}
  {
    var ml := Lower(market);
    if ml in {"de", "germany"} then "de"
    else if ml in {"jp", "japan"} then "ja"
    else "en"
  }

  /** messages.get(lang, messages.get("en", "")) */
  function MessageFor(messages: map<string, string>, lang: string): (r: string)
    ensures lang in messages ==> r == messages[lang]
    ensures lang !in messages && "en" in messages ==> r == messages["en"]
    ensures lang !in messages && "en" !in messages ==> r == ""
  {
    if lang in messages then messages[lang]
    else if "en" in messages then messages["en"]
    else ""
  }

  /** f"{pid}_{ar}_{market}.png" */
  function OutputName(pid: string, ar: string, market: string): string {
    Join([pid, ar, market], '_') + ".png"
  }

  const AutoProvider := "auto"
  const ProvidedAsset := "provided_asset"
  const GeneratedPrefix := "generated:"

  /** The "source_image" column: the brief's own asset when its path exists,
      otherwise the generator, by provider name or "auto". The file system
      is the predicate `fileExists`. */
  function SourceLabel(inputImage: Option<string>, fileExists: string -> bool, provider: Option<string>): string {
    if Truthy(inputImage) && fileExists(inputImage.value) then ProvidedAsset
    else GeneratedPrefix + Or(provider, Some(AutoProvider)).value
  }

  /** "|".join(flags) if flags else "" */
  function JoinFlags(flags: seq<string>): string {
    if flags == [] then "" else Join(flags, '|')
  }

  // ------------------------------------------------------------ the plan

  /** One creative and its report row. */
  datatype Job = Job(
    pid: string, name: string, hint: string,
    ratio: string, width: int, height: int,
    market: string, lang: string, message: string,
    fileName: string, source: string, legalFlags: string)

  /** Why main() stops. */
  datatype Abort =
    | TooFewProducts  // SystemExit("Brief must include at least two products.")
    | MissingId       // KeyError: product["id"]
    | BadAccent       // ValueError: _hex_to_rgb on the palette's accent, in run_brand_checks

  /** The rows main() has produced, and whether it stopped early. */
  datatype Plan = Plan(jobs: seq<Job>, abort: Option<Abort>)

  /** run_brand_checks parses the palette's accent colour on every row;
      when it does not parse, the first row stops main() before it is
      written. */
  predicate AccentParses(s: Settings) {
    BrandChecks.HexToRgb(BrandChecks.AccentHex(s.palette)).Some?
  }

  /** The row for one product with id pid, one known ratio and one market. */
  function MakeJob(s: Settings, pid: string, p: Product, ar: string, market: string, fileExists: string -> bool): Job
    requires ar in AspectMap
  {
    var lang := LangKey(market);
    var message := MessageFor(s.messages, lang);
    Job(pid, p.name.GetOr(pid), p.assetHint.GetOr(""),
        ar, AspectMap[ar].0, AspectMap[ar].1,
        market, lang, message,
        OutputName(pid, ar, market), SourceLabel(p.inputImage, fileExists, s.provider),
        JoinFlags(LegalChecks.LegalFlags(message, s.prohibited)))
  }

  /** The innermost loop: one row per market, in order. */
  function MarketJobs(s: Settings, pid: string, p: Product, ar: string, markets: seq<string>, fileExists: string -> bool): seq<Job>
    requires ar in AspectMap
    decreases |markets|
  {
    if markets == [] then []
    else MarketJobs(s, pid, p, ar, markets[..|markets| - 1], fileExists)
         + [MakeJob(s, pid, p, ar, markets[|markets| - 1], fileExists)]
  }

  /** The middle loop: unknown ratios are skipped. */
  function RatioJobs(s: Settings, pid: string, p: Product, ratios: seq<string>, fileExists: string -> bool): seq<Job>
    decreases |ratios|
  {
    if ratios == [] then []
    else
      var ar := ratios[|ratios| - 1];
      RatioJobs(s, pid, p, ratios[..|ratios| - 1], fileExists)
      + (if ar in AspectMap then MarketJobs(s, pid, p, ar, s.markets, fileExists) else [])
  }

  /** The outer loop: it stops at the first product without an id. */
  function ProductJobs(s: Settings, products: seq<Product>, fileExists: string -> bool): Plan
    decreases |products|
  {
    if products == [] then Plan([], None)
    else
      var prev := ProductJobs(s, products[..|products| - 1], fileExists);
      var p := products[|products| - 1];
      if prev.abort.Some? then prev
      else if p.id.None? then Plan(prev.jobs, Some(MissingId))
      else Plan(prev.jobs + RatioJobs(s, p.id.value, p, s.ratios, fileExists), None)
  }

  /** The guard, then the loops, which stop at their first row when the
      accent colour does not parse (`accentOk` false). */
  function Guarded(s: Settings, accentOk: bool, fileExists: string -> bool): Plan {
    if |s.products| < 2 then Plan([], Some(TooFewProducts))
    else
      var plan := ProductJobs(s, s.products, fileExists);
      if plan.jobs != [] && !accentOk then Plan([], Some(BadAccent)) else plan
  }

  /** main() on a loaded brief. */
  function Campaign(b: Brief, fileExists: string -> bool): Plan {
    var s := Resolve(b);
    Guarded(s, AccentParses(s), fileExists)
  }

  /** The innermost loop of main(): one row per market. `accent` is what
      _hex_to_rgb makes of the palette's accent in run_brand_checks, the same
      on every row; `failed` is its ValueError, which ends the loop at its
      first row. */
  method MarketLoop(s: Settings, pid: string, p: Product, ar: string, accent: Option<Imaging.Rgb>, fileExists: string -> bool)
    returns (rows: seq<Job>, failed: bool)
    requires ar in AspectMap
    ensures failed <==> accent.None? && s.markets != []
    ensures rows == if failed then [] else MarketJobs(s, pid, p, ar, s.markets, fileExists)
  {
    rows, failed := [], false;
    var k := 0;
    while k < |s.markets|
      invariant 0 <= k <= |s.markets|
      invariant rows == MarketJobs(s, pid, p, ar, s.markets[..k], fileExists)
      invariant accent.None? ==> k == 0
    {
      var market := s.markets[k];
      assert s.markets[..k + 1][..k] == s.markets[..k];
      var lang := LangKey(market);
      var message := MessageFor(s.messages, lang);
      var legal := LegalChecks.RunLegalChecks(message, s.prohibited);
      if accent.None? {
        return [], true;
      }
      var job := Job(pid, p.name.GetOr(pid), p.assetHint.GetOr(""),
                     ar, AspectMap[ar].0, AspectMap[ar].1,
                     market, lang, message,
                     OutputName(pid, ar, market), SourceLabel(p.inputImage, fileExists, s.provider),
                     JoinFlags(legal));
      assert job == MakeJob(s, pid, p, ar, market, fileExists);
      rows := rows + [job];
      k := k + 1;
    }
    assert s.markets[..k] == s.markets;
  }

  /** The middle loop of main(): unknown ratios are skipped with a warning;
      a failed brand check ends it. */
  method RatioLoop(s: Settings, pid: string, p: Product, accent: Option<Imaging.Rgb>, fileExists: string -> bool)
    returns (rows: seq<Job>, failed: bool)
    ensures failed <==> accent.None? && RatioJobs(s, pid, p, s.ratios, fileExists) != []
    ensures rows == if failed then [] else RatioJobs(s, pid, p, s.ratios, fileExists)
  {
    rows, failed := [], false;
    var j := 0;
    while j < |s.ratios|
      invariant 0 <= j <= |s.ratios|
      invariant rows == RatioJobs(s, pid, p, s.ratios[..j], fileExists)
      invariant accent.None? ==> rows == []
    {
      var ar := s.ratios[j];
      assert s.ratios[..j + 1][..j] == s.ratios[..j];
      if ar !in AspectMap {
        j := j + 1;
        continue;
      }
      var more, stop := MarketLoop(s, pid, p, ar, accent, fileExists);
      if stop {
        RatioJobsGrow(s, pid, p, s.ratios, j + 1, fileExists);
        return [], true;
      }
      rows := rows + more;
      j := j + 1;
    }
    assert s.ratios[..j] == s.ratios;
  }

  /** main(): resolve the brief, then the guard and the loops. The accent
      colour is parsed here once; run_brand_checks parses the same palette
      entry on every row, and the loops test the outcome at each row. */
  method RunCampaign(b: Brief, fileExists: string -> bool) returns (jobs: seq<Job>, abort: Option<Abort>)
    ensures Plan(jobs, abort) == Campaign(b, fileExists)
  {
    var s := Resolve(b);
    var accent := BrandChecks.HexToRgb(BrandChecks.AccentHex(s.palette));
    jobs, abort := RunGuarded(s, accent, fileExists);
  }

  /** The guard and the loops of main(), without the rendering and file writes. */
  method RunGuarded(s: Settings, accent: Option<Imaging.Rgb>, fileExists: string -> bool) returns (jobs: seq<Job>, abort: Option<Abort>)
    ensures Plan(jobs, abort) == Guarded(s, accent.Some?, fileExists)
  {
    if |s.products| < 2 {
      return [], Some(TooFewProducts);
    }
    jobs, abort := ProductLoop(s, accent, fileExists);
  }

  /** The outer loop of main(): it stops at a product without an id, and
      at its first row when the accent does not parse. */
  method ProductLoop(s: Settings, accent: Option<Imaging.Rgb>, fileExists: string -> bool) returns (jobs: seq<Job>, abort: Option<Abort>)
    ensures var plan := ProductJobs(s, s.products, fileExists);
      Plan(jobs, abort) == if plan.jobs != [] && accent.None? then Plan([], Some(BadAccent)) else plan
  {
    jobs, abort := [], None;
    var i := 0;
    while i < |s.products|
      invariant 0 <= i <= |s.products|
      invariant ProductJobs(s, s.products[..i], fileExists) == Plan(jobs, None)
      invariant accent.None? ==> jobs == []
    {
      var p := s.products[i];
      assert s.products[..i + 1][..i] == s.products[..i];
      if p.id.None? {
        abort := Some(MissingId);
        ProductAbortSticks(s, s.products, i + 1, fileExists);
        assert s.products[..|s.products|] == s.products;
        assert ProductJobs(s, s.products, fileExists) == Plan(jobs, Some(MissingId));
        return;
      }
      var rows, stop := RatioLoop(s, p.id.value, p, accent, fileExists);
      ghost var next := ProductJobs(s, s.products[..i + 1], fileExists);
      assert next.jobs == jobs + RatioJobs(s, p.id.value, p, s.ratios, fileExists);
      if stop {
        ProductJobsGrow(s, s.products, i + 1, fileExists);
        assert s.products[..|s.products|] == s.products;
        assert ProductJobs(s, s.products, fileExists).jobs != [];
        return [], Some(BadAccent);
      }
      jobs := jobs + rows;
      i := i + 1;
    }
    assert s.products[..i] == s.products;
  }

  // ------------------------------------------------------------ properties

  /** Once a product lacks an id, later products change nothing. */
  lemma {:induction false} ProductAbortSticks(s: Settings, products: seq<Product>, n: nat, fileExists: string -> bool)
    requires 0 < n <= |products| && products[n - 1].id.None?
    requires ProductJobs(s, products[..n - 1], fileExists).abort.None?
    ensures ProductJobs(s, products[..n], fileExists) == Plan(ProductJobs(s, products[..n - 1], fileExists).jobs, Some(MissingId))
    ensures forall m :: n <= m <= |products| ==>
      ProductJobs(s, products[..m], fileExists) == ProductJobs(s, products[..n], fileExists)
  {
    assert products[..n][..n - 1] == products[..n - 1];
    forall m | n <= m <= |products|
      ensures ProductJobs(s, products[..m], fileExists) == ProductJobs(s, products[..n], fileExists)
    {
      AbortPrefix(s, products, n, m, fileExists);
    }
  }

  lemma {:induction false} AbortPrefix(s: Settings, products: seq<Product>, n: nat, m: nat, fileExists: string -> bool)
    requires 0 < n <= m <= |products|
    requires ProductJobs(s, products[..n], fileExists).abort.Some?
    ensures ProductJobs(s, products[..m], fileExists) == ProductJobs(s, products[..n], fileExists)
    decreases m
  {
    if m > n {
      AbortPrefix(s, products, n, m - 1, fileExists);
      assert products[..m][..m - 1] == products[..m - 1];
    }
  }

  /** Later ratios only add rows. */
  lemma {:induction false} RatioJobsGrow(s: Settings, pid: string, p: Product, ratios: seq<string>, n: nat, fileExists: string -> bool)
    requires n <= |ratios|
    ensures |RatioJobs(s, pid, p, ratios[..n], fileExists)| <= |RatioJobs(s, pid, p, ratios, fileExists)|
    decreases |ratios|
  {
    if n < |ratios| {
      var prefix := ratios[..|ratios| - 1];
      assert prefix[..n] == ratios[..n];
      RatioJobsGrow(s, pid, p, prefix, n, fileExists);
    } else {
      assert ratios[..n] == ratios;
    }
  }

  /** Later products only add rows. */
  lemma {:induction false} ProductJobsGrow(s: Settings, products: seq<Product>, n: nat, fileExists: string -> bool)
    requires n <= |products|
    ensures |ProductJobs(s, products[..n], fileExists).jobs| <= |ProductJobs(s, products, fileExists).jobs|
    decreases |products|
  {
    if n < |products| {
      var prefix := products[..|products| - 1];
      assert prefix[..n] == products[..n];
      ProductJobsGrow(s, prefix, n, fileExists);
    } else {
      assert products[..n] == products;
    }
  }

  /** The guard: fewer than two products (or none listed) stops main()
      before any creative is produced. */
  lemma GuardBeforeAnyJob(b: Brief, fileExists: string -> bool)
    requires |b.products.GetOr([])| < 2
    ensures Campaign(b, fileExists) == Plan([], Some(TooFewProducts))
  {
  }

  /** Every row of one ratio has that ratio's exact size, its market in
      order, and the file name built from the product, ratio and market. */
  lemma {:induction false} MarketJobsShape(s: Settings, pid: string, p: Product, ar: string, markets: seq<string>, fileExists: string -> bool)
    requires ar in AspectMap
    ensures var r := MarketJobs(s, pid, p, ar, markets, fileExists);
      && |r| == |markets|
      && forall k :: 0 <= k < |r| ==>
           && r[k].pid == pid && r[k].ratio == ar && r[k].market == markets[k]
           && (r[k].width, r[k].height) == AspectMap[ar]
           && r[k].lang == LangKey(markets[k])
           && r[k].fileName == OutputName(pid, ar, markets[k])
    decreases |markets|
  {
    if markets != [] {
      MarketJobsShape(s, pid, p, ar, markets[..|markets| - 1], fileExists);
    }
  }

  /** How many of the listed ratios ASPECT_MAP knows. */
  function KnownCount(ratios: seq<string>): nat
    decreases |ratios|
  {
    if ratios == [] then 0
    else KnownCount(ratios[..|ratios| - 1]) + (if ratios[|ratios| - 1] in AspectMap then 1 else 0)
  }

  /** One product yields a row per known ratio and market; an unknown
      ratio contributes nothing; every row uses a known ratio's size. */
  lemma {:induction false} RatioJobsShape(s: Settings, pid: string, p: Product, ratios: seq<string>, fileExists: string -> bool)
    ensures var r := RatioJobs(s, pid, p, ratios, fileExists);
      && |r| == KnownCount(ratios) * |s.markets|
      && forall k :: 0 <= k < |r| ==>
           && r[k].pid == pid && r[k].ratio in ratios && r[k].ratio in AspectMap
           && (r[k].width, r[k].height) == AspectMap[r[k].ratio]
           && r[k].market in s.markets
    decreases |ratios|
  {
    if ratios != [] {
      var prefix := ratios[..|ratios| - 1];
      var ar := ratios[|ratios| - 1];
      RatioJobsShape(s, pid, p, prefix, fileExists);
      var prev := RatioJobs(s, pid, p, prefix, fileExists);
      var tail := if ar in AspectMap then MarketJobs(s, pid, p, ar, s.markets, fileExists) else [];
      if ar in AspectMap {
        MarketJobsShape(s, pid, p, ar, s.markets, fileExists);
      }
      assert |tail| == (if ar in AspectMap then 1 else 0) * |s.markets|;
      assert |prev + tail| == (KnownCount(prefix) + (if ar in AspectMap then 1 else 0)) * |s.markets|;
      forall k | 0 <= k < |prev|
        ensures prev[k].ratio in ratios
      {
        assert prev[k].ratio in prefix;
      }
    }
  }

  /** An unknown ratio in the brief adds no row. */
  lemma UnknownRatioSkipped(s: Settings, pid: string, p: Product, ratios: seq<string>, ar: string, fileExists: string -> bool)
    requires ar !in AspectMap
    ensures RatioJobs(s, pid, p, ratios + [ar], fileExists) == RatioJobs(s, pid, p, ratios, fileExists)
  {
    assert (ratios + [ar])[..|ratios|] == ratios;
  }

  /** When every product has an id, main() produces exactly
      products x known ratios x markets rows and stops normally. */
  lemma {:induction false} ProductJobsCount(s: Settings, products: seq<Product>, fileExists: string -> bool)
    requires forall k :: 0 <= k < |products| ==> products[k].id.Some?
    ensures ProductJobs(s, products, fileExists).abort.None?
    ensures |ProductJobs(s, products, fileExists).jobs| == |products| * (KnownCount(s.ratios) * |s.markets|)
    decreases |products|
  {
    if products != [] {
      var prefix := products[..|products| - 1];
      var p := products[|products| - 1];
      ProductJobsCount(s, prefix, fileExists);
      RatioJobsShape(s, p.id.value, p, s.ratios, fileExists);
      var c := KnownCount(s.ratios) * |s.markets|;
      MulSucc(|prefix|, c);
    }
  }

  /** With at least two products, every one with an id, and an accent that
      parses, main() stops normally after exactly products x known ratios x
      markets rows. */
  lemma GuardedCount(s: Settings, fileExists: string -> bool)
    requires |s.products| >= 2
    requires forall k :: 0 <= k < |s.products| ==> s.products[k].id.Some?
    ensures Guarded(s, true, fileExists).abort.None?
    ensures |Guarded(s, true, fileExists).jobs| == |s.products| * (KnownCount(s.ratios) * |s.markets|)
  {
    ProductJobsCount(s, s.products, fileExists);
  }

  /** An accent that does not parse writes no row at all, and stops main()
      with the ValueError exactly when a parsable one would have produced a
      row; otherwise the run ends as it would have. */
  lemma {:induction false} BadAccentWritesNothing(s: Settings, fileExists: string -> bool)
    ensures Guarded(s, false, fileExists).jobs == []
    ensures Guarded(s, false, fileExists).abort == Some(BadAccent) <==> Guarded(s, true, fileExists).jobs != []
    ensures Guarded(s, true, fileExists).jobs == [] ==> Guarded(s, false, fileExists) == Guarded(s, true, fileExists)
  {
    ProductLoopStops(s, s.products, fileExists);
  }

  /** The product loop itself only ever stops at a product without an id. */
  lemma {:induction false} ProductLoopStops(s: Settings, products: seq<Product>, fileExists: string -> bool)
    ensures ProductJobs(s, products, fileExists).abort in {None, Some(MissingId)}
    decreases |products|
  {
    if products != [] {
      ProductLoopStops(s, products[..|products| - 1], fileExists);
    }
  }

  /** A colour name such as "red" is not hex: a brief whose palette gives it
      as the accent reports no row. */
  lemma {:induction false} NamedAccentWritesNothing(b: Brief, fileExists: string -> bool)
    requires b.palette == Some(map["accent_hex" := "red"])
    ensures Campaign(b, fileExists).jobs == []
  {
    var s := Resolve(b);
    assert BrandChecks.AccentHex(s.palette) == "red";
    BrandChecks.ColourNameRejected();
    assert !AccentParses(s);
    BadAccentWritesNothing(s, fileExists);
  }

  lemma MulSucc(n: nat, c: nat)
    ensures (n + 1) * c == n * c + c
  {
  }

  lemma LowerIdempotent(s: string)
    ensures Lower(Lower(s)) == Lower(s)
  {
  }

  /** Only the lower-cased market decides its language. */
  lemma LangKeyIgnoresCase(market: string)
    ensures LangKey(Lower(market)) == LangKey(market)
  {
    LowerIdempotent(market);
  }

  /** The file name splits back into the product id, ratio and market when
      the id and market hold no '_', and ends in ".png". */
  lemma OutputNameRoundTrip(pid: string, ar: string, market: string)
    requires '_' !in pid && '_' !in market && ar in AspectMap
    ensures var n := OutputName(pid, ar, market);
      && |n| >= 4 && n[|n| - 4..] == ".png"
      && Split(n[..|n| - 4], '_') == [pid, ar, market]
  {
    var stem := Join([pid, ar, market], '_');
    assert ar == "1:1" || ar == "9:16" || ar == "16:9";
    assert '_' !in ar;
    var n := stem + ".png";
    assert n[..|n| - 4] == stem;
    assert n[|n| - 4..] == ".png";
    SplitJoin([pid, ar, market], '_');
  }

  /** The source label names the provided asset exactly when the input
      image is set and exists; otherwise the provider, or "auto". */
  lemma SourceLabelMeaning(inputImage: Option<string>, fileExists: string -> bool, provider: Option<string>)
    ensures var r := SourceLabel(inputImage, fileExists, provider);
      && (r == ProvidedAsset <==> Truthy(inputImage) && fileExists(inputImage.value))
      && (r != ProvidedAsset ==> r == GeneratedPrefix + (if Truthy(provider) then provider.value else "auto"))
  {
    var g := GeneratedPrefix + Or(provider, Some(AutoProvider)).value;
    assert g[0] == 'g' && ProvidedAsset[0] == 'p';
  }

  /** Joined flags split back into the list when no flag holds '|'; the
      empty list becomes "". */
  lemma JoinFlagsRoundTrip(flags: seq<string>)
    requires forall k :: 0 <= k < |flags| ==> '|' !in flags[k]
    ensures flags == [] ==> JoinFlags(flags) == ""
    ensures flags != [] ==> Split(JoinFlags(flags), '|') == flags
  {
    if flags != [] {
      SplitJoin(flags, '|');
    }
  }
}
