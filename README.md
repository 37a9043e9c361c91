# Creative-automation pipeline core, modelled in Dafny

This project models the core of a small creative-automation pipeline written in Python. A campaign brief lists products, aspect ratios and markets. For each combination the pipeline:

- picks an image provider: a local placeholder, local SDXL, the Stability REST API or a Firefly stub;
- generates a base image, falling back to an annotated placeholder when the provider fails;
- localises the campaign message;
- flags prohibited words;
- checks size, accent colour and logo.

The model covers these pieces:

- Provider selection and dispatch (`pipeline/adapters.py`) and the never-fail wrapper (`pipeline/generators.py`).
- The Stability provider (`pipeline/providers/stability_api.py`):
  - canvas snapping;
  - choosing the closest SDXL v1 size;
  - the prompt template;
  - the fallback chain of wire variants (v1 SDXL, v2beta JSON, v2beta multipart). A `Server` function stands in for the network and supplies each reply; every request is recorded in order.
- The local SDXL provider (`pipeline/providers/sdxl_diffusers.py`). The import guard and the loaded pipeline are a `Backend` value.
- The Firefly stub (`pipeline/providers/firefly_api.py`).
- The placeholder renderer (`pipeline/fallback_placeholder.py`). It is an imperative `Canvas` whose drawing methods append draw commands. `GenerateFallback` is proved to produce exactly the `Fallback` layout.
- The legal check (`pipeline/legal_checks.py`):
  - the token regex as maximal runs;
  - the `*`-glob, matched case-insensitively against a whole token, proved equal to a reference definition ("the text is the pattern with its stars filled in");
  - the per-pattern flag loop.
- The brand check (`pipeline/brand_checks.py`):
  - `_hex_to_rgb`, with `int(x, 16)` written out;
  - the fixed order of the flags;
  - the coarse accent search over a two-dimensional pixel array, proved to decide "some pixel on the sampling grid is close to the accent".
- The orchestration in `app.py`:
  - the aspect-ratio table;
  - the market-to-language mapping and the message fallback;
  - the product-count guard;
  - file names, source labels and flag joining;
  - the triple loop over products, ratios and markets. It is a method proved equal to a recursive plan of report rows.

The environment variables are an explicit `Env` value. Python exceptions are `Failure` values carried in a `Result`.

Modules (one per source file, plus shared helpers):

- `Wrappers`: Option and Result.
- `Strings`: ASCII versions of `strip`, `lower`, `join` and `split`, and `str(int)`.
- `Context`: the environment, the parameters and the exceptions.
- `Imaging`: pictures, draw commands and `Canvas`.
- `Prompt`, `Placeholder`, `Stability`, `StabilityFacts`, `SdxlDiffusers`, `Firefly`, `Adapters`, `Generators`, `LegalChecks`, `BrandChecks` and `App`.

## Model

| member | source | states |
|---|---|---|
| Stability.EnsureCanvas | pipeline/providers/stability_api.py:12-16 | Each side is a multiple of 8 and at least 256. A side of 256 or more is snapped down by less than 8. A smaller side becomes 256. |
| Stability.SdxlDims | pipeline/providers/stability_api.py:25-41 | The chosen size is always an entry of `_SDXL_V1_ALLOWED`. |
| Stability.DimsFrom | pipeline/providers/stability_api.py:30-41 | For a positive request the result is a catalogue entry. For a non-positive side it is (1024, 1024). |
| Stability.SdxlDimsDefault | pipeline/providers/stability_api.py:30-31 | If w <= 0 or h <= 0, the result is (1024, 1024). |
| Stability.Oriented | pipeline/providers/stability_api.py:34 | The filter keeps exactly the catalogue entries of the requested orientation. |
| Stability.OrientedAppend | pipeline/providers/stability_api.py:34 | The filter keeps catalogue order: filtering a concatenation concatenates the filtered parts. |
| Stability.Candidates | pipeline/providers/stability_api.py:34-36 | The candidates are non-empty and drawn from the catalogue. They are the whole catalogue when the request is near square or no entry has its orientation. Otherwise they are exactly the entries of the request's orientation, in catalogue order. |
| Stability.MinIndex | pipeline/providers/stability_api.py:37-40 | `min` with the key (ratio gap, L1 distance). No candidate has a smaller key, and every earlier candidate has a strictly larger one. |
| Stability.DimsIsFirstMinimum | pipeline/providers/stability_api.py:37-40 | The choice is the first candidate with the least (gap, distance) key. |
| Stability.FirstMinimumUnique | pipeline/providers/stability_api.py:37-40 | Only one index satisfies the first-minimum conditions, so the choice is determined. |
| Stability.DimsKeepOrientation | pipeline/providers/stability_api.py:26-36 | Outside the near-square band the orientation is preserved whenever the catalogue has an entry of that orientation. |
| Stability.SdxlDimsKeepsOrientation | pipeline/providers/stability_api.py:26-36 | For the SDXL catalogue, a request that is not near square gets a portrait size if it is portrait and a landscape size if it is landscape. |
| Stability.DimsFixEntries | pipeline/providers/stability_api.py:32-40 | A request equal to a catalogue entry is returned unchanged. |
| Stability.SdxlDimsFixesEntries | pipeline/providers/stability_api.py:19-41 | Every `_SDXL_V1_ALLOWED` entry maps to itself. |
| Stability.HttpErrorsAreFailedStatuses | pipeline/providers/stability_api.py:45-109 | The v2beta helpers raise HTTPError only for 4xx/5xx statuses. The v1 helper raises RuntimeError instead (line 63). |
| Stability.Generate | pipeline/providers/stability_api.py:113-155 | Produces the result and the list of requests given by `Attempt` under either reading of the except clauses: key check, host, engine, prompt, canvas snap, then the chain. |
| Stability.FollowChain | pipeline/providers/stability_api.py:130-155 | The SDXL route with its resize to the target, or JSON then multipart then v1, each step sending one request and moving on only when its except clause lets the failure through. |
| StabilityFacts.NearSquareCross | pipeline/providers/stability_api.py:35 | `abs(w/h - 1) < 1e-3` over exact rationals holds exactly when 1000·\|w−h\| < h. |
| StabilityFacts.MissingKeyAborts | pipeline/providers/stability_api.py:119-121 | Without a truthy key from the environment or the params, nothing is sent and the key error is raised. |
| StabilityFacts.ChainOrder | pipeline/providers/stability_api.py:130-155 | The chain's requests follow one of the known route orders. |
| StabilityFacts.CallOrder | pipeline/providers/stability_api.py:113-155 | The requests go out in one of five orders: none, v1, JSON, JSON then multipart, or JSON then multipart then v1. |
| StabilityFacts.SdxlEngineRoute | pipeline/providers/stability_api.py:131-136 | An engine starting with `stable-diffusion-xl-` or `sdxl` sends exactly one v1 request, to the v1 URL, at the catalogue size for the canvas. A success comes back at exactly the requested size. |
| StabilityFacts.IntendedChain | pipeline/providers/stability_api.py:139-155 | JSON advances exactly on HTTP 404/415, and multipart advances exactly on HTTP 404. The result is the outcome of the last request sent. |
| StabilityFacts.ChainCallsAgree | pipeline/providers/stability_api.py:126-155 | Every request carries the same key and prompt. The v2beta requests use the snapped canvas and the URL `{host}/v2beta/stable-image/generate/{engine}`. The v1 requests use the catalogue size and the fixed v1 URL. |
| StabilityFacts.V1RequestsUseCatalogue | pipeline/providers/stability_api.py:128-133 | Through `generate`, every v1 request is sent at the `_sdxl_dims_whitelist` entry for the snapped canvas, which is an entry of `_SDXL_V1_ALLOWED`. |
| StabilityFacts.V2SuccessKeepsNativeSize | pipeline/providers/stability_api.py:139-140 | A v2beta JSON success is returned at the server's size, not resized to the target. |
| StabilityFacts.AsWrittenCallOrder | pipeline/providers/stability_api.py:119-144 | As written, `generate` sends at most one request: none, one v1 request, or one JSON request. |
| StabilityFacts.AsWrittenNeverAdvances | pipeline/providers/stability_api.py:141-144 | As written, every JSON failure propagates and multipart is never tried. |
| StabilityFacts.JsonNotFoundCounterexample | pipeline/providers/stability_api.py:139-152 | Take a server that answers 404 to JSON and succeeds on multipart. The code as written fails after one request; the intended reading succeeds after two. |
| Prompt.DefaultPrompt | pipeline/providers/stability_api.py:8-10 | Without a truthy template the prompt is "<name>: <hint>, studio lighting, product photography, high detail". |
| Prompt.FormatNameHint | pipeline/providers/stability_api.py:9-10 | A template "{name}: {hint}" followed by brace-free text formats to the name, ": ", the hint and that text. |
| Prompt.FormatLiteral | pipeline/providers/stability_api.py:10 | Brace-free template text is copied through unchanged. |
| Prompt.FormatName | pipeline/providers/stability_api.py:10 | A `{name}` field is replaced by the product name. |
| Prompt.FormatHint | pipeline/providers/stability_api.py:10 | A `{hint}` field is replaced by the hint. |
| Prompt.FormatEscape | pipeline/providers/stability_api.py:10 | A text with every brace doubled formats back to itself, whatever the name and hint. |
| SdxlDiffusers.MissingDepsFailFirst | pipeline/providers/sdxl_diffusers.py:11-27 | Without diffusers/torch the RuntimeError message is the fixed prefix plus the import error, whatever the parameters. |
| SdxlDiffusers.DefaultPromptReachesPipe | pipeline/providers/sdxl_diffusers.py:19-46 | Without a template, the pipeline gets the default prompt at exactly (w, h), and its result is returned. |
| Firefly.Stub | pipeline/providers/firefly_api.py:12-21 | Fails exactly when both keys are falsy, and then with the missing-key RuntimeError. Otherwise the result is the (w, h) placeholder plus a blue "Firefly (stub)" label at (10, 10). |
| Firefly.Generate | pipeline/providers/firefly_api.py:12-21 | Drawing on the canvas in place gives exactly `Stub`. |
| Placeholder.StripeRange | pipeline/fallback_placeholder.py:5 | The k-th stripe exists exactly when 20·k < max(w, h). |
| Placeholder.StripeShade | pipeline/fallback_placeholder.py:6 | Stripe shades alternate between 200 and 220 and are grey. |
| Placeholder.FallbackLayout | pipeline/fallback_placeholder.py:3-10 | The layout, command by command: background (240,240,240), orientation-dependent stripes, the black label box, the first 22 characters of the name in white at (30, 50), and, only when the hint is non-empty, its first 48 characters in (80,80,80) at (20, h−40). |
| Placeholder.GenerateFallback | pipeline/fallback_placeholder.py:3-10 | The loop's drawing on a fresh canvas equals `Fallback(w, h, name, hint)`. |
| Adapters.ChooseProvider | pipeline/adapters.py:18-23 | The result is always one of the four known providers. |
| Adapters.ExplicitNameWins | pipeline/adapters.py:20-23 | A non-empty explicit name decides alone, even when unrecognised (it then gives "placeholder"). |
| Adapters.EnvironmentThenDefault | pipeline/adapters.py:20 | Without a name GEN_PROVIDER is used; with neither, "placeholder". |
| Adapters.RecognisedAnyCase | pipeline/adapters.py:20-22 | A name is recognised whatever its case and surrounding whitespace. |
| Adapters.NormaliseShortens | pipeline/adapters.py:20 | strip().lower() never makes a name longer. |
| Adapters.KnownAreNormal | pipeline/adapters.py:20-21 | The known names are fixed points of strip().lower(). |
| Adapters.ChooseIdempotent | pipeline/adapters.py:18-23 | Resolving an already resolved name gives it back. |
| Adapters.DispatchRoutes | pipeline/adapters.py:25-38 | Each known name reaches its own provider, which depends only on what it reads. Any other string reaches the placeholder. |
| Adapters.OnlyStabilityCalls | pipeline/adapters.py:29-38 | Only the Stability route sends requests. |
| Adapters.GenerateWithProvider | pipeline/adapters.py:25-38 | The if/elif chain gives exactly `Dispatch`, for either reading of the Stability provider's except clauses. |
| Generators.GenerateImage | pipeline/generators.py:10-42 | Returns the provider's image, or the annotated placeholder. Never fails. Also returns the requests the provider sent. |
| Generators.FailureIsAnnotatedPlaceholder | pipeline/generators.py:35-42 | On failure the result is the (w, h) placeholder plus red text "{provider} failed: {e}" at (10, 10). |
| Generators.SuccessIsUntouched | pipeline/generators.py:31-34 | A provider's image is returned unchanged. |
| Generators.NoneIsEmptyParams | pipeline/generators.py:33 | `params=None` behaves as `{}`. |
| Generators.PlaceholderProvider | pipeline/generators.py:30-34 | The placeholder provider's output is exactly the placeholder. |
| Generators.LocalImagesHaveRequestedSize | pipeline/generators.py:27-42 | The placeholder, the Firefly stub and every failure produce exactly (w, h). |
| Generators.AsWrittenStabilityFailure | pipeline/generators.py:30-42 | With the Stability provider as the code runs, at most one request is sent, and a failure such as a JSON 404 gives the placeholder annotated "stability failed: …". |
| LegalChecks.Tokens | pipeline/legal_checks.py:15 | Every token is a non-empty run of `[A-Za-z0-9']`. |
| LegalChecks.TokensSeparated | pipeline/legal_checks.py:15 | No token spans a non-token character. |
| LegalChecks.TokensOfRun | pipeline/legal_checks.py:15 | A non-empty run of token characters is exactly one token. |
| LegalChecks.TokensCoverKept | pipeline/legal_checks.py:15 | The tokens, concatenated, are precisely the message's token characters. |
| LegalChecks.MatchIsInstance | pipeline/legal_checks.py:12-17 | The anchored case-insensitive glob matches exactly the texts that equal the pattern, up to case, with its stars filled in. |
| LegalChecks.InstanceMatches | pipeline/legal_checks.py:12-17 | Every instance of a pattern matches it. |
| LegalChecks.MatchFills | pipeline/legal_checks.py:12-17 | A match yields the texts its stars stand for. |
| LegalChecks.StarFreeMatch | pipeline/legal_checks.py:12-17 | A pattern without '*' matches exactly the case-insensitively equal tokens. |
| LegalChecks.StarMatchesAll | pipeline/legal_checks.py:12 | "*" matches every token. |
| LegalChecks.MatchIgnoresCase | pipeline/legal_checks.py:12 | The text's letter case never matters. |
| LegalChecks.SeparatorNeverMatches | pipeline/legal_checks.py:12-17 | A pattern with a space or other non-token character other than '*' (such as "best price") can never flag. |
| LegalChecks.RunLegalChecks | pipeline/legal_checks.py:8-20 | The loop with its inner `break` returns exactly one flag per pattern that matches a token, in pattern order. |
| LegalChecks.LegalFlagsAppend | pipeline/legal_checks.py:10-19 | Checking a list of patterns is checking its parts in turn. |
| LegalChecks.LegalFlagsBound | pipeline/legal_checks.py:10-19 | At most one flag per pattern, and none without patterns. |
| LegalChecks.LegalFlagsSingle | pipeline/legal_checks.py:16-19 | One pattern flags "prohibited:{pat}" exactly when it matches some token. |
| LegalChecks.LegalFlagsSound | pipeline/legal_checks.py:10-19 | Every flag names a listed pattern that matches some token. |
| BrandChecks.HexRoundTrip | pipeline/brand_checks.py:11-13 | Parsing "#RRGGBB" gives back the colour. |
| BrandChecks.HashIsOptional | pipeline/brand_checks.py:12 | Leading '#'s are ignored. |
| BrandChecks.HexToRgbRange | pipeline/brand_checks.py:11-13 | Every parsed channel lies in −15..255: `int(x, 16)` accepts a sign. |
| BrandChecks.ShortChunkRange | pipeline/brand_checks.py:13 | A chunk of at most two characters parses into −15..255. |
| BrandChecks.SignedChunk | pipeline/brand_checks.py:13 | A signed one-digit chunk such as "-f" parses to a negative channel. |
| BrandChecks.ColourNameRejected | pipeline/brand_checks.py:11-13 | A colour name such as "red" does not parse: `int("re", 16)` raises ValueError. |
| BrandChecks.ParseHex2 | pipeline/brand_checks.py:13 | Two hex digits parse to their value. |
| BrandChecks.FixedFlagsMeaning | pipeline/brand_checks.py:34-39 | The accent and logo flags are each present exactly when their check fails. Neither is a size flag, and accent comes before logo. |
| BrandChecks.SizeThenFixed | pipeline/brand_checks.py:20-39 | At most one size flag followed by the accent and logo flags keeps each flag's meaning and the order size, accent, logo. |
| BrandChecks.BrandFlagsMeaning | pipeline/brand_checks.py:16-41 | Each flag is present exactly when its check fails. They come in the order size, accent, logo, so there are at most three. |
| BrandChecks.SearchAccent | pipeline/brand_checks.py:25-33 | The nested sampling loops with breaks find a hit exactly when some pixel on the max(1, n//20) grid is within 30 of the accent in every channel. |
| BrandChecks.ScanColumn | pipeline/brand_checks.py:28-32 | The inner loop finds a hit exactly when some sampled row of the column is close. |
| BrandChecks.SeenByColumns | pipeline/brand_checks.py:27-33 | Searching column by column inspects exactly the sampling grid. |
| BrandChecks.ColumnStep | pipeline/brand_checks.py:28 | One stride down a column adds exactly the row it lands on. |
| BrandChecks.RowStep | pipeline/brand_checks.py:27 | One stride across adds exactly the column it lands on. |
| BrandChecks.AccentHex | pipeline/brand_checks.py:24 | The palette's "accent_hex", else "#FFD700". |
| BrandChecks.CollectFlags | pipeline/brand_checks.py:20-39 | The appended flags are exactly `BrandFlags` of the size, the search result and the logo flag. |
| BrandChecks.RunBrandChecks | pipeline/brand_checks.py:15-41 | ValueError (None) exactly when the accent does not parse. Otherwise the flags are those of `BrandFlags`. |
| App.LangKey | app.py:85-88 | "de"/"germany" give "de" and "jp"/"japan" give "ja", in any case. Everything else gives "en", in both directions. |
| App.LangKeyIgnoresCase | app.py:86 | Only the lower-cased market matters. |
| App.MessageFor | app.py:90 | messages[lang], else messages["en"], else "". |
| App.Resolve | app.py:51-59 | The brief's defaults: no products, all three ratios, market "US", message {"en": "Hello World"}, and the palette with accent "#FFD700". |
| App.GuardBeforeAnyJob | app.py:61-62 | A brief with fewer than two products aborts before any creative is produced. |
| App.RunCampaign | app.py:49-146 | main() on a brief produces exactly the plan `Campaign`. |
| App.RunGuarded | app.py:61-146 | The guard, then the loops: exactly `Guarded`. |
| App.ProductLoop | app.py:70-146 | The outer loop gives the rows of `ProductJobs`, stopping at a product without "id". When the accent does not parse and some row would be produced, it stops at the first row and leaves no row. |
| App.RatioLoop | app.py:76-83 | The middle loop skips ratios not in ASPECT_MAP. It fails exactly when the accent does not parse and the loop reaches a row, and then leaves no row. |
| App.MarketLoop | app.py:83-134 | One row per market, in order, with its language, message, file name, source label and legal flags. It fails at the first row exactly when the accent does not parse and there is a market. |
| App.ProductAbortSticks | app.py:70-71 | After a product without an id, later products add nothing. |
| App.MarketJobsShape | app.py:81-121 | One row per market, in market order. Each row has the ratio's exact ASPECT_MAP size, its market's language and the file name "{pid}_{ar}_{market}.png". |
| App.RatioJobsShape | app.py:76-83 | A product yields known-ratio-count × market-count rows, each at an ASPECT_MAP size of a listed ratio. |
| App.UnknownRatioSkipped | app.py:77-79 | A ratio missing from ASPECT_MAP adds no row. |
| App.ProductJobsCount | app.py:70-83 | When every product has an id, the product loop yields exactly products × known ratios × markets rows and no KeyError stop. |
| App.GuardedCount | app.py:61-146 | With two or more products, all with ids, and an accent that parses, main() stops normally after exactly products × known ratios × markets rows. |
| App.BadAccentWritesNothing | app.py:127-134 | An accent that does not parse writes no row. main() then stops with the ValueError exactly when a parsable accent would have produced a row, and otherwise ends as it would have. |
| App.NamedAccentWritesNothing | app.py:57 | A brief whose palette gives the accent as "red" reports no row. |
| App.OutputNameRoundTrip | app.py:121 | The file name ends in ".png", and its stem splits on '_' back into id, ratio and market when id and market contain no '_'. |
| App.SourceLabelMeaning | app.py:102-110 | "provided_asset" exactly when the input image is set and exists. Otherwise "generated:" plus the provider, or "auto". |
| App.JoinFlagsRoundTrip | app.py:142-143 | An empty flag list gives "". Otherwise the "\|"-joined text splits back into the list when no flag contains '\|'. |

## Left out

- HTTP transport is left out: headers, timeouts, payload dictionaries, JSON and base64 decoding. A `Server` function supplies a reply (a status, a text, and a parsed payload or its absence) for each request.
- The request parameters `steps`, `guidance_scale` and `seed` are left out: they only fill payloads.
- Stability.Reading: the Stability provider, `Adapters.Dispatch`, `Generators.GenerateImage` and `Generators.Outcome` take the reading of the except clauses as a parameter. `AsWritten` is the code as it runs (see "## Findings"); `Intended` is the corrected chain.
- Stability.Chain: the final v1 fallback after multipart is 404 is reconstructed from the docstring (lines 116-117) and the comment on line 154, because line 155 is cut off.
- StabilityFacts.V2SuccessKeepsNativeSize: the v2beta success paths (pipeline/providers/stability_api.py:140 and :148) return the server's image without resizing it, although `generate_image` documents its result as "of size (w,h)" (pipeline/generators.py:27-28). The model follows the code. Generators.LocalImagesHaveRequestedSize therefore promises the requested size only for the placeholder, the Firefly stub and failures.
- Floating point is left out: `w / h` and the ratio gaps are exact rationals, and `1e-3` is the rational 1/1000.
- Stability.SdxlDims: no lemma names the sizes chosen for concrete presets such as 1080×1920. Unfolding the literal catalogue makes the verifier too slow, so only the general properties are proved.
- Prompt.TemplateRejected: a template that `str.format` rejects fails with one fixed message. Python's message depends on the template, e.g. `KeyError: 'product'` for a `{product}` field, and it is that text that appears in the placeholder annotation.
- Prompt.Format models only the fields `{name}` and `{hint}` and the escapes `{{` and `}}`. Any other replacement field, conversion or format spec counts as rejected by `str.format`.
- Text is ASCII only: `strip`, `lower` and `isspace` have no Unicode whitespace or case mapping.
- LegalChecks.Match treats regex metacharacters in a pattern literally. Only `*` is special.
- BrandChecks.ParseHex: `int(x, 16)` is modelled without "0x" prefixes and digit underscores, since neither fits in the two-character chunks passed to it.
- BrandChecks.RunBrandChecks parses the accent before comparing sizes. The source does it the other way round, but a parse error discards the flags, so the outcome is the same.
- Image decoding (`Image.open`) is left out: pixels are a two-dimensional array given as input, and `getpixel(...)[:3]` is an `Rgb`.
- Pillow's validation of drawing arguments is not modelled, e.g. a rectangle with x1 < x0 when w < 40.
- Rasterisation and fonts are left out: images are a size plus draw commands, or a decoded-image marker.
- SDXL inference, model loading and device selection are left out. The pipeline is a function in `Backend.Installed`.
- `load_brief` (YAML/JSON), `os.makedirs`, image open/save, printing and `sys.argv` handling are left out.
- `pipeline/layout.py` (`render_creative`) is not part of this model. The rows therefore carry no brand flags, because those are computed on the composed file.
- App.RunGuarded: `render_creative` hands the accent string to Pillow as a text colour (pipeline/layout.py:22-31). Pillow's colour parsing is not modelled. It can raise on the first row for accents that `_hex_to_rgb` accepts, e.g. "#12345". The model stops only on accents that `_hex_to_rgb` rejects.
- App.RunCampaign parses the accent once, before the loops, and the loops test the result at each row. `run_brand_checks` parses the same palette entry on every row, so the outcome is the same.
- `pipeline/reporting.py` is not part of this model. The CSV report is written as rows: the `|`-joined flags are `JoinFlags`.
- App.SourceLabel: `os.path.exists` is the function parameter `fileExists`.
- Environment variables are the explicit `Env` record instead of `os.environ`.
- Product fields present with a value of the wrong type are left out: the brief is taken as typed, and a missing key is `None`.

## Findings

| source | as written | input that shows it | evidently intended | confidence | as-written member | corrected member |
|---|---|---|---|---|---|---|
| pipeline/providers/stability_api.py:142-150 | `code` is read from `getattr(e, "response", None)` only when that response is truthy. A `requests` response is falsy for any 4xx/5xx status, which is the only case in which these HTTPErrors are raised, so `code` is always `None` and every v2beta JSON error propagates. | A server that answers the JSON request with 404 and the multipart request with an image: the run fails with HTTPError 404 after one request. | Fall back to multipart on a JSON 404/415, and to v1 on a multipart 404, using the response's status code. | not executed | StabilityFacts.AsWrittenNeverAdvances | StabilityFacts.IntendedChain |
