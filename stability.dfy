/** The Stability provider (pipeline/providers/stability_api.py): size
    negotiation against the SDXL v1 catalogue, and the fallback chain of wire
    variants v1 SDXL, v2beta JSON and v2beta multipart. The HTTP transport is a
    function `Server` from the request the code would send to the reply it
    gets back; the model records every request in order. */
module Stability {
  import opened Wrappers
  import opened Strings
  import opened Context
  import opened Imaging
  import Prompt

  datatype Size = Size(w: int, h: int)

  // ------------------------------------------------------------ canvas

  /** max(256, (x // 8) * 8) */
  function SnapDown(x: int): int {
    var m := (x / 8) * 8;
    if m >= 256 then m else 256
  }

  /** _ensure_canvas(w, h): each side snapped down to a multiple of 8, never below 256. */
  function EnsureCanvas(w: int, h: int): (r: Size)
    ensures r.w % 8 == 0 && r.h % 8 == 0
    ensures r.w >= 256 && r.h >= 256
    ensures w >= 256 ==> r.w <= w && w - r.w < 8
    ensures h >= 256 ==> r.h <= h && h - r.h < 8
    ensures w < 256 ==> r.w == 256
    ensures h < 256 ==> r.h == 256
  {
    Size(SnapDown(w), SnapDown(h))
  }

  // ------------------------------------------------------------ SDXL v1 catalogue

  /** _SDXL_V1_ALLOWED, in list order. */
  const SdxlV1Allowed: seq<Size> := [
    Size(1024, 1024),
    Size(1152, 896), Size(1216, 832), Size(1344, 768), Size(1536, 640),
    Size(640, 1536), Size(768, 1344), Size(832, 1216), Size(896, 1152)
  ]

  const DefaultSquare := Size(1024, 1024)

  predicate Landscape(s: Size) {
    s.w >= s.h
  }

  predicate PositiveHeights(c: seq<Size>) {
    forall i :: 0 <= i < |c| ==> c[i].h > 0
  }

  function Abs(x: real): real { if x < 0.0 then -x else x }
  function IntAbs(x: int): int { if x < 0 then -x else x }

  function Ratio(s: Size): real
    requires s.h > 0
  {
    s.w as real / s.h as real
  }

  /** abs(W / H - target_ratio), over exact rationals. */
  function Gap(e: Size, target: real): real
    requires e.h > 0
  {
    Abs(Ratio(e) - target)
  }

  /** abs(W - w) + abs(H - h) */
  function Dist(e: Size, w: int, h: int): int {
    IntAbs(e.w - w) + IntAbs(e.h - h)
  }

  /** a's key (gap, distance) is lexicographically smaller than b's. */
  predicate Before(a: Size, b: Size, target: real, w: int, h: int)
    requires a.h > 0 && b.h > 0
  {
    Gap(a, target) < Gap(b, target) || (Gap(a, target) == Gap(b, target) && Dist(a, w, h) < Dist(b, w, h))
  }

  /** min(cands, key=...): Python keeps the first entry whose key no later
      entry beats strictly. */
  function MinIndex(cands: seq<Size>, target: real, w: int, h: int): (k: nat)
    requires |cands| > 0 && PositiveHeights(cands)
    ensures k < |cands|
    ensures forall i :: 0 <= i < |cands| ==> !Before(cands[i], cands[k], target, w, h)
    ensures forall i :: 0 <= i < k ==> Before(cands[k], cands[i], target, w, h)
    decreases |cands|
  {
    if |cands| == 1 then 0
    else
      var k := MinIndex(cands[..|cands| - 1], target, w, h);
      if Before(cands[|cands| - 1], cands[k], target, w, h) then |cands| - 1 else k
  }

  /** [(W, H) for (W, H) in c if (W >= H) == landscape]. The second
      component of the decreases clause is not needed for termination; it
      keeps the verifier from unrolling the filter over the literal catalogue
      wherever a request's size is symbolic. */
  function Oriented(c: seq<Size>, landscape: bool): (r: seq<Size>)
    ensures forall i :: 0 <= i < |r| ==> r[i] in c && Landscape(r[i]) == landscape
    ensures forall x :: x in c && Landscape(x) == landscape ==> x in r
    decreases |c|, landscape
  {
    if c == [] then []
    else (if Landscape(c[0]) == landscape then [c[0]] else []) + Oriented(c[1..], landscape)
  }

  /** abs(target_ratio - 1.0) < 1e-3 */
  predicate NearSquare(target: real) {
    Abs(target - 1.0) < 0.001
  }

  lemma CataloguePositive()
    ensures |SdxlV1Allowed| > 0 && PositiveHeights(SdxlV1Allowed)
    ensures DefaultSquare in SdxlV1Allowed
  {
  }

  /** The entries min() ranges over for a positive request: those of the
      request's orientation, or the whole catalogue when there are none or the
      request is near square. */
  function Candidates(cat: seq<Size>, w: int, h: int): (c: seq<Size>)
    requires |cat| > 0 && PositiveHeights(cat)
    requires w > 0 && h > 0
    ensures |c| > 0 && PositiveHeights(c)
    ensures forall i :: 0 <= i < |c| ==> c[i] in cat
    ensures NearSquare(w as real / h as real) ==> c == cat
    ensures (forall x :: x in cat ==> Landscape(x) != (w >= h)) ==> c == cat
    ensures !NearSquare(w as real / h as real) && (exists x :: x in cat && Landscape(x) == (w >= h))
            ==> c == Oriented(cat, w >= h)
  {
    var target := w as real / h as real;
    var oriented := Oriented(cat, w >= h);
    assert oriented != [] ==> oriented[0] in cat && Landscape(oriented[0]) == (w >= h);
    if oriented == [] || NearSquare(target) then cat else oriented
  }

  /** The filter keeps catalogue order: filtering a concatenation is
      concatenating the filtered parts. */
  lemma {:induction false} OrientedAppend(a: seq<Size>, b: seq<Size>, landscape: bool)
    ensures Oriented(a + b, landscape) == Oriented(a, landscape) + Oriented(b, landscape)
    decreases |a|
  {
    if a != [] {
      assert (a + b)[0] == a[0];
      assert (a + b)[1..] == a[1..] + b;
      OrientedAppend(a[1..], b, landscape);
    } else {
      assert a + b == b;
    }
  }

  /** A single entry survives the filter exactly when it has the orientation. */
  lemma OrientedSingle(x: Size, landscape: bool)
    ensures Oriented([x], landscape) == if Landscape(x) == landscape then [x] else []
  {
    assert [x][1..] == [];
  }

  /** _sdxl_dims_whitelist's body over a catalogue `cat`. */
  function DimsFrom(cat: seq<Size>, w: int, h: int): (r: Size)
    requires |cat| > 0 && PositiveHeights(cat)
    ensures w > 0 && h > 0 ==> r in cat
    ensures w <= 0 || h <= 0 ==> r == DefaultSquare
  {
    if w <= 0 || h <= 0 then DefaultSquare
    else
      var c := Candidates(cat, w, h);
      c[MinIndex(c, w as real / h as real, w, h)]
  }

  /** _sdxl_dims_whitelist(w, h): always an entry of _SDXL_V1_ALLOWED. */
  function SdxlDims(w: int, h: int): (r: Size)
    ensures r in SdxlV1Allowed
  {
    CataloguePositive();
    DimsFrom(SdxlV1Allowed, w, h)
  }

  /** The chosen entry has the least (gap, distance) key among the
      candidates, and every candidate before it has a strictly larger key:
      ties go to the earliest entry in catalogue order. */
  lemma DimsIsFirstMinimum(cat: seq<Size>, w: int, h: int)
    requires |cat| > 0 && PositiveHeights(cat)
    requires w > 0 && h > 0
    ensures var c := Candidates(cat, w, h); var t := w as real / h as real;
      exists k :: 0 <= k < |c| && DimsFrom(cat, w, h) == c[k]
        && (forall i :: 0 <= i < |c| ==> !Before(c[i], c[k], t, w, h))
        && (forall i :: 0 <= i < k ==> Before(c[k], c[i], t, w, h))
  {
    var c := Candidates(cat, w, h);
    var k := MinIndex(c, w as real / h as real, w, h);
    assert DimsFrom(cat, w, h) == c[k];
  }

  /** The first-minimum conditions pick out one index only. */
  lemma FirstMinimumUnique(c: seq<Size>, t: real, w: int, h: int, k1: nat, k2: nat)
    requires PositiveHeights(c) && k1 < |c| && k2 < |c|
    requires forall i :: 0 <= i < |c| ==> !Before(c[i], c[k1], t, w, h)
    requires forall i :: 0 <= i < k1 ==> Before(c[k1], c[i], t, w, h)
    requires forall i :: 0 <= i < |c| ==> !Before(c[i], c[k2], t, w, h)
    requires forall i :: 0 <= i < k2 ==> Before(c[k2], c[i], t, w, h)
    ensures k1 == k2
  {
    assert Before(c[k2], c[k1], t, w, h) || k2 <= k1;
    assert !Before(c[k2], c[k1], t, w, h);
    assert Before(c[k1], c[k2], t, w, h) || k1 <= k2;
    assert !Before(c[k1], c[k2], t, w, h);
  }

  /** Outside the near-square band the orientation is kept whenever the
      catalogue has an entry of the request's orientation. */
  lemma DimsKeepOrientation(cat: seq<Size>, w: int, h: int, sample: Size)
    requires |cat| > 0 && PositiveHeights(cat)
    requires w > 0 && h > 0
    requires !NearSquare(w as real / h as real)
    requires sample in cat && Landscape(sample) == (w >= h)
    ensures Landscape(DimsFrom(cat, w, h)) == (w >= h)
  {
    var oriented := Oriented(cat, w >= h);
    assert sample in oriented;
    assert Candidates(cat, w, h) == oriented;
    var c := Candidates(cat, w, h);
    var k := MinIndex(c, w as real / h as real, w, h);
    assert DimsFrom(cat, w, h) == c[k];
  }

  /** A request that is already an entry is returned unchanged: its key is
      (0, 0), and only the entry itself is at distance 0. */
  lemma DimsFixEntries(cat: seq<Size>, e: Size)
    requires |cat| > 0 && PositiveHeights(cat)
    requires e in cat && e.w > 0
    ensures DimsFrom(cat, e.w, e.h) == e
  {
    var c := Candidates(cat, e.w, e.h);
    var t := e.w as real / e.h as real;
    assert e in c by {
      var oriented := Oriented(cat, e.w >= e.h);
      assert e in oriented;
    }
    var k := MinIndex(c, t, e.w, e.h);
    var j :| 0 <= j < |c| && c[j] == e;
    assert !Before(c[j], c[k], t, e.w, e.h);
    assert Gap(e, t) == 0.0;
    assert Dist(e, e.w, e.h) == 0;
    assert DimsFrom(cat, e.w, e.h) == c[k];
  }

  /** For the SDXL catalogue: outside the near-square band a portrait
      request yields a portrait entry and a landscape one a landscape (or the
      square) entry. */
  lemma SdxlDimsKeepsOrientation(w: int, h: int)
    requires w > 0 && h > 0
    requires !NearSquare(w as real / h as real)
    ensures w < h ==> SdxlDims(w, h).w < SdxlDims(w, h).h
    ensures w >= h ==> SdxlDims(w, h).w >= SdxlDims(w, h).h
  {
    CataloguePositive();
    var sample := if w >= h then Size(1024, 1024) else Size(640, 1536);
    assert sample in SdxlV1Allowed;
    DimsKeepOrientation(SdxlV1Allowed, w, h, sample);
  }

  /** For the SDXL catalogue: every entry is its own best fit. */
  lemma SdxlDimsFixesEntries(e: Size)
    requires e in SdxlV1Allowed
    ensures SdxlDims(e.w, e.h) == e
  {
    CataloguePositive();
    DimsFixEntries(SdxlV1Allowed, e);
  }

  /** For the SDXL catalogue: a non-positive side gives (1024, 1024). */
  lemma SdxlDimsDefault(w: int, h: int)
    requires w <= 0 || h <= 0
    ensures SdxlDims(w, h) == Size(1024, 1024)
  {
    CataloguePositive();
  }

  // ------------------------------------------------------------ wire variants

  datatype Route = V1Sdxl | V2Json | V2Multipart

  /** One POST the provider sends: its variant, URL, bearer key, prompt and size. */
  datatype Call = Call(route: Route, url: string, apiKey: string, prompt: string, width: int, height: int)

  /** What a reply body yields once parsed: an image of some size, a JSON
      body without "image" / "images"[0]["image"], or bytes that do not decode. */
  datatype Payload = Image(width: int, height: int) | NoImage | Garbled(reason: string)

  /** An HTTP reply, or a transport failure (timeout, connection error). */
  datatype Reply = Response(status: int, text: string, payload: Payload) | NoResponse(reason: string)

  type Server = Call -> Reply

  /** One request and what the helper made of its reply. */
  datatype Step = Step(call: Call, outcome: Result<Picture, Failure>)

  /** requests' Response.ok: false exactly for 4xx and 5xx statuses. */
  predicate StatusOk(status: int) {
    !(400 <= status < 600)
  }

  const V1Path := "/v1/generation/stable-diffusion-xl-1024-v1-0/text-to-image"
  const V2Path := "/v2beta/stable-image/generate/"

  /** Image.open(...).convert("RGB") on a binary body. */
  function DecodeBinary(p: Payload, origin: string): Result<Picture, Failure> {
    match p
    case Image(w, h) => Ok(Picture(w, h, Decoded(origin, w, h)))
    case NoImage => Err(Failure(DecodeError, "cannot identify image file"))
    case Garbled(why) => Err(Failure(DecodeError, why))
  }

  /** _legacy_sdxl: a failed status becomes a RuntimeError, not an HTTPError. */
  function LegacySdxl(host: string, key: string, prompt: string, w: int, h: int, server: Server): Step {
    var call := Call(V1Sdxl, host + V1Path, key, prompt, w, h);
    var outcome :=
      match server(call)
      case NoResponse(why) => Err(Failure(TransportError, why))
      case Response(status, text, p) =>
        if !StatusOk(status) then Err(Failure(RuntimeError, "Stability v1 SDXL error: " + IntToString(status) + " " + text))
        else DecodeBinary(p, "stability-v1");
    Step(call, outcome)
  }

  /** _json_core: a failed status raises HTTPError; a body without an image raises RuntimeError. */
  function JsonCore(host: string, engine: string, key: string, prompt: string, w: int, h: int, server: Server): Step {
    var call := Call(V2Json, host + V2Path + engine, key, prompt, w, h);
    var outcome :=
      match server(call)
      case NoResponse(why) => Err(Failure(TransportError, why))
      case Response(status, text, p) =>
        if !StatusOk(status) then Err(Failure(HttpError(status), IntToString(status) + " " + text))
        else if p.NoImage? then Err(Failure(RuntimeError, "Stability API (json): no image in response."))
        else DecodeBinary(p, "stability-v2beta");
    Step(call, outcome)
  }

  /** _multipart_core: a failed status raises HTTPError. */
  function MultipartCore(host: string, engine: string, key: string, prompt: string, w: int, h: int, server: Server): Step {
    var call := Call(V2Multipart, host + V2Path + engine, key, prompt, w, h);
    var outcome :=
      match server(call)
      case NoResponse(why) => Err(Failure(TransportError, why))
      case Response(status, text, p) =>
        if !StatusOk(status) then Err(Failure(HttpError(status), IntToString(status) + " " + text))
        else DecodeBinary(p, "stability-v2beta");
    Step(call, outcome)
  }

  /** Only the v2beta helpers raise HTTPError, and only for a 4xx or 5xx status. */
  lemma HttpErrorsAreFailedStatuses(host: string, engine: string, key: string, prompt: string, w: int, h: int, server: Server)
    ensures var o := JsonCore(host, engine, key, prompt, w, h, server).outcome;
      o.Err? && o.error.kind.HttpError? ==> !StatusOk(o.error.kind.status)
    ensures var o := MultipartCore(host, engine, key, prompt, w, h, server).outcome;
      o.Err? && o.error.kind.HttpError? ==> !StatusOk(o.error.kind.status)
    ensures var o := LegacySdxl(host, key, prompt, w, h, server).outcome;
      o.Err? ==> !o.error.kind.HttpError?
  {
  }

  // ------------------------------------------------------------ the fallback chain

  /** How the except clauses read the status code off a caught HTTPError.
      AsWritten: `getattr(e, "response", None)` is tested for truthiness, and a
      requests Response is falsy when its status is 4xx or 5xx.
      Intended: the response's status code. */
  datatype Reading = AsWritten | Intended

  /** The `code` an except clause computes; None for exceptions it does not
      catch as well, since those propagate in either case. */
  function CaughtStatus(f: Failure, reading: Reading): Option<int> {
    if !f.kind.HttpError? then None
    else if reading == Intended || StatusOk(f.kind.status) then Some(f.kind.status)
    else None
  }

  /** `code not in (404, 415)` is false: the JSON failure moves on to multipart. */
  predicate JsonSkips(f: Failure, reading: Reading) {
    CaughtStatus(f, reading) == Some(404) || CaughtStatus(f, reading) == Some(415)
  }

  /** `code != 404` is false: the multipart failure moves on to v1. */
  predicate MultipartSkips(f: Failure, reading: Reading) {
    CaughtStatus(f, reading) == Some(404)
  }

  /** The outcome of generate and the requests it sent, in order. */
  datatype Run = Run(result: Result<Picture, Failure>, calls: seq<Call>)

  /** A successful image not of the target size is resized to it. */
  function FitTo(r: Result<Picture, Failure>, target: Size): Result<Picture, Failure> {
    if r.Ok? && (r.value.width != target.w || r.value.height != target.h)
    then Ok(Resize(r.value, target.w, target.h))
    else r
  }

  /** The v1 route: call at the catalogue size `dims`, resize to the target. */
  function V1Route(target: Size, dims: Size, host: string, key: string, prompt: string, server: Server): Run {
    var step := LegacySdxl(host, key, prompt, dims.w, dims.h, server);
    Run(FitTo(step.outcome, target), [step.call])
  }

  function StartsWith(s: string, p: string): bool {
    |p| <= |s| && s[..|p|] == p
  }

  predicate IsSdxlEngine(engine: string) {
    StartsWith(engine, "stable-diffusion-xl-") || StartsWith(engine, "sdxl")
  }

  /** Everything after the key check and the prompt: the route taken for the
      engine, then the classified fallback from JSON to multipart to v1. The
      last step is not in the listed source (line 155 is cut off); it follows
      the docstring and the comment before it. `dims` is the catalogue size
      for the snapped canvas, which generate computes on both v1 legs; the
      computation is pure, so taking it as an argument changes no outcome. */
  function Chain(target: Size, canvas: Size, dims: Size, host: string, engine: string, key: string, prompt: string,
                 server: Server, reading: Reading): Run
  {
    if IsSdxlEngine(engine) then V1Route(target, dims, host, key, prompt, server)
    else V2Chain(target, canvas, dims, host, engine, key, prompt, server, reading)
  }

  /** A v2beta engine: the JSON variant first, then, on a classified
      failure, the rest of the chain. */
  function V2Chain(target: Size, canvas: Size, dims: Size, host: string, engine: string, key: string, prompt: string,
                   server: Server, reading: Reading): Run
  {
    var json := JsonCore(host, engine, key, prompt, canvas.w, canvas.h, server);
    if json.outcome.Ok? || !JsonSkips(json.outcome.error, reading) then Run(json.outcome, [json.call])
    else AfterJson(json.call, target, canvas, dims, host, engine, key, prompt, server, reading)
  }

  /** After a JSON failure: the multipart variant, then v1 on a classified failure. */
  function AfterJson(first: Call, target: Size, canvas: Size, dims: Size, host: string, engine: string, key: string,
                     prompt: string, server: Server, reading: Reading): Run
  {
    var form := MultipartCore(host, engine, key, prompt, canvas.w, canvas.h, server);
    if form.outcome.Ok? || !MultipartSkips(form.outcome.error, reading) then Run(form.outcome, [first, form.call])
    else
      var last := V1Route(target, dims, host, key, prompt, server);
      Run(last.result, [first, form.call] + last.calls)
  }

  const MissingKey := Failure(RuntimeError, "Stability provider requested but STABILITY_API_KEY missing.")
  const DefaultHost := "https://api.stability.ai"
  const DefaultEngine := "stable-image-core"

  /** os.environ.get("STABILITY_API_KEY") or params.get("api_key") */
  function ApiKey(env: Env, params: Params): Option<string> {
    Or(env.stabilityKey, params.apiKey)
  }

  /** os.environ.get("STABILITY_API_HOST", default).rstrip("/") */
  function Host(env: Env): string {
    TrimEndChar(env.stabilityHost.GetOr(DefaultHost), '/')
  }

  /** os.environ.get("STABILITY_ENGINE", params.get("engine") or default):
      a set variable wins even when it is empty. */
  function Engine(env: Env, params: Params): string {
    match env.stabilityEngine
    case Some(e) => e
    case None => if Truthy(params.engine) then params.engine.value else DefaultEngine
  }

  /** generate(w, h, product_name, hint, params) under the given reading of
      the except clauses. */
  function Attempt(w: int, h: int, name: string, hint: string, params: Params, env: Env,
                   server: Server, reading: Reading): Run
  {
    var key := ApiKey(env, params);
    if !Truthy(key) then Run(Err(MissingKey), [])
    else
      match Prompt.BuildPrompt(name, hint, params)
      case Err(e) => Run(Err(e), [])
      case Ok(prompt) =>
        var canvas := EnsureCanvas(w, h);
        Chain(Size(w, h), canvas, SdxlDims(canvas.w, canvas.h), Host(env), Engine(env, params), key.value, prompt, server, reading)
  }

  /** generate(w, h, product_name, hint, params), step by step as the source
      runs it: the key check, host, engine and prompt, the canvas snap, then
      either the v1 route for an SDXL engine or the try/except chain JSON,
      multipart, v1. Each request is appended to `calls` as it is sent.
      `reading` says how the except clauses read the status code. */
  method Generate(w: int, h: int, name: string, hint: string, params: Params, env: Env, server: Server, reading: Reading)
    returns (result: Result<Picture, Failure>, calls: seq<Call>)
    ensures Run(result, calls) == Attempt(w, h, name, hint, params, env, server, reading)
  {
    calls := [];
    var apiKey := ApiKey(env, params);
    if !Truthy(apiKey) {
      return Err(MissingKey), calls;
    }
    var key := apiKey.value;
    var host := Host(env);
    var engine := Engine(env, params);
    var built := Prompt.BuildPrompt(name, hint, params);
    if built.Err? {
      return Err(built.error), calls;
    }
    var prompt := built.value;
    var target := Size(w, h);
    var canvas := EnsureCanvas(w, h);
    var dims := SdxlDims(canvas.w, canvas.h);
    result, calls := FollowChain(target, canvas, dims, host, engine, key, prompt, server, reading);
  }

  /** The try/except chain of generate after the canvas snap: the v1 route
      for an SDXL engine; otherwise JSON, then multipart, then v1, moving on
      only where an except clause lets the failure through. */
  method FollowChain(target: Size, canvas: Size, dims: Size, host: string, engine: string, key: string, prompt: string,
                     server: Server, reading: Reading)
    returns (result: Result<Picture, Failure>, calls: seq<Call>)
    ensures Run(result, calls) == Chain(target, canvas, dims, host, engine, key, prompt, server, reading)
  {
    calls := [];
    if !IsSdxlEngine(engine) {
      // v2beta JSON first
      var json := JsonCore(host, engine, key, prompt, canvas.w, canvas.h, server);
      calls := calls + [json.call];
      if json.outcome.Ok? || !JsonSkips(json.outcome.error, reading) {
        return json.outcome, calls;
      }
      // v2beta multipart
      var form := MultipartCore(host, engine, key, prompt, canvas.w, canvas.h, server);
      calls := calls + [form.call];
      if form.outcome.Ok? || !MultipartSkips(form.outcome.error, reading) {
        return form.outcome, calls;
      }
    }
    // the v1 route: an SDXL engine, or the final fallback
    var v1 := LegacySdxl(host, key, prompt, dims.w, dims.h, server);
    calls := calls + [v1.call];
    if v1.outcome.Err? {
      return v1.outcome, calls;
    }
    var img := v1.outcome.value;
    if img.width != target.w || img.height != target.h {
      img := Resize(img, target.w, target.h);
    }
    result := Ok(img);
  }
}

/** Properties of the Stability provider's size negotiation and fallback chain. */
module StabilityFacts {
  import opened Wrappers
  import opened Context
  import opened Imaging
  import opened Stability

  /** x * y has the sign of x when y is positive. */
  lemma SignOfProduct(x: real, y: real)
    requires y > 0.0
    ensures x < 0.0 ==> x * y < 0.0
    ensures x >= 0.0 ==> x * y >= 0.0
  {
  }

  /** The near-square test over rationals is the integer test 1000*|w-h| < h. */
  lemma NearSquareCross(w: int, h: int)
    requires h > 0
    ensures NearSquare(w as real / h as real) <==> 1000 * IntAbs(w - h) < h
  {
    var hr := h as real;
    var d := w as real / hr - 1.0;
    assert d * hr == (w - h) as real;
    SignOfProduct(d, hr);
    assert Abs(d) * hr == IntAbs(w - h) as real;
    var e := Abs(d) - 0.001;
    SignOfProduct(e, hr);
    assert e * hr == IntAbs(w - h) as real - 0.001 * hr;
  }

  function Routes(calls: seq<Call>): seq<Route> {
    seq(|calls|, i requires 0 <= i < |calls| => calls[i].route)
  }

  /** Without a key, nothing is sent and the key error is raised. */
  lemma MissingKeyAborts(w: int, h: int, name: string, hint: string, params: Params, env: Env,
                         server: Server, reading: Reading)
    requires !Truthy(env.stabilityKey) && !Truthy(params.apiKey)
    ensures Attempt(w, h, name, hint, params, env, server, reading) == Run(Err(MissingKey), [])
  {
  }

  predicate KnownOrder(r: seq<Route>) {
    r == [] || r == [V1Sdxl] || r == [V2Json] || r == [V2Json, V2Multipart]
    || r == [V2Json, V2Multipart, V1Sdxl]
  }

  lemma ChainOrder(target: Size, canvas: Size, dims: Size, host: string, engine: string, key: string,
                   prompt: string, server: Server, reading: Reading)
    ensures KnownOrder(Routes(Chain(target, canvas, dims, host, engine, key, prompt, server, reading).calls))
  {
    var v1 := V1Route(target, dims, host, key, prompt, server);
    assert Routes(v1.calls) == [V1Sdxl];
    if !IsSdxlEngine(engine) {
      var json := JsonCore(host, engine, key, prompt, canvas.w, canvas.h, server).call;
      var form := MultipartCore(host, engine, key, prompt, canvas.w, canvas.h, server).call;
      var tail := AfterJson(json, target, canvas, dims, host, engine, key, prompt, server, reading).calls;
      assert tail == [json, form] || tail == [json, form, v1.calls[0]];
      assert Routes(tail) == [V2Json, V2Multipart] || Routes(tail) == [V2Json, V2Multipart, V1Sdxl];
      assert Routes([json]) == [V2Json];
    }
  }

  /** The requests go out in one of five orders: none, v1 alone, JSON alone,
      JSON then multipart, or JSON, multipart, v1. */
  lemma CallOrder(w: int, h: int, name: string, hint: string, params: Params, env: Env,
                  server: Server, reading: Reading)
    ensures KnownOrder(Routes(Attempt(w, h, name, hint, params, env, server, reading).calls))
  {
    var key := ApiKey(env, params);
    if Truthy(key) {
      var built := Prompt.BuildPrompt(name, hint, params);
      if built.Ok? {
        var canvas := EnsureCanvas(w, h);
        ChainOrder(Size(w, h), canvas, SdxlDims(canvas.w, canvas.h), Host(env), Engine(env, params), key.value, built.value, server, reading);
      }
    }
  }

  /** An SDXL engine sends exactly one v1 request, at the catalogue size
      given for the snapped canvas, and a successful image comes back at
      exactly the requested size. */
  lemma SdxlEngineRoute(target: Size, canvas: Size, dims: Size, host: string, engine: string, key: string,
                        prompt: string, server: Server, reading: Reading)
    requires IsSdxlEngine(engine)
    ensures var run := Chain(target, canvas, dims, host, engine, key, prompt, server, reading);
      && |run.calls| == 1 && run.calls[0].route == V1Sdxl
      && run.calls[0].url == host + V1Path
      && Size(run.calls[0].width, run.calls[0].height) == dims
      && (run.result.Ok? ==> run.result.value.width == target.w && run.result.value.height == target.h)
  {
  }

  /** The fallback chain under the intended reading: JSON advances to
      multipart exactly on HTTP 404 or 415, multipart advances to v1 exactly
      on HTTP 404, and the result is the outcome of the last request sent
      (resized to the target on the v1 leg). */
  lemma IntendedChain(target: Size, canvas: Size, dims: Size, host: string, engine: string, key: string,
                      prompt: string, server: Server)
    requires !IsSdxlEngine(engine)
    ensures var run := Chain(target, canvas, dims, host, engine, key, prompt, server, Intended);
      var json := JsonCore(host, engine, key, prompt, canvas.w, canvas.h, server).outcome;
      var form := MultipartCore(host, engine, key, prompt, canvas.w, canvas.h, server).outcome;
      && (|run.calls| >= 2 <==> json.Err? && json.error.kind in {HttpError(404), HttpError(415)})
      && (|run.calls| == 3 <==> |run.calls| >= 2 && form.Err? && form.error.kind == HttpError(404))
      && (|run.calls| == 1 ==> run.result == json)
      && (|run.calls| == 2 ==> run.result == form)
      && (|run.calls| == 3 ==> run.result == V1Route(target, dims, host, key, prompt, server).result)
  {
  }

  /** A request carries the given key and prompt; a v2beta one the snapped
      canvas size and the engine's URL, a v1 one the catalogue size and the
      fixed v1 URL. */
  predicate CallAgrees(c: Call, canvas: Size, dims: Size, host: string, engine: string, key: string, prompt: string) {
    && c.apiKey == key && c.prompt == prompt
    && (c.route != V1Sdxl ==> c.width == canvas.w && c.height == canvas.h && c.url == host + V2Path + engine)
    && (c.route == V1Sdxl ==> c.width == dims.w && c.height == dims.h && c.url == host + V1Path)
  }

  /** Every request carries the same key and prompt, the v2beta ones the
      snapped canvas size and the v1 ones the catalogue size. */
  lemma ChainCallsAgree(target: Size, canvas: Size, dims: Size, host: string, engine: string, key: string,
                        prompt: string, server: Server, reading: Reading)
    ensures var calls := Chain(target, canvas, dims, host, engine, key, prompt, server, reading).calls;
      forall i :: 0 <= i < |calls| ==> CallAgrees(calls[i], canvas, dims, host, engine, key, prompt)
  {
    var v1 := V1Route(target, dims, host, key, prompt, server).calls;
    assert |v1| == 1 && CallAgrees(v1[0], canvas, dims, host, engine, key, prompt);
    if !IsSdxlEngine(engine) {
      var json := JsonCore(host, engine, key, prompt, canvas.w, canvas.h, server).call;
      var form := MultipartCore(host, engine, key, prompt, canvas.w, canvas.h, server).call;
      assert CallAgrees(json, canvas, dims, host, engine, key, prompt);
      assert CallAgrees(form, canvas, dims, host, engine, key, prompt);
      var tail := AfterJson(json, target, canvas, dims, host, engine, key, prompt, server, reading).calls;
      assert tail == [json, form] || tail == [json, form, v1[0]];
    }
  }

  /** Through generate, every v1 request is sent at the catalogue entry
      _sdxl_dims_whitelist picks for the snapped canvas. */
  lemma V1RequestsUseCatalogue(w: int, h: int, name: string, hint: string, params: Params, env: Env,
                               server: Server, reading: Reading)
    ensures var canvas := EnsureCanvas(w, h);
      var calls := Attempt(w, h, name, hint, params, env, server, reading).calls;
      forall i :: 0 <= i < |calls| && calls[i].route == V1Sdxl ==>
        && Size(calls[i].width, calls[i].height) == SdxlDims(canvas.w, canvas.h)
        && Size(calls[i].width, calls[i].height) in SdxlV1Allowed
  {
    var key := ApiKey(env, params);
    var canvas := EnsureCanvas(w, h);
    var dims := SdxlDims(canvas.w, canvas.h);
    if Truthy(key) {
      var built := Prompt.BuildPrompt(name, hint, params);
      if built.Ok? {
        ChainCallsAgree(Size(w, h), canvas, dims, Host(env), Engine(env, params), key.value, built.value, server, reading);
      }
    }
  }

  /** A v2beta success is returned at the size the server produced: unlike
      the v1 legs, nothing resizes it to the requested size. */
  lemma V2SuccessKeepsNativeSize(target: Size, canvas: Size, dims: Size, host: string, engine: string, key: string,
                                 prompt: string, server: Server, reading: Reading, status: int,
                                 text: string, a: int, b: int)
    requires !IsSdxlEngine(engine) && StatusOk(status)
    requires server(Call(V2Json, host + V2Path + engine, key, prompt, canvas.w, canvas.h))
             == Response(status, text, Image(a, b))
    ensures Chain(target, canvas, dims, host, engine, key, prompt, server, reading).result
            == Ok(Picture(a, b, Decoded("stability-v2beta", a, b)))
  {
  }

  /** As written, no HTTPError is ever classified as 404 or 415: the JSON
      variant's failure always propagates and multipart is never tried. */
  lemma AsWrittenNeverAdvances(target: Size, canvas: Size, dims: Size, host: string, engine: string, key: string,
                               prompt: string, server: Server)
    requires !IsSdxlEngine(engine)
    ensures var run := Chain(target, canvas, dims, host, engine, key, prompt, server, AsWritten);
      && Routes(run.calls) == [V2Json]
      && run.result == JsonCore(host, engine, key, prompt, canvas.w, canvas.h, server).outcome
  {
    var json := JsonCore(host, engine, key, prompt, canvas.w, canvas.h, server).outcome;
    HttpErrorsAreFailedStatuses(host, engine, key, prompt, canvas.w, canvas.h, server);
    assert json.Err? ==> !JsonSkips(json.error, AsWritten);
  }

  /** As written, generate sends at most one request: none when it stops
      before the chain, the v1 request for an SDXL engine, or the JSON
      request whose outcome it returns or raises. */
  lemma AsWrittenCallOrder(w: int, h: int, name: string, hint: string, params: Params, env: Env, server: Server)
    ensures var calls := Attempt(w, h, name, hint, params, env, server, AsWritten).calls;
      Routes(calls) == [] || Routes(calls) == [V1Sdxl] || Routes(calls) == [V2Json]
  {
    var key := ApiKey(env, params);
    if Truthy(key) {
      var built := Prompt.BuildPrompt(name, hint, params);
      if built.Ok? {
        var canvas := EnsureCanvas(w, h);
        var engine := Engine(env, params);
        var dims := SdxlDims(canvas.w, canvas.h);
        if IsSdxlEngine(engine) {
          assert Routes(V1Route(Size(w, h), dims, Host(env), key.value, built.value, server).calls) == [V1Sdxl];
        } else {
          AsWrittenNeverAdvances(Size(w, h), canvas, dims, Host(env), engine, key.value, built.value, server);
        }
      }
    }
  }

  /** A server that serves only the multipart variant (JSON replies 404). */
  function MultipartOnly(c: Call): Reply {
    if c.route == V2Json then Response(404, "Not Found", NoImage) else Response(200, "", Image(1024, 1024))
  }

  /** With that server the code as written gives up after the JSON 404,
      where the intended reading goes on to multipart and succeeds. */
  lemma JsonNotFoundCounterexample(target: Size, canvas: Size, dims: Size, host: string, key: string, prompt: string)
    ensures var run := Chain(target, canvas, dims, host, DefaultEngine, key, prompt, MultipartOnly, AsWritten);
      |run.calls| == 1 && run.result.Err? && run.result.error.kind == HttpError(404)
    ensures var run := Chain(target, canvas, dims, host, DefaultEngine, key, prompt, MultipartOnly, Intended);
      |run.calls| == 2 && run.result == Ok(Picture(1024, 1024, Decoded("stability-v2beta", 1024, 1024)))
  {
    assert DefaultEngine[1] == 't' && |DefaultEngine| < 20;
    assert !IsSdxlEngine(DefaultEngine);
  }
}
