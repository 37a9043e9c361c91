/** The never-fail wrapper the app calls (pipeline/generators.py): resolve
    the provider once, call it, and turn any failure into the local
    placeholder with the reason written on it in red. */
module Generators {
  import opened Wrappers
  import opened Context
  import opened Imaging
  import Placeholder
  import Stability
  import Adapters
  import StabilityFacts

  const FailureInk := Rgb(255, 0, 0)

  /** d.text((10, 10), f"{provider} failed: {e}", fill=(255, 0, 0)) */
  function Annotation(provider: string, e: Failure): DrawCmd {
    Text(10, 10, provider + " failed: " + e.message, FailureInk)
  }

  /** The provider's image, or the annotated placeholder when it raised. */
  function Outcome(w: int, h: int, name: string, hint: string, providerName: Option<string>,
                   params: Option<Params>, world: Adapters.World, reading: Stability.Reading): Picture
  {
    var provider := Adapters.ChooseProvider(providerName, world.env);
    var run := Adapters.Dispatch(provider, w, h, name, hint, params.GetOr(NoParams), world, reading);
    if run.result.Ok? then run.result.value
    else Overlay(Placeholder.Fallback(w, h, name, hint), Annotation(provider, run.result.error))
  }

  /** generate_image(w, h, product_name, hint, provider_name, params): returns
      the image and the requests the provider sent; never fails. `reading`
      is how the Stability provider's except clauses read a status code. */
  method GenerateImage(w: int, h: int, name: string, hint: string, providerName: Option<string>,
                       params: Option<Params>, world: Adapters.World, reading: Stability.Reading)
    returns (img: Picture, calls: seq<Stability.Call>)
    ensures img == Outcome(w, h, name, hint, providerName, params, world, reading)
    ensures calls == Adapters.Dispatch(Adapters.ChooseProvider(providerName, world.env), w, h, name, hint,
                                       params.GetOr(NoParams), world, reading).calls
  {
    var provider := Adapters.ChooseProvider(providerName, world.env);
    var result;
    result, calls := Adapters.GenerateWithProvider(provider, w, h, name, hint, params.GetOr(NoParams), world, reading);
    if result.Ok? {
      return result.value, calls;
    }
    var canvas := Placeholder.GenerateFallback(w, h, name, hint);
    canvas.DrawText(10, 10, provider + " failed: " + result.error.message, FailureInk);
    img := canvas.Snapshot();
  }

  /** A provider failure yields the placeholder for (w, h) with one more
      command: red text at (10, 10) naming the resolved provider and the
      exception's message. */
  lemma FailureIsAnnotatedPlaceholder(w: int, h: int, name: string, hint: string, providerName: Option<string>,
                                      params: Option<Params>, world: Adapters.World, reading: Stability.Reading)
    requires var provider := Adapters.ChooseProvider(providerName, world.env);
      Adapters.Dispatch(provider, w, h, name, hint, params.GetOr(NoParams), world, reading).result.Err?
    ensures var provider := Adapters.ChooseProvider(providerName, world.env);
      var e := Adapters.Dispatch(provider, w, h, name, hint, params.GetOr(NoParams), world, reading).result.error;
      var img := Outcome(w, h, name, hint, providerName, params, world, reading);
      && img.width == w && img.height == h
      && img.body == Drawn(Rgb(240, 240, 240), Placeholder.Fallback(w, h, name, hint).body.cmds
                                              + [Text(10, 10, provider + " failed: " + e.message, Rgb(255, 0, 0))])
      && provider in Adapters.Known
  {
  }

  /** A provider's image is handed back untouched. */
  lemma SuccessIsUntouched(w: int, h: int, name: string, hint: string, providerName: Option<string>,
                           params: Option<Params>, world: Adapters.World, reading: Stability.Reading)
    requires var provider := Adapters.ChooseProvider(providerName, world.env);
      Adapters.Dispatch(provider, w, h, name, hint, params.GetOr(NoParams), world, reading).result.Ok?
    ensures var provider := Adapters.ChooseProvider(providerName, world.env);
      Outcome(w, h, name, hint, providerName, params, world, reading)
      == Adapters.Dispatch(provider, w, h, name, hint, params.GetOr(NoParams), world, reading).result.value
  {
  }

  /** params=None behaves as the empty mapping. */
  lemma NoneIsEmptyParams(w: int, h: int, name: string, hint: string, providerName: Option<string>,
                          world: Adapters.World, reading: Stability.Reading)
    ensures Outcome(w, h, name, hint, providerName, None, world, reading) == Outcome(w, h, name, hint, providerName, Some(NoParams), world, reading)
  {
  }

  /** The placeholder provider never fails: the image is exactly the placeholder. */
  lemma PlaceholderProvider(w: int, h: int, name: string, hint: string, providerName: Option<string>,
                            params: Option<Params>, world: Adapters.World, reading: Stability.Reading)
    requires Adapters.ChooseProvider(providerName, world.env) == "placeholder"
    ensures Outcome(w, h, name, hint, providerName, params, world, reading) == Placeholder.Fallback(w, h, name, hint)
  {
  }

  /** Every image produced by a local path (the placeholder, the Firefly
      stub and every failure) has exactly the requested size. */
  lemma LocalImagesHaveRequestedSize(w: int, h: int, name: string, hint: string, providerName: Option<string>,
                                     params: Option<Params>, world: Adapters.World, reading: Stability.Reading)
    requires Adapters.ChooseProvider(providerName, world.env) in {"firefly", "placeholder"}
          || Adapters.Dispatch(Adapters.ChooseProvider(providerName, world.env), w, h, name, hint,
                               params.GetOr(NoParams), world, reading).result.Err?
    ensures Outcome(w, h, name, hint, providerName, params, world, reading).width == w
    ensures Outcome(w, h, name, hint, providerName, params, world, reading).height == h
  {
  }

  /** The Stability provider as the code runs it: at most one request is
      sent (multipart is never reached), and a failed request, such as a JSON
      404, yields the placeholder annotated "stability failed: ...". */
  lemma AsWrittenStabilityFailure(w: int, h: int, name: string, hint: string, providerName: Option<string>,
                                  params: Option<Params>, world: Adapters.World)
    requires Adapters.ChooseProvider(providerName, world.env) == "stability"
    ensures var run := Adapters.Dispatch("stability", w, h, name, hint, params.GetOr(NoParams), world, Stability.AsWritten);
      var routes := StabilityFacts.Routes(run.calls);
      && (routes == [] || routes == [Stability.V1Sdxl] || routes == [Stability.V2Json])
      && (run.result.Err? ==> Outcome(w, h, name, hint, providerName, params, world, Stability.AsWritten)
                              == Overlay(Placeholder.Fallback(w, h, name, hint), Annotation("stability", run.result.error)))
  {
    StabilityFacts.AsWrittenCallOrder(w, h, name, hint, params.GetOr(NoParams), world.env, world.server);
  }
}
