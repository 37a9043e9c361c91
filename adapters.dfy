/** The provider dispatcher (pipeline/adapters.py): resolving which provider
    to use, and calling into it. */
module Adapters {
  import opened Wrappers
  import opened Strings
  import opened Context
  import opened Imaging
  import Placeholder
  import Stability
  import SdxlDiffusers
  import Firefly

  const Known: set<string> := {"sdxl", "stability", "firefly", "placeholder"}

  /** s.strip().lower() */
  function Normalise(s: string): string {
    Lower(Strip(s))
  }

  /** name or os.environ.get("GEN_PROVIDER") or "placeholder" */
  function Selected(name: Option<string>, env: Env): string {
    var pick := Or(name, Or(env.genProvider, Some("placeholder")));
    pick.GetOr("placeholder")
  }

  /** choose_provider(name): always one of the four known providers. */
  function ChooseProvider(name: Option<string>, env: Env): (r: string)
    ensures r in Known
  {
    var n := Normalise(Selected(name, env));
    if n in Known then n else "placeholder"
  }

  /** A word of lower-case letters is left alone by strip().lower(). */
  lemma LowerWordIsNormal(s: string)
    requires forall i :: 0 <= i < |s| ==> 'a' <= s[i] <= 'z'
    ensures Normalise(s) == s
  {
    assert s == [] || !IsSpace(s[0]);
    assert TrimStart(s) == s;
    assert s == [] || !IsSpace(s[|s| - 1]);
    assert TrimEnd(s) == s;
  }

  /** Every known name is already stripped and lower case. */
  lemma KnownAreNormal(k: string)
    requires k in Known
    ensures Normalise(k) == k
  {
    assert k == "sdxl" || k == "stability" || k == "firefly" || k == "placeholder";
    LowerWordIsNormal(k);
  }

  /** A non-empty explicit name decides alone: GEN_PROVIDER is not consulted,
      not even when the name is not recognised. */
  lemma ExplicitNameWins(name: string, env1: Env, env2: Env)
    requires name != ""
    ensures ChooseProvider(Some(name), env1) == ChooseProvider(Some(name), env2)
    ensures ChooseProvider(Some(name), env1) == if Normalise(name) in Known then Normalise(name) else "placeholder"
  {
  }

  /** Without an explicit name the environment variable is used, in the same
      way; with neither the result is "placeholder". */
  lemma EnvironmentThenDefault(name: Option<string>, env: Env)
    requires !Truthy(name)
    ensures Truthy(env.genProvider) ==> ChooseProvider(name, env) == ChooseProvider(env.genProvider, env)
    ensures !Truthy(env.genProvider) ==> ChooseProvider(name, env) == "placeholder"
  {
    KnownAreNormal("placeholder");
  }

  /** strip().lower() never lengthens a name. */
  lemma NormaliseShortens(s: string)
    ensures |Normalise(s)| <= |s|
  {
    assert |Normalise(s)| == |Strip(s)| <= |TrimStart(s)| <= |s|;
  }

  /** A name is recognised in any letter case and with surrounding whitespace. */
  lemma RecognisedAnyCase(name: string, env: Env)
    requires Normalise(name) in Known
    ensures ChooseProvider(Some(name), env) == Normalise(name)
  {
    NormaliseShortens(name);
    assert name != "" by { assert "" !in Known; }
    ExplicitNameWins(name, env, env);
  }

  /** Resolving a resolved name gives it back. */
  lemma ChooseIdempotent(name: Option<string>, env1: Env, env2: Env)
    ensures ChooseProvider(Some(ChooseProvider(name, env1)), env2) == ChooseProvider(name, env1)
  {
    var r := ChooseProvider(name, env1);
    KnownAreNormal(r);
    RecognisedAnyCase(r, env2);
  }

  /** What the dispatcher reaches: the environment, the HTTP server the
      Stability provider talks to, and the state of the local SDXL install. */
  datatype World = World(env: Env, server: Stability.Server, diffusers: SdxlDiffusers.Backend)

  /** generate_with_provider(provider, ...) as a value: the result and the
      requests sent on the way. `reading` is how the Stability provider's
      except clauses read a status code (Stability.Reading): AsWritten is the
      code as it runs, Intended the corrected chain. */
  function Dispatch(provider: string, w: int, h: int, name: string, hint: string, params: Params, world: World,
                    reading: Stability.Reading): Stability.Run {
    if provider == "sdxl" then Stability.Run(SdxlDiffusers.Generate(w, h, name, hint, params, world.diffusers), [])
    else if provider == "stability" then Stability.Attempt(w, h, name, hint, params, world.env, world.server, reading)
    else if provider == "firefly" then Stability.Run(Firefly.Stub(w, h, name, hint, params, world.env), [])
    else Stability.Run(Ok(Placeholder.Fallback(w, h, name, hint)), [])
  }

  /** Each known name reaches its own provider and only what that provider
      reads; every other string reaches the local placeholder. */
  lemma DispatchRoutes(w: int, h: int, name: string, hint: string, params: Params, world: World, other: World,
                       reading: Stability.Reading)
    ensures Dispatch("sdxl", w, h, name, hint, params, world, reading)
         == Dispatch("sdxl", w, h, name, hint, params, World(other.env, other.server, world.diffusers), reading)
    ensures Dispatch("firefly", w, h, name, hint, params, world, reading)
         == Dispatch("firefly", w, h, name, hint, params, World(world.env, other.server, other.diffusers), reading)
    ensures Dispatch("stability", w, h, name, hint, params, world, reading)
         == Dispatch("stability", w, h, name, hint, params, World(world.env, world.server, other.diffusers), reading)
    ensures forall p :: p !in {"sdxl", "stability", "firefly"} ==>
      Dispatch(p, w, h, name, hint, params, world, reading) == Dispatch("placeholder", w, h, name, hint, NoParams, other, reading)
  {
  }

  /** Only the Stability provider sends requests. */
  lemma OnlyStabilityCalls(provider: string, w: int, h: int, name: string, hint: string, params: Params, world: World,
                           reading: Stability.Reading)
    requires provider != "stability"
    ensures Dispatch(provider, w, h, name, hint, params, world, reading).calls == []
  {
  }

  /** generate_with_provider: the if/elif chain over the provider name. */
  method GenerateWithProvider(provider: string, w: int, h: int, name: string, hint: string, params: Params, world: World,
                              reading: Stability.Reading)
    returns (result: Result<Picture, Failure>, calls: seq<Stability.Call>)
    ensures Stability.Run(result, calls) == Dispatch(provider, w, h, name, hint, params, world, reading)
  {
    calls := [];
    if provider == "sdxl" {
      result := SdxlDiffusers.Generate(w, h, name, hint, params, world.diffusers);
    } else if provider == "stability" {
      result, calls := Stability.Generate(w, h, name, hint, params, world.env, world.server, reading);
    } else if provider == "firefly" {
      result := Firefly.Generate(w, h, name, hint, params, world.env);
    } else {
      var img := Placeholder.GenerateFallback(w, h, name, hint);
      result := Ok(img.Snapshot());
    }
  }
}
