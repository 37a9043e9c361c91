/** The Firefly provider (pipeline/providers/firefly_api.py), a stub: it
    checks for a key and returns the local placeholder with a blue label. */
module Firefly {
  import opened Wrappers
  import opened Context
  import opened Imaging
  import Placeholder

  const MissingKey := Failure(RuntimeError, "Firefly provider requested but FIREFLY_API_KEY missing.")
  const StubLabel := Text(10, 10, "Firefly (stub)", Rgb(0, 0, 255))

  /** os.environ.get("FIREFLY_API_KEY") or params.get("api_key") */
  function ApiKey(env: Env, params: Params): Option<string> {
    Or(env.fireflyKey, params.apiKey)
  }

  /** What generate returns or raises. */
  function Stub(w: int, h: int, name: string, hint: string, params: Params, env: Env): (r: Result<Picture, Failure>)
    ensures r.Err? <==> !Truthy(env.fireflyKey) && !Truthy(params.apiKey)
    ensures r.Err? ==> r.error == MissingKey
    ensures r.Ok? ==> && r.value.width == w && r.value.height == h
                      && r.value.body == Drawn(Placeholder.Background,
                           Placeholder.Fallback(w, h, name, hint).body.cmds + [Text(10, 10, "Firefly (stub)", Rgb(0, 0, 255))])
  {
    if !Truthy(ApiKey(env, params)) then Err(MissingKey)
    else Ok(Overlay(Placeholder.Fallback(w, h, name, hint), StubLabel))
  }

  /** generate: the key check, then the placeholder drawn on and labelled in place. */
  method Generate(w: int, h: int, name: string, hint: string, params: Params, env: Env)
    returns (r: Result<Picture, Failure>)
    ensures r == Stub(w, h, name, hint, params, env)
  {
    var key := ApiKey(env, params);
    if !Truthy(key) {
      return Err(MissingKey);
    }
    var img := Placeholder.GenerateFallback(w, h, name, hint);
    img.DrawText(10, 10, "Firefly (stub)", Rgb(0, 0, 255));
    return Ok(img.Snapshot());
  }
}
