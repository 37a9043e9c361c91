/** The local SDXL provider (pipeline/providers/sdxl_diffusers.py). Whether
    the import of diffusers and torch succeeded, and the loaded pipeline
    itself, are given as a `Backend`; model loading, devices and inference are
    not modelled. */
module SdxlDiffusers {
  import opened Wrappers
  import opened Context
  import opened Imaging
  import Prompt

  /** NotInstalled: the guarded import failed with `importError` (str(e)).
      Installed: the pipeline, from (prompt, width, height) to its first
      image or the exception it raised. */
  datatype Backend =
    | NotInstalled(importError: string)
    | Installed(pipe: (string, int, int) -> Result<Picture, Failure>)

  const NotInstalledPrefix := "SDXL provider requested but diffusers/torch not installed: "

  /** generate(w, h, product_name, hint, params) */
  function Generate(w: int, h: int, name: string, hint: string, params: Params, backend: Backend): Result<Picture, Failure> {
    match backend
    case NotInstalled(e) => Err(Failure(RuntimeError, NotInstalledPrefix + e))
    case Installed(pipe) =>
      match Prompt.BuildPrompt(name, hint, params)
      case Err(e) => Err(e)
      case Ok(prompt) => pipe(prompt, w, h)
  }

  /** Missing dependencies are reported before the template is looked at:
      the same error comes back whatever the parameters. */
  lemma MissingDepsFailFirst(w: int, h: int, name: string, hint: string, params: Params, e: string)
    ensures var r := Generate(w, h, name, hint, params, NotInstalled(e));
      && r.Err? && r.error.kind == RuntimeError
      && r.error.message == NotInstalledPrefix + e
      && r == Generate(0, 0, "", "", NoParams, NotInstalled(e))
  {
  }

  /** Without a template the pipeline is asked for "<name>: <hint>, studio
      lighting, product photography, high detail" at exactly (w, h), and
      whatever it returns is the result. */
  lemma DefaultPromptReachesPipe(w: int, h: int, name: string, hint: string, params: Params,
                                 pipe: (string, int, int) -> Result<Picture, Failure>)
    requires !Truthy(params.promptTemplate)
    ensures Generate(w, h, name, hint, params, Installed(pipe)) == pipe(name + ": " + hint + Prompt.DefaultStyle, w, h)
  {
    Prompt.DefaultPrompt(name, hint, params);
  }
}
