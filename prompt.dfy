/** The prompt builder both generation backends share: the brief's
    "prompt_template" (or a fixed default) filled in with str.format(name=...,
    hint=...). Only the replacement fields {name} and {hint} and the escapes
    {{ and }} are modelled; every other field is treated as rejected. */
module Prompt {
  import opened Wrappers
  import opened Context

  /** "{name}: {hint}, studio lighting, product photography, high detail" */
  const DefaultTemplate := "{name}: {hint}" + DefaultStyle
  const DefaultStyle := ", studio lighting," + " product photography," + " high detail"

  const TemplateRejected := Failure(FormatError, "prompt template rejected by str.format")

  /** The position of the first '}' at or after `from`, if any. */
  function CloseBrace(t: string, from: nat): (r: Option<nat>)
    requires from <= |t|
    ensures r.Some? ==> from <= r.value < |t| && t[r.value] == '}' && '}' !in t[from..r.value]
    ensures r.None? ==> '}' !in t[from..]
    decreases |t| - from
  {
    if from == |t| then None
    else if t[from] == '}' then Some(from)
    else CloseBrace(t, from + 1)
  }

  function Prepend(s: string, r: Result<string, Failure>): Result<string, Failure> {
    if r.Ok? then Ok(s + r.value) else r
  }

  /** t.format(name=name, hint=hint) */
  function Format(t: string, name: string, hint: string): Result<string, Failure>
    decreases |t|
  {
    if t == [] then Ok("")
    else if t[0] == '{' then
      if |t| >= 2 && t[1] == '{' then Prepend("{", Format(t[2..], name, hint))
      else
        match CloseBrace(t, 1)
        case None => Err(TemplateRejected)
        case Some(j) =>
          if t[1..j] == "name" then Prepend(name, Format(t[j + 1..], name, hint))
          else if t[1..j] == "hint" then Prepend(hint, Format(t[j + 1..], name, hint))
          else Err(TemplateRejected)
    else if t[0] == '}' then
      if |t| >= 2 && t[1] == '}' then Prepend("}", Format(t[2..], name, hint))
      else Err(TemplateRejected)
    else Prepend([t[0]], Format(t[1..], name, hint))
  }

  /** _build_prompt(product_name, hint, params) */
  function BuildPrompt(name: string, hint: string, params: Params): Result<string, Failure> {
    var template := if Truthy(params.promptTemplate) then params.promptTemplate.value else DefaultTemplate;
    Format(template, name, hint)
  }

  predicate BraceFree(s: string) {
    '{' !in s && '}' !in s
  }

  /** Text without braces is copied through unchanged. */
  lemma {:induction false} FormatLiteral(a: string, rest: string, name: string, hint: string)
    requires BraceFree(a)
    ensures Format(a + rest, name, hint) == Prepend(a, Format(rest, name, hint))
    decreases |a|
  {
    if a == [] {
      assert a + rest == rest;
      if Format(rest, name, hint).Ok? {
        assert a + Format(rest, name, hint).value == Format(rest, name, hint).value;
      }
    } else {
      assert (a + rest)[0] == a[0] && (a + rest)[1..] == a[1..] + rest;
      FormatLiteral(a[1..], rest, name, hint);
      assert [a[0]] + a[1..] == a;
      if Format(rest, name, hint).Ok? {
        assert [a[0]] + (a[1..] + Format(rest, name, hint).value) == a + Format(rest, name, hint).value;
      }
    }
  }

  /** A {name} field is replaced by the product name. */
  lemma FormatName(rest: string, name: string, hint: string)
    ensures Format("{name}" + rest, name, hint) == Prepend(name, Format(rest, name, hint))
  {
    var t := "{name}" + rest;
    assert t[1..5] == "name" && t[5] == '}';
    assert CloseBrace(t, 1) == Some(5);
    assert t[6..] == rest;
  }

  /** A {hint} field is replaced by the hint. */
  lemma FormatHint(rest: string, name: string, hint: string)
    ensures Format("{hint}" + rest, name, hint) == Prepend(hint, Format(rest, name, hint))
  {
    var t := "{hint}" + rest;
    assert t[1..5] == "hint" && t[5] == '}';
    assert CloseBrace(t, 1) == Some(5);
    assert t[6..] == rest;
  }

  /** "{hint}" followed by brace-free text formats to the hint and that text. */
  lemma FormatHintTail(tail: string, name: string, hint: string)
    requires BraceFree(tail)
    ensures Format("{hint}" + tail, name, hint) == Ok(hint + tail)
  {
    FormatLiteral(tail, "", name, hint);
    assert tail + "" == tail;
    FormatHint(tail, name, hint);
  }

  /** "{name}: {hint}" followed by brace-free text formats to name, ": ",
      hint and that text. */
  lemma FormatNameHint(tail: string, name: string, hint: string)
    requires BraceFree(tail)
    ensures Format("{name}: {hint}" + tail, name, hint) == Ok(name + ": " + hint + tail)
  {
    var b := "{hint}" + tail;
    var c := ": " + b;
    FormatHintTail(tail, name, hint);
    assert BraceFree(": ");
    FormatLiteral(": ", b, name, hint);
    FormatName(c, name, hint);
    TemplateShape(tail);
    assert name + (": " + (hint + tail)) == name + ": " + hint + tail;
  }

  lemma TemplateShape(tail: string)
    ensures "{name}: {hint}" + tail == "{name}" + (": " + ("{hint}" + tail))
  {
    assert "{name}: {hint}" == "{name}" + ": " + "{hint}";
  }

  /** Without a template the prompt is "<name>: <hint>, studio lighting,
      product photography, high detail". */
  lemma DefaultPrompt(name: string, hint: string, params: Params)
    requires !Truthy(params.promptTemplate)
    ensures BuildPrompt(name, hint, params) == Ok(name + ": " + hint + DefaultStyle)
  {
    assert BraceFree(DefaultStyle);
    FormatNameHint(DefaultStyle, name, hint);
  }

  /** Doubles every brace: the template that formats to exactly s. */
  function Escape(s: string): string
    decreases |s|
  {
    if s == [] then ""
    else (if s[0] == '{' then "{{" else if s[0] == '}' then "}}" else [s[0]]) + Escape(s[1..])
  }

  /** Formatting an escaped text gives the text back, whatever name and hint are. */
  lemma {:induction false} FormatEscape(s: string, name: string, hint: string)
    ensures Format(Escape(s), name, hint) == Ok(s)
    decreases |s|
  {
    if s != [] {
      FormatEscape(s[1..], name, hint);
      var e := Escape(s);
      var head := if s[0] == '{' then "{{" else if s[0] == '}' then "}}" else [s[0]];
      assert e == head + Escape(s[1..]);
      assert e[|head|..] == Escape(s[1..]);
      assert [s[0]] + s[1..] == s;
    }
  }
}
