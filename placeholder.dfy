/** The local placeholder renderer (pipeline/fallback_placeholder.py): a
    light grey canvas with tonal stripes along the longer side, a black label
    box holding the product name, and the hint along the bottom edge. Nothing
    in it depends on anything but its four arguments. */
module Placeholder {
  import opened Strings
  import opened Imaging

  const Background := Rgb(240, 240, 240)
  const LabelBox := Rgb(0, 0, 0)
  const LabelInk := Rgb(255, 255, 255)
  const HintInk := Rgb(80, 80, 80)

  function Max(a: int, b: int): int { if a >= b then a else b }
  function Min(a: int, b: int): int { if a <= b then a else b }

  /** How many offsets `range(0, max(w, h), 20)` produces. */
  function StripeCount(w: int, h: int): nat {
    var m := Max(w, h);
    if m <= 0 then 0 else (m + 19) / 20
  }

  /** The stripe drawn at offset i: full height at x = i on a landscape or
      square canvas, full width at y = i on a portrait one. */
  function Stripe(i: int, w: int, h: int): DrawCmd {
    var shade := 200 + i % 40;
    var fill := Rgb(shade, shade, shade);
    if w >= h then Rect(i, 0, i + 40, h, fill) else Rect(0, i, w, i + 40, fill)
  }

  /** The stripes in drawing order: offsets 0, 20, 40, ... */
  function Stripes(w: int, h: int): seq<DrawCmd> {
    seq(StripeCount(w, h), k requires 0 <= k < StripeCount(w, h) => Stripe(20 * k, w, h))
  }

  /** The label box, the label, and the hint when there is one. */
  function Overlays(w: int, h: int, name: string, hint: string): seq<DrawCmd> {
    [Rect(20, 20, Min(w - 20, 420), 120, LabelBox), Text(30, 50, Take(name, 22), LabelInk)]
    + (if hint != "" then [Text(20, h - 40, Take(hint, 48), HintInk)] else [])
  }

  /** What generate_fallback(w, h, product_name, hint) returns. */
  function Fallback(w: int, h: int, name: string, hint: string): Picture {
    Picture(w, h, Drawn(Background, Stripes(w, h) + Overlays(w, h, name, hint)))
  }

  /** The k-th stripe exists exactly when its offset 20*k lies below max(w, h). */
  lemma StripeRange(w: int, h: int, k: nat)
    ensures k < StripeCount(w, h) <==> 20 * k < Max(w, h)
  {
  }

  /** Stripe shades alternate between 200 and 220. */
  lemma {:induction false} StripeShade(w: int, h: int, k: nat)
    ensures Stripe(20 * k, w, h).fill.r == (if k % 2 == 0 then 200 else 220)
    ensures Stripe(20 * k, w, h).fill == Rgb(200 + (20 * k) % 40, 200 + (20 * k) % 40, 200 + (20 * k) % 40)
  {
    var q := k / 2;
    assert k == 2 * q + k % 2;
    assert 20 * k == 40 * q + 20 * (k % 2);
  }

  /** The layout generate_fallback draws, command by command. */
  lemma FallbackLayout(w: int, h: int, name: string, hint: string)
    ensures var p := Fallback(w, h, name, hint);
      && p.width == w && p.height == h
      && p.body.Drawn? && p.body.background == Rgb(240, 240, 240)
      && |p.body.cmds| == StripeCount(w, h) + 2 + (if hint == "" then 0 else 1)
    ensures var cmds := Fallback(w, h, name, hint).body.cmds;
      forall k :: 0 <= k < StripeCount(w, h) ==>
        && cmds[k].Rect?
        && (cmds[k].fill.r == 200 || cmds[k].fill.r == 220)
        && cmds[k].fill.g == cmds[k].fill.r && cmds[k].fill.b == cmds[k].fill.r
        && (w >= h ==> cmds[k] == Rect(20 * k, 0, 20 * k + 40, h, cmds[k].fill))
        && (w < h ==> cmds[k] == Rect(0, 20 * k, w, 20 * k + 40, cmds[k].fill))
        && 20 * k < Max(w, h)
    ensures var cmds := Fallback(w, h, name, hint).body.cmds; var n := StripeCount(w, h);
      && cmds[n] == Rect(20, 20, Min(w - 20, 420), 120, Rgb(0, 0, 0))
      && cmds[n + 1] == Text(30, 50, name[..Min(|name|, 22)], Rgb(255, 255, 255))
    ensures var cmds := Fallback(w, h, name, hint).body.cmds; var n := StripeCount(w, h);
      hint != "" ==> cmds[n + 2] == Text(20, h - 40, hint[..Min(|hint|, 48)], Rgb(80, 80, 80))
  {
    var cmds := Fallback(w, h, name, hint).body.cmds;
    forall k | 0 <= k < StripeCount(w, h)
      ensures cmds[k].fill.r == 200 || cmds[k].fill.r == 220
      ensures 20 * k < Max(w, h)
    {
      StripeShade(w, h, k);
      StripeRange(w, h, k);
    }
  }

  /** generate_fallback: a fresh canvas of exactly (w, h), filled with the
      stripes in increasing offset order, then the label and the hint. */
  method GenerateFallback(w: int, h: int, name: string, hint: string) returns (c: Canvas)
    ensures fresh(c)
    ensures c.Snapshot() == Fallback(w, h, name, hint)
  {
    c := new Canvas(w, h, Background);
    var i, k := 0, 0;
    while i < Max(w, h)
      invariant i == 20 * k && k <= StripeCount(w, h)
      invariant c.width == w && c.height == h && c.background == Background
      invariant c.cmds == Stripes(w, h)[..k]
    {
      StripeRange(w, h, k);
      var shade := 200 + i % 40;
      if w >= h {
        c.Rectangle(i, 0, i + 40, h, Rgb(shade, shade, shade));
      } else {
        c.Rectangle(0, i, w, i + 40, Rgb(shade, shade, shade));
      }
      assert Stripes(w, h)[..k + 1] == Stripes(w, h)[..k] + [Stripe(i, w, h)];
      i, k := i + 20, k + 1;
    }
    StripeRange(w, h, k);
    assert c.cmds == Stripes(w, h);
    c.Rectangle(20, 20, Min(w - 20, 420), 120, LabelBox);
    c.DrawText(30, 50, Take(name, 22), LabelInk);
    if hint != "" {
      c.DrawText(20, h - 40, Take(hint, 48), HintInk);
    }
    assert c.cmds == Stripes(w, h) + Overlays(w, h, name, hint);
  }
}
