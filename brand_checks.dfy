/** The brand checks (pipeline/brand_checks.py): the output's size against
    the expected size, a coarse search for the accent colour, and the logo
    flag. The decoded image is a two-dimensional array of pixels indexed
    [x, y], whose lengths are the image's width and height. */
module BrandChecks {
  import opened Wrappers
  import opened Strings
  import opened Imaging

  // ------------------------------------------------------------ _hex_to_rgb

  /** The value of one hexadecimal digit, either case. */
  function HexDigit(c: char): (r: Option<nat>)
    ensures r.Some? ==> r.value < 16
  {
    if '0' <= c <= '9' then Some(c as int - '0' as int)
    else if 'a' <= c <= 'f' then Some(c as int - 'a' as int + 10)
    else if 'A' <= c <= 'F' then Some(c as int - 'A' as int + 10)
    else None
  }

  /** A non-empty run of hex digits, most significant first. */
  function Digits(s: string): (r: Option<nat>)
    ensures r.Some? ==> s != [] && r.value < Pow16(|s|)
    decreases |s|
  {
    if s == [] then None
    else if |s| == 1 then HexDigit(s[0])
    else
      match (Digits(s[..|s| - 1]), HexDigit(s[|s| - 1]))
      case (Some(a), Some(b)) => Some(16 * a + b)
      case _ => None
  }

  function Pow16(n: nat): nat {
    if n == 0 then 1 else 16 * Pow16(n - 1)
  }

  /** int(s, 16): surrounding whitespace, an optional sign, then hex digits;
      None is the ValueError raised for anything else. Prefixes ("0x") and
      digit-separating underscores are not modelled: neither fits in the
      two-character chunks _hex_to_rgb passes in. */
  function ParseHex(s: string): Option<int> {
    var t := Strip(s);
    if t != [] && (t[0] == '+' || t[0] == '-') then
      match Digits(t[1..])
      case None => None
      case Some(v) => Some(if t[0] == '-' then -(v as int) else v)
    else Digits(t)
  }

  /** _hex_to_rgb(h): leading '#'s stripped, then int(h[i:i+2], 16) for i in 0, 2, 4. */
  function HexToRgb(hex: string): Option<Rgb> {
    var t := TrimStartChar(hex, '#');
    match (ParseHex(Slice(t, 0, 2)), ParseHex(Slice(t, 2, 4)), ParseHex(Slice(t, 4, 6)))
    case (Some(r), Some(g), Some(b)) => Some(Rgb(r, g, b))
    case _ => None
  }

  /** A colour name is not hex: _hex_to_rgb("red") raises ValueError, since
      int("re", 16) does. */
  lemma ColourNameRejected()
    ensures HexToRgb("red") == None
  {
    assert ParseHex("re") == None by {
      assert Strip("re") == "re" by {
        assert TrimStart("re") == "re";
        assert TrimEnd("re") == "re";
      }
      assert "re"[..1] == "r";
      assert Digits("r") == None;
    }
    assert Slice(TrimStartChar("red", '#'), 0, 2) == "re";
  }

  /** A chunk of at most two characters parses to a value in -15..255; the
      negative ones need a sign, which leaves room for one digit only. */
  lemma ShortChunkRange(s: string)
    requires |s| <= 2 && ParseHex(s).Some?
    ensures -15 <= ParseHex(s).value <= 255
  {
    var t := Strip(s);
    assert |t| <= |TrimStart(s)| <= |s|;
    if t != [] && (t[0] == '+' || t[0] == '-') {
      assert Digits(t[1..]).Some?;
      assert |t[1..]| == 1 && Pow16(1) == 16;
    } else {
      assert Digits(t).Some?;
      assert Pow16(1) == 16 && Pow16(2) == 256;
    }
  }

  /** Every channel _hex_to_rgb returns lies in -15..255. */
  lemma HexToRgbRange(hex: string)
    requires HexToRgb(hex).Some?
    ensures var c := HexToRgb(hex).value;
      -15 <= c.r <= 255 && -15 <= c.g <= 255 && -15 <= c.b <= 255
  {
    var t := TrimStartChar(hex, '#');
    ShortChunkRange(Slice(t, 0, 2));
    ShortChunkRange(Slice(t, 2, 4));
    ShortChunkRange(Slice(t, 4, 6));
  }

  /** A sign is accepted: a chunk such as "-f" parses to a negative channel. */
  lemma SignedChunk(c: char)
    requires HexDigit(c).Some?
    ensures ParseHex(['-', c]) == Some(-(HexDigit(c).value as int))
  {
    var s := ['-', c];
    assert !IsSpace(s[0]) && !IsSpace(s[1]);
    assert TrimStart(s) == s && TrimEnd(s) == s;
    assert s[1..] == [c];
  }

  function HexChar(d: nat): (c: char)
    requires d < 16
  {
    "0123456789ABCDEF"[d]
  }

  /** A channel 0..255 as two upper-case hex digits. */
  function Hex2(n: nat): string
    requires n < 256
  {
    [HexChar(n / 16), HexChar(n % 16)]
  }

  /** "#RRGGBB" */
  function ToHex(c: Rgb): string
    requires 0 <= c.r < 256 && 0 <= c.g < 256 && 0 <= c.b < 256
  {
    "#" + Hex2(c.r) + Hex2(c.g) + Hex2(c.b)
  }

  lemma HexCharDigit(d: nat)
    requires d < 16
    ensures HexDigit(HexChar(d)) == Some(d)
  {
  }

  lemma ParseHex2(n: nat)
    requires n < 256
    ensures ParseHex(Hex2(n)) == Some(n)
  {
    var s := Hex2(n);
    HexCharDigit(n / 16);
    HexCharDigit(n % 16);
    assert !IsSpace(s[0]) && !IsSpace(s[1]);
    assert TrimStart(s) == s;
    assert TrimEnd(s) == s;
    assert s[..1] == [s[0]];
    assert Digits(s[..1]) == Some(n / 16);
  }

  /** Parsing a formatted colour gives the colour back. */
  lemma HexRoundTrip(c: Rgb)
    requires 0 <= c.r < 256 && 0 <= c.g < 256 && 0 <= c.b < 256
    ensures HexToRgb(ToHex(c)) == Some(c)
  {
    var body := Hex2(c.r) + Hex2(c.g) + Hex2(c.b);
    assert ToHex(c) == "#" + body;
    assert ("#" + body)[1..] == body;
    assert body[0] != '#';
    assert TrimStartChar(body, '#') == body;
    assert TrimStartChar("#" + body, '#') == body;
    assert Slice(body, 0, 2) == Hex2(c.r);
    assert Slice(body, 2, 4) == Hex2(c.g);
    assert Slice(body, 4, 6) == Hex2(c.b);
    ParseHex2(c.r);
    ParseHex2(c.g);
    ParseHex2(c.b);
  }

  /** Leading '#'s are optional and any number of them is ignored. */
  lemma HashIsOptional(hex: string)
    ensures HexToRgb("#" + hex) == HexToRgb(hex)
  {
    assert ("#" + hex)[1..] == hex;
  }

  // ------------------------------------------------------------ flags

  const DefaultAccent := "#FFD700"
  const AccentMissing := "accent_not_detected"
  const LogoMissing := "logo_missing"

  /** Python's repr of a pair of ints: "(W, H)". */
  function PairRepr(p: (int, int)): string {
    "(" + IntToString(p.0) + ", " + IntToString(p.1) + ")"
  }

  const SizePrefix := "unexpected_size:"

  function SizeFlag(actual: (int, int), expected: (int, int)): string {
    SizePrefix + PairRepr(actual) + "!=" + PairRepr(expected)
  }

  /** The flags run_brand_checks returns, given what the accent search found. */
  function BrandFlags(actual: (int, int), expected: (int, int), accentHit: bool, logoPresent: bool): seq<string> {
    (if actual != expected then [SizeFlag(actual, expected)] else [])
    + FixedFlags(accentHit, logoPresent)
  }

  /** The flags after the size check: accent, then logo. */
  function FixedFlags(accentHit: bool, logoPresent: bool): seq<string> {
    (if !accentHit then [AccentMissing] else []) + (if !logoPresent then [LogoMissing] else [])
  }

  predicate StartsWith(s: string, p: string) {
    |p| <= |s| && s[..|p|] == p
  }

  /** Which check a flag comes from: size 0, accent 1, logo 2. */
  function Rank(f: string): nat {
    if StartsWith(f, SizePrefix) then 0 else if f == AccentMissing then 1 else 2
  }

  lemma PrefixStarts(p: string, q: string)
    ensures StartsWith(p + q, p)
  {
    assert (p + q)[..|p|] == p;
  }

  /** Neither fixed flag can be mistaken for a size flag. */
  lemma FixedFlagsDistinct()
    ensures !StartsWith(AccentMissing, SizePrefix) && !StartsWith(LogoMissing, SizePrefix)
    ensures AccentMissing != LogoMissing
  {
    assert AccentMissing[0] == 'a' && LogoMissing[0] == 'l' && SizePrefix[0] == 'u';
  }

  /** The accent and logo flags: each present exactly when its check
      fails, neither a size flag, accent before logo. */
  lemma FixedFlagsMeaning(accentHit: bool, logoPresent: bool)
    ensures var t := FixedFlags(accentHit, logoPresent);
      && |t| <= 2
      && (forall i :: 0 <= i < |t| ==> !StartsWith(t[i], SizePrefix) && Rank(t[i]) >= 1)
      && (AccentMissing in t <==> !accentHit)
      && (LogoMissing in t <==> !logoPresent)
      && (forall i, j :: 0 <= i < j < |t| ==> Rank(t[i]) < Rank(t[j]))
  {
    FixedFlagsDistinct();
    assert Rank(AccentMissing) == 1 && Rank(LogoMissing) == 2;
  }

  /** A list of at most one size flag followed by the fixed flags keeps
      each flag's meaning and the order size, accent, logo. */
  lemma SizeThenFixed(head: seq<string>, accentHit: bool, logoPresent: bool)
    requires |head| <= 1 && forall i :: 0 <= i < |head| ==> StartsWith(head[i], SizePrefix)
    ensures var r := head + FixedFlags(accentHit, logoPresent);
      && |r| <= 3
      && ((exists i :: 0 <= i < |r| && StartsWith(r[i], SizePrefix)) <==> |head| == 1)
      && (AccentMissing in r <==> !accentHit)
      && (LogoMissing in r <==> !logoPresent)
      && (forall i, j :: 0 <= i < j < |r| ==> Rank(r[i]) < Rank(r[j]))
  {
    var t := FixedFlags(accentHit, logoPresent);
    var r := head + t;
    FixedFlagsMeaning(accentHit, logoPresent);
    FixedFlagsDistinct();
    assert forall i :: 0 <= i < |head| ==> r[i] == head[i] && Rank(r[i]) == 0;
    assert forall i :: |head| <= i < |r| ==> r[i] == t[i - |head|];
    if |head| == 1 {
      assert StartsWith(r[0], SizePrefix);
    }
  }

  /** Each flag is present exactly when its check fails, and they come in
      the order size, accent, logo: at most three. */
  lemma BrandFlagsMeaning(actual: (int, int), expected: (int, int), accentHit: bool, logoPresent: bool)
    ensures var r := BrandFlags(actual, expected, accentHit, logoPresent);
      && |r| <= 3
      && ((exists i :: 0 <= i < |r| && StartsWith(r[i], SizePrefix)) <==> actual != expected)
      && (AccentMissing in r <==> !accentHit)
      && (LogoMissing in r <==> !logoPresent)
      && (forall i, j :: 0 <= i < j < |r| ==> Rank(r[i]) < Rank(r[j]))
  {
    var head := if actual != expected then [SizeFlag(actual, expected)] else [];
    if actual != expected {
      PrefixStarts(SizePrefix, PairRepr(actual) + "!=" + PairRepr(expected));
      assert SizeFlag(actual, expected) == SizePrefix + (PairRepr(actual) + "!=" + PairRepr(expected));
    }
    SizeThenFixed(head, accentHit, logoPresent);
  }

  // ------------------------------------------------------------ accent search

  function IntAbs(x: int): int { if x < 0 then -x else x }

  /** Every channel within < 30 of the accent. */
  predicate Close(p: Rgb, accent: Rgb) {
    IntAbs(p.r - accent.r) < 30 && IntAbs(p.g - accent.g) < 30 && IntAbs(p.b - accent.b) < 30
  }

  /** max(1, n // 20): the sampling stride, never 0. */
  function Stride(n: int): (s: int)
    ensures s >= 1
  {
    if n / 20 >= 1 then n / 20 else 1
  }

  /** Some sampled pixel, one on the grid of strides from (0, 0), is close to the accent. */
  ghost predicate AccentSeen(img: array2<Rgb>, accent: Rgb)
    reads img
  {
    exists x, y :: 0 <= x < img.Length0 && 0 <= y < img.Length1
      && x % Stride(img.Length0) == 0 && y % Stride(img.Length1) == 0 && Close(img[x, y], accent)
  }

  /** Some sampled row below `upto` of column x is close to the accent. */
  ghost predicate ColumnSeen(img: array2<Rgb>, accent: Rgb, x: int, upto: int)
    reads img
    requires 0 <= x < img.Length0
  {
    exists y :: 0 <= y < upto && y < img.Length1 && y % Stride(img.Length1) == 0 && Close(img[x, y], accent)
  }

  /** Some sampled column left of `upto` has a sampled pixel close to the accent. */
  ghost predicate SeenBefore(img: array2<Rgb>, accent: Rgb, upto: int)
    reads img
  {
    exists x :: 0 <= x < upto && x < img.Length0 && x % Stride(img.Length0) == 0
      && ColumnSeen(img, accent, x, img.Length1)
  }

  /** A multiple of s strictly between -s and s is 0. */
  lemma SmallMultiple(k: int, s: int)
    requires s >= 1 && -s < k * s < s
    ensures k == 0
  {
    assert k >= 1 ==> k * s >= s;
    assert k <= -1 ==> k * s <= -s;
  }

  /** Between two consecutive multiples of s there is none. */
  lemma NoMultipleBetween(a: int, b: int, s: int)
    requires s >= 1 && a % s == 0 && a < b < a + s
    ensures b % s != 0
  {
    var q, q2 := a / s, b / s;
    assert a == q * s;
    assert b == q2 * s + b % s && 0 <= b % s < s;
    assert (q2 - q) * s == q2 * s - q * s;
    SmallMultiple(q2 - q, s);
    assert b % s == b - a;
  }

  /** The next stride is again a multiple of the stride. */
  lemma StrideStep(a: int, s: int)
    requires s >= 1 && a % s == 0
    ensures (a + s) % s == 0
  {
    var q, q2, r := a / s, (a + s) / s, (a + s) % s;
    assert a == q * s;
    assert a + s == q2 * s + r && 0 <= r < s;
    assert (q + 1 - q2) * s == q * s + s - q2 * s;
    SmallMultiple(q + 1 - q2, s);
  }

  /** One stride down a column adds exactly the row at y to the sampled rows. */
  lemma ColumnStep(img: array2<Rgb>, accent: Rgb, x: int, y: int)
    requires 0 <= x < img.Length0 && 0 <= y < img.Length1 && y % Stride(img.Length1) == 0
    ensures ColumnSeen(img, accent, x, y + Stride(img.Length1))
      == (ColumnSeen(img, accent, x, y) || Close(img[x, y], accent))
  {
    var s := Stride(img.Length1);
    if ColumnSeen(img, accent, x, y + s) {
      var j :| 0 <= j < y + s && j < img.Length1 && j % s == 0 && Close(img[x, j], accent);
      if y < j {
        NoMultipleBetween(y, j, s);
      }
    }
  }

  /** One stride across adds exactly column x to the sampled columns. */
  lemma RowStep(img: array2<Rgb>, accent: Rgb, x: int)
    requires 0 <= x < img.Length0 && x % Stride(img.Length0) == 0
    ensures SeenBefore(img, accent, x + Stride(img.Length0))
      == (SeenBefore(img, accent, x) || ColumnSeen(img, accent, x, img.Length1))
  {
    var s := Stride(img.Length0);
    if SeenBefore(img, accent, x + s) {
      var i :| 0 <= i < x + s && i < img.Length0 && i % s == 0 && ColumnSeen(img, accent, i, img.Length1);
      if x < i {
        NoMultipleBetween(x, i, s);
      }
    }
  }

  /** The column-by-column search sees the same pixels as the grid. */
  lemma SeenByColumns(img: array2<Rgb>, accent: Rgb)
    ensures SeenBefore(img, accent, img.Length0) == AccentSeen(img, accent)
  {
    if AccentSeen(img, accent) {
      var x, y :| 0 <= x < img.Length0 && 0 <= y < img.Length1
        && x % Stride(img.Length0) == 0 && y % Stride(img.Length1) == 0 && Close(img[x, y], accent);
      assert ColumnSeen(img, accent, x, img.Length1);
    }
  }

  /** The inner loop of run_brand_checks: rows 0, sy, 2 sy, ... of column x,
      stopping at the first pixel close to the accent. */
  method ScanColumn(img: array2<Rgb>, accent: Rgb, x: int) returns (hit: bool)
    requires 0 <= x < img.Length0
    ensures hit == ColumnSeen(img, accent, x, img.Length1)
  {
    var h := img.Length1;
    var sy := Stride(h);
    var y := 0;
    while y < h
      invariant 0 <= y && y % sy == 0
      invariant !ColumnSeen(img, accent, x, y)
      decreases h - y
    {
      ColumnStep(img, accent, x, y);
      if Close(img[x, y], accent) {
        return true;
      }
      StrideStep(y, sy);
      y := y + sy;
    }
    hit := false;
  }

  /** The nested sampling loops of run_brand_checks: x over range(0, w,
      max(1, w // 20)), y likewise over the height, stopping at the first
      pixel close to the accent. */
  method SearchAccent(img: array2<Rgb>, accent: Rgb) returns (hit: bool)
    ensures hit == AccentSeen(img, accent)
  {
    SeenByColumns(img, accent);
    var w := img.Length0;
    var sx := Stride(w);
    var x := 0;
    while x < w
      invariant 0 <= x && x % sx == 0
      invariant !SeenBefore(img, accent, x)
      decreases w - x
    {
      RowStep(img, accent, x);
      hit := ScanColumn(img, accent, x);
      if hit {
        return;
      }
      StrideStep(x, sx);
      x := x + sx;
    }
    hit := false;
  }

  /** palette.get("accent_hex", "#FFD700") */
  function AccentHex(palette: map<string, string>): (r: string)
    ensures "accent_hex" in palette ==> r == palette["accent_hex"]
    ensures "accent_hex" !in palette ==> r == DefaultAccent
  {
    if "accent_hex" in palette then palette["accent_hex"] else DefaultAccent
  }

  /** What run_brand_checks appends once the accent colour is known: the
      size flag, the accent flag after the grid search, the logo flag. */
  method CollectFlags(img: array2<Rgb>, logoPresent: bool, expected: (int, int), accent: Rgb)
    returns (flags: seq<string>)
    ensures flags == BrandFlags((img.Length0, img.Length1), expected, AccentSeen(img, accent), logoPresent)
  {
    flags := [];
    var w, h := img.Length0, img.Length1;
    if (w, h) != expected {
      flags := flags + [SizeFlag((w, h), expected)];
    }
    var hit := SearchAccent(img, accent);
    if !hit {
      flags := flags + [AccentMissing];
    }
    if !logoPresent {
      flags := flags + [LogoMissing];
    }
  }

  /** run_brand_checks(image, logo_present, expected_size, palette); None is
      the ValueError _hex_to_rgb raises on a malformed accent colour. The
      colour is parsed before the size comparison here; since the error
      discards the flags gathered so far, the outcome is the same. */
  method RunBrandChecks(img: array2<Rgb>, logoPresent: bool, expected: (int, int), palette: map<string, string>)
    returns (r: Option<seq<string>>)
    ensures HexToRgb(AccentHex(palette)).None? ==> r.None?
    ensures var accent := HexToRgb(AccentHex(palette));
      accent.Some? ==> r == Some(BrandFlags((img.Length0, img.Length1), expected, AccentSeen(img, accent.value), logoPresent))
  {
    var parsed := HexToRgb(AccentHex(palette));
    if parsed.None? {
      return None;
    }
    var flags := CollectFlags(img, logoPresent, expected, parsed.value);
    return Some(flags);
  }
}
