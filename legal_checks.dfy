/** The prohibited-term check (pipeline/legal_checks.py): the message is cut
    into maximal runs of [A-Za-z0-9'], and each pattern, a literal text in
    which '*' stands for any run of characters, is matched case-insensitively
    against whole tokens. Each pattern that matches some token gives one flag,
    in pattern order. Pattern characters other than '*' are taken literally. */
module LegalChecks {
  import opened Strings

  /** [A-Za-z0-9'] */
  predicate TokenChar(c: char) {
    ('A' <= c <= 'Z') || ('a' <= c <= 'z') || ('0' <= c <= '9') || c == '\''
  }

  predicate AllToken(s: string) {
    forall i :: 0 <= i < |s| ==> TokenChar(s[i])
  }

  // ------------------------------------------------------------ tokens

  /** The length of the run of token characters s starts with. */
  function RunLength(s: string): (n: nat)
    ensures n <= |s| && AllToken(s[..n])
    ensures n == |s| || !TokenChar(s[n])
    decreases |s|
  {
    if s == [] || !TokenChar(s[0]) then 0
    else
      var m := RunLength(s[1..]);
      assert forall i :: 1 <= i < 1 + m ==> s[i] == s[1..][..m][i - 1];
      1 + m
  }

  /** re.findall(r"[A-Za-z0-9']+", s): the maximal runs, left to right. */
  function Tokens(s: string): (r: seq<string>)
    ensures forall k :: 0 <= k < |r| ==> r[k] != [] && AllToken(r[k])
    decreases |s|
  {
    if s == [] then []
    else if !TokenChar(s[0]) then Tokens(s[1..])
    else
      var n := RunLength(s);
      [s[..n]] + Tokens(s[n..])
  }

  /** A run is not cut short by what follows it, provided that begins with a
      separator. */
  lemma {:induction false} RunLengthAppend(a: string, x: string)
    requires x == [] || !TokenChar(x[0])
    ensures RunLength(a + x) == RunLength(a)
    decreases |a|
  {
    if a == [] {
      assert a + x == x;
    } else if TokenChar(a[0]) {
      assert (a + x)[0] == a[0] && (a + x)[1..] == a[1..] + x;
      RunLengthAppend(a[1..], x);
    } else {
      assert (a + x)[0] == a[0];
    }
  }

  /** A separator splits the token list: no token spans it. */
  lemma {:induction false} TokensSeparated(a: string, c: char, b: string)
    requires !TokenChar(c)
    ensures Tokens(a + [c] + b) == Tokens(a) + Tokens(b)
    decreases |a|
  {
    var s := a + [c] + b;
    if a == [] {
      assert s == [c] + b && s[1..] == b;
    } else if !TokenChar(a[0]) {
      assert s[0] == a[0] && s[1..] == a[1..] + [c] + b;
      TokensSeparated(a[1..], c, b);
    } else {
      assert s == a + ([c] + b);
      RunLengthAppend(a, [c] + b);
      var n := RunLength(a);
      assert s[..n] == a[..n];
      assert s[n..] == a[n..] + [c] + b;
      TokensSeparated(a[n..], c, b);
    }
  }

  /** A non-empty run of token characters is a single token. */
  lemma TokensOfRun(s: string)
    requires s != [] && AllToken(s)
    ensures Tokens(s) == [s]
  {
    RunLengthAppend(s, []);
    assert s + [] == s;
    RunLengthOfRun(s);
    assert s[..|s|] == s && s[|s|..] == [];
  }

  lemma {:induction false} RunLengthOfRun(s: string)
    requires AllToken(s)
    ensures RunLength(s) == |s|
    decreases |s|
  {
    if s != [] {
      assert AllToken(s[1..]) by {
        assert forall i :: 0 <= i < |s[1..]| ==> s[1..][i] == s[i + 1];
      }
      RunLengthOfRun(s[1..]);
    }
  }

  /** s with every non-token character removed. */
  function Kept(s: string): (r: string)
    decreases |s|
  {
    if s == [] then "" else (if TokenChar(s[0]) then [s[0]] else "") + Kept(s[1..])
  }

  function Concat(parts: seq<string>): string
    decreases |parts|
  {
    if parts == [] then "" else parts[0] + Concat(parts[1..])
  }

  lemma {:induction false} KeptAppend(a: string, b: string)
    ensures Kept(a + b) == Kept(a) + Kept(b)
    decreases |a|
  {
    if a == [] {
      assert a + b == b;
    } else {
      var c := if TokenChar(a[0]) then [a[0]] else "";
      assert (a + b)[0] == a[0] && (a + b)[1..] == a[1..] + b;
      KeptAppend(a[1..], b);
      calc {
        Kept(a + b);
        c + Kept(a[1..] + b);
        c + (Kept(a[1..]) + Kept(b));
        (c + Kept(a[1..])) + Kept(b);
      }
    }
  }

  lemma {:induction false} KeptRun(s: string)
    requires AllToken(s)
    ensures Kept(s) == s
    decreases |s|
  {
    if s != [] {
      assert AllToken(s[1..]) by {
        assert forall i :: 0 <= i < |s[1..]| ==> s[1..][i] == s[i + 1];
      }
      KeptRun(s[1..]);
      assert [s[0]] + s[1..] == s;
    }
  }

  /** The tokens, joined back together, are exactly the message's token
      characters in order: tokenising loses and invents nothing. */
  lemma {:induction false} TokensCoverKept(s: string)
    ensures Concat(Tokens(s)) == Kept(s)
    decreases |s|
  {
    if s != [] {
      if !TokenChar(s[0]) {
        TokensCoverKept(s[1..]);
      } else {
        var n := RunLength(s);
        var t := Tokens(s);
        assert t == [s[..n]] + Tokens(s[n..]);
        assert t[1..] == Tokens(s[n..]);
        TokensCoverKept(s[n..]);
        assert s == s[..n] + s[n..];
        KeptAppend(s[..n], s[n..]);
        KeptRun(s[..n]);
      }
    }
  }

  // ------------------------------------------------------------ matching

  /** re.match("^" + p.replace("*", ".*") + "$", t, re.IGNORECASE), for a
      token t and a pattern p whose only special character is '*'. */
  predicate Match(p: string, t: string)
    decreases |p| + |t|
  {
    if p == [] then t == []
    else if p[0] == '*' then Match(p[1..], t) || (t != [] && Match(p, t[1..]))
    else t != [] && LowerChar(p[0]) == LowerChar(t[0]) && Match(p[1..], t[1..])
  }

  function Stars(p: string): nat
    decreases |p|
  {
    if p == [] then 0 else (if p[0] == '*' then 1 else 0) + Stars(p[1..])
  }

  /** p with its i-th '*' replaced by fills[i]. */
  function Subst(p: string, fills: seq<string>): string
    requires |fills| == Stars(p)
    decreases |p|
  {
    if p == [] then ""
    else if p[0] == '*' then fills[0] + Subst(p[1..], fills[1..])
    else [p[0]] + Subst(p[1..], fills)
  }

  /** The reference meaning of a pattern: t is, up to letter case, p with
      every '*' replaced by some text. */
  ghost predicate Instance(p: string, t: string) {
    exists fills :: |fills| == Stars(p) && Lower(Subst(p, fills)) == Lower(t)
  }

  lemma LowerAppend(a: string, b: string)
    ensures Lower(a + b) == Lower(a) + Lower(b)
  {
    assert forall i :: 0 <= i < |a + b| ==> Lower(a + b)[i] == (Lower(a) + Lower(b))[i];
  }

  /** A '*' may swallow any prefix of the text. */
  lemma {:induction false} StarSkips(p: string, t: string, k: nat)
    requires p != [] && p[0] == '*' && k <= |t|
    requires Match(p[1..], t[k..])
    ensures Match(p, t)
    decreases k
  {
    if k > 0 {
      assert t[1..][k - 1..] == t[k..];
      StarSkips(p, t[1..], k - 1);
    }
  }

  /** Every instance of a pattern matches it. */
  lemma {:induction false} InstanceMatches(p: string, t: string, fills: seq<string>)
    requires |fills| == Stars(p) && Lower(Subst(p, fills)) == Lower(t)
    ensures Match(p, t)
    decreases |p|
  {
    if p == [] {
      assert |t| == |Lower(t)| == 0;
    } else if p[0] == '*' {
      var f := fills[0];
      var rest := Subst(p[1..], fills[1..]);
      LowerAppend(f, rest);
      assert |t| == |f| + |rest|;
      assert Lower(t[|f|..]) == Lower(t)[|f|..];
      InstanceMatches(p[1..], t[|f|..], fills[1..]);
      StarSkips(p, t, |f|);
    } else {
      var rest := Subst(p[1..], fills);
      LowerAppend([p[0]], rest);
      assert Lower(t)[0] == LowerChar(t[0]);
      assert Lower(t[1..]) == Lower(t)[1..];
      InstanceMatches(p[1..], t[1..], fills);
    }
  }

  /** A match yields the texts its stars stand for. */
  lemma {:induction false} MatchFills(p: string, t: string) returns (fills: seq<string>)
    requires Match(p, t)
    ensures |fills| == Stars(p) && Lower(Subst(p, fills)) == Lower(t)
    decreases |p| + |t|
  {
    if p == [] {
      fills := [];
    } else if p[0] == '*' {
      if Match(p[1..], t) {
        var fs := MatchFills(p[1..], t);
        fills := [""] + fs;
        assert fills[1..] == fs;
        assert Subst(p, fills) == "" + Subst(p[1..], fs);
        assert "" + Subst(p[1..], fs) == Subst(p[1..], fs);
      } else {
        var fs := MatchFills(p, t[1..]);
        fills := [[t[0]] + fs[0]] + fs[1..];
        assert fills[1..] == fs[1..];
        var rest := Subst(p[1..], fs[1..]);
        assert Subst(p, fs) == fs[0] + rest;
        assert Subst(p, fills) == [t[0]] + (fs[0] + rest);
        LowerAppend([t[0]], fs[0] + rest);
        assert t == [t[0]] + t[1..];
        LowerAppend([t[0]], t[1..]);
      }
    } else {
      var fs := MatchFills(p[1..], t[1..]);
      fills := fs;
      LowerAppend([p[0]], Subst(p[1..], fs));
      assert t == [t[0]] + t[1..];
      LowerAppend([t[0]], t[1..]);
    }
  }

  /** The matcher and the reference meaning agree on every pattern and text. */
  lemma MatchIsInstance(p: string, t: string)
    ensures Match(p, t) <==> Instance(p, t)
  {
    if Match(p, t) {
      var fills := MatchFills(p, t);
      assert Lower(Subst(p, fills)) == Lower(t);
    }
    if Instance(p, t) {
      var fills :| |fills| == Stars(p) && Lower(Subst(p, fills)) == Lower(t);
      InstanceMatches(p, t, fills);
    }
  }

  /** Without '*', a pattern matches exactly the texts equal to it up to
      letter case: whole tokens only, anchored at both ends. */
  lemma {:induction false} StarFreeMatch(p: string, t: string)
    requires '*' !in p
    ensures Match(p, t) <==> Lower(p) == Lower(t)
    decreases |p|
  {
    if p == [] {
      assert Lower(t) == [] <==> t == [];
    } else {
      assert '*' !in p[1..];
      if t != [] {
        StarFreeMatch(p[1..], t[1..]);
        assert p == [p[0]] + p[1..] && t == [t[0]] + t[1..];
        LowerAppend([p[0]], p[1..]);
        LowerAppend([t[0]], t[1..]);
        assert Lower([p[0]]) == [LowerChar(p[0])] && Lower([t[0]]) == [LowerChar(t[0])];
        assert Lower(p) == Lower(t) ==> Lower(p)[1..] == Lower(t)[1..];
      } else {
        assert |Lower(p)| != |Lower(t)|;
      }
    }
  }

  /** A lone '*' matches every text. */
  lemma {:induction false} StarMatchesAll(t: string)
    ensures Match("*", t)
    decreases |t|
  {
    var p := "*";
    assert p[0] == '*' && p[1..] == [];
    if t != [] {
      StarMatchesAll(t[1..]);
    }
  }

  /** Letter case in the text does not matter. */
  lemma {:induction false} MatchIgnoresCase(p: string, t: string)
    ensures Match(p, t) <==> Match(p, Lower(t))
    decreases |p| + |t|
  {
    if p != [] {
      if t != [] {
        assert Lower(t)[1..] == Lower(t[1..]);
        MatchIgnoresCase(p[1..], t[1..]);
        if p[0] == '*' {
          MatchIgnoresCase(p, t[1..]);
        }
      }
      MatchIgnoresCase(p[1..], t);
      if t != [] {
        assert LowerChar(LowerChar(t[0])) == LowerChar(t[0]);
      }
    }
  }

  /** A pattern holding a character that cannot occur in a token (a space,
      say) matches no token. */
  lemma {:induction false} SeparatorNeverMatches(p: string, t: string, i: nat)
    requires i < |p| && p[i] != '*' && !TokenChar(p[i])
    requires AllToken(t)
    ensures !Match(p, t)
    decreases |p| + |t|
  {
    if p[0] == '*' {
      SeparatorNeverMatches(p[1..], t, i - 1);
      if t != [] {
        assert AllToken(t[1..]) by {
          assert forall j :: 0 <= j < |t[1..]| ==> t[1..][j] == t[j + 1];
        }
        SeparatorNeverMatches(p, t[1..], i);
      }
    } else if i == 0 {
      assert t != [] ==> TokenChar(t[0]) && TokenChar(LowerChar(t[0])) && LowerChar(p[0]) == p[0];
    } else if t != [] {
      assert AllToken(t[1..]) by {
        assert forall j :: 0 <= j < |t[1..]| ==> t[1..][j] == t[j + 1];
      }
      SeparatorNeverMatches(p[1..], t[1..], i - 1);
    }
  }

  // ------------------------------------------------------------ flags

  function Flag(pat: string): string {
    "prohibited:" + pat
  }

  predicate AnyMatch(pat: string, tokens: seq<string>) {
    exists k :: 0 <= k < |tokens| && Match(pat, tokens[k])
  }

  /** The flags run_legal_checks returns: one per pattern that matches a
      token of the message, in pattern order. */
  function LegalFlags(message: string, patterns: seq<string>): seq<string>
    decreases |patterns|
  {
    if patterns == [] then []
    else
      var last := patterns[|patterns| - 1];
      LegalFlags(message, patterns[..|patterns| - 1]) + (if AnyMatch(last, Tokens(message)) then [Flag(last)] else [])
  }

  /** run_legal_checks(message, prohibited_patterns) */
  method RunLegalChecks(message: string, patterns: seq<string>) returns (flags: seq<string>)
    ensures flags == LegalFlags(message, patterns)
  {
    flags := [];
    for i := 0 to |patterns|
      invariant flags == LegalFlags(message, patterns[..i])
    {
      var pat := patterns[i];
      var tokens := Tokens(message);
      assert patterns[..i + 1][..i] == patterns[..i];
      var j := 0;
      while j < |tokens|
        invariant j <= |tokens|
        invariant forall k :: 0 <= k < j ==> !Match(pat, tokens[k])
        invariant flags == LegalFlags(message, patterns[..i])
      {
        if Match(pat, tokens[j]) {
          flags := flags + [Flag(pat)];
          break;
        }
        j := j + 1;
      }
    }
    assert patterns[..|patterns|] == patterns;
  }

  /** Checking a list of patterns is checking its parts one after the other. */
  lemma {:induction false} LegalFlagsAppend(message: string, a: seq<string>, b: seq<string>)
    ensures LegalFlags(message, a + b) == LegalFlags(message, a) + LegalFlags(message, b)
    decreases |b|
  {
    if b == [] {
      assert a + b == a;
    } else {
      var b' := b[..|b| - 1];
      assert (a + b)[..|a + b| - 1] == a + b';
      assert (a + b)[|a + b| - 1] == b[|b| - 1];
      LegalFlagsAppend(message, a, b');
    }
  }

  /** At most one flag per pattern; none without patterns. */
  lemma {:induction false} LegalFlagsBound(message: string, patterns: seq<string>)
    ensures |LegalFlags(message, patterns)| <= |patterns|
    ensures patterns == [] ==> LegalFlags(message, patterns) == []
    decreases |patterns|
  {
    if patterns != [] {
      LegalFlagsBound(message, patterns[..|patterns| - 1]);
    }
  }

  /** A single pattern flags exactly when it matches some token. */
  lemma LegalFlagsSingle(message: string, pat: string)
    ensures LegalFlags(message, [pat]) == if AnyMatch(pat, Tokens(message)) then ["prohibited:" + pat] else []
  {
    assert [pat][..0] == [];
  }

  /** Every flag names a pattern of the list that matches some token. */
  lemma {:induction false} LegalFlagsSound(message: string, patterns: seq<string>)
    ensures forall f :: f in LegalFlags(message, patterns) ==>
      exists i :: 0 <= i < |patterns| && f == Flag(patterns[i]) && AnyMatch(patterns[i], Tokens(message))
    decreases |patterns|
  {
    if patterns != [] {
      var init := patterns[..|patterns| - 1];
      LegalFlagsSound(message, init);
      forall f | f in LegalFlags(message, patterns)
        ensures exists i :: 0 <= i < |patterns| && f == Flag(patterns[i]) && AnyMatch(patterns[i], Tokens(message))
      {
        if f in LegalFlags(message, init) {
          var i :| 0 <= i < |init| && f == Flag(init[i]) && AnyMatch(init[i], Tokens(message));
          assert patterns[i] == init[i];
        } else {
          assert f == Flag(patterns[|patterns| - 1]);
        }
      }
    }
  }
}
