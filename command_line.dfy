/** How the message handler reads a chat line: the `?record` prefix, the
    split on runs of whitespace limited to three fields, and the choice of
    subcommand. */
module CommandLine {
  import opened Wrappers

  /** The characters JavaScript's `\s` class matches. */
  predicate IsWhitespace(c: char) {
    var n := c as int;
    if n < 0xA0 then n == 0x20 || 0x09 <= n <= 0x0D
    else
      || n == 0xA0 || n == 0x1680 || 0x2000 <= n <= 0x200A || n == 0x2028 || n == 0x2029
      || n == 0x202F || n == 0x205F || n == 0x3000 || n == 0xFEFF
  }

  predicate NoWhitespace(s: string) {
    forall i :: 0 <= i < |s| ==> !IsWhitespace(s[i])
  }

  /** The first index at or after `k` holding whitespace, or `|s|`. */
  function WordEnd(s: string, k: nat): (r: nat)
    requires k <= |s|
    ensures k <= r <= |s|
    ensures forall i :: k <= i < r ==> !IsWhitespace(s[i])
    ensures r < |s| ==> IsWhitespace(s[r])
    decreases |s| - k
  {
    if k == |s| || IsWhitespace(s[k]) then k else WordEnd(s, k + 1)
  }

  /** The first index after `k` not holding whitespace, or `|s|`. */
  function RunEnd(s: string, k: nat): (r: nat)
    requires k < |s| && IsWhitespace(s[k])
    ensures k < r <= |s|
    ensures forall i :: k <= i < r ==> IsWhitespace(s[i])
    ensures r < |s| ==> !IsWhitespace(s[r])
    decreases |s| - k
  {
    if k + 1 == |s| || !IsWhitespace(s[k + 1]) then k + 1 else RunEnd(s, k + 1)
  }

  /** `s.split(/\s+/)`: the pieces between maximal runs of whitespace. A run
      at either end leaves an empty piece there. */
  function SplitOnWhitespace(s: string): (parts: seq<string>)
    ensures |parts| >= 1
    decreases |s|
  {
    var i := WordEnd(s, 0);
    if i == |s| then [s]
    else [s[..i]] + SplitOnWhitespace(s[RunEnd(s, i)..])
  }

  /** No piece of a split holds whitespace. */
  lemma {:induction false} PiecesHaveNoWhitespace(s: string)
    ensures forall k :: 0 <= k < |SplitOnWhitespace(s)| ==> NoWhitespace(SplitOnWhitespace(s)[k])
    decreases |s|
  {
    var i := WordEnd(s, 0);
    if i < |s| {
      var rest := s[RunEnd(s, i)..];
      PiecesHaveNoWhitespace(rest);
      assert NoWhitespace(s[..i]);
      assert SplitOnWhitespace(s) == [s[..i]] + SplitOnWhitespace(rest);
    }
  }

  /** The characters of `s` that are not whitespace, in order. */
  function Visible(s: string): string {
    if s == [] then [] else (if IsWhitespace(s[0]) then [] else [s[0]]) + Visible(s[1..])
  }

  function Concat(parts: seq<string>): string {
    if parts == [] then [] else parts[0] + Concat(parts[1..])
  }

  lemma {:induction false} VisibleAppend(a: string, b: string)
    ensures Visible(a + b) == Visible(a) + Visible(b)
  {
    if a != [] {
      var head := if IsWhitespace(a[0]) then [] else [a[0]];
      assert (a + b)[0] == a[0];
      assert (a + b)[1..] == a[1..] + b;
      VisibleAppend(a[1..], b);
      calc {
        Visible(a + b);
        head + Visible(a[1..] + b);
        head + (Visible(a[1..]) + Visible(b));
        (head + Visible(a[1..])) + Visible(b);
      }
    } else {
      assert a + b == b;
    }
  }

  lemma {:induction false} VisibleOfWord(w: string)
    requires NoWhitespace(w)
    ensures Visible(w) == w
  {
    if w != [] {
      VisibleOfWord(w[1..]);
    }
  }

  lemma {:induction false} VisibleOfRun(w: string)
    requires forall i :: 0 <= i < |w| ==> IsWhitespace(w[i])
    ensures Visible(w) == []
  {
    if w != [] {
      VisibleOfRun(w[1..]);
    }
  }

  lemma ConcatCons(w: string, tail: seq<string>)
    ensures Concat([w] + tail) == w + Concat(tail)
  {
    assert ([w] + tail)[1..] == tail;
  }

  /** A word and a whitespace run contribute the word alone. */
  lemma VisibleWordRun(w: string, run: string, rest: string)
    requires NoWhitespace(w)
    requires forall i :: 0 <= i < |run| ==> IsWhitespace(run[i])
    ensures Visible(w + run + rest) == w + Visible(rest)
  {
    assert Visible(w + run) == w by {
      VisibleAppend(w, run);
      VisibleOfWord(w);
      VisibleOfRun(run);
      assert w + [] == w;
    }
    VisibleAppend(w + run, rest);
  }

  /** Splitting loses only the whitespace: the pieces, put back together,
      are the visible characters of the line. */
  lemma {:induction false} SplitKeepsVisible(s: string)
    ensures Concat(SplitOnWhitespace(s)) == Visible(s)
    decreases |s|
  {
    var i := WordEnd(s, 0);
    if i == |s| {
      ConcatCons(s, []);
      VisibleOfWord(s);
    } else {
      var j := RunEnd(s, i);
      var w, run, rest := s[..i], s[i..j], s[j..];
      ConcatCons(w, SplitOnWhitespace(rest));
      VisibleWordRun(w, run, rest);
      assert s == w + run + rest;
      SplitKeepsVisible(rest);
    }
  }

  /** The contract of `WordEnd` determines it: the end of a word is the
      first whitespace at or after `k`. */
  lemma WordEndAt(s: string, k: nat, e: nat)
    requires k <= e <= |s|
    requires forall i :: k <= i < e ==> !IsWhitespace(s[i])
    requires e < |s| ==> IsWhitespace(s[e])
    ensures WordEnd(s, k) == e
  {
  }

  /** Likewise the end of a whitespace run is the first visible character after `k`. */
  lemma RunEndAt(s: string, k: nat, e: nat)
    requires k < e <= |s|
    requires forall i :: k <= i < e ==> IsWhitespace(s[i])
    requires e < |s| ==> !IsWhitespace(s[e])
    ensures RunEnd(s, k) == e
  {
  }

  /** A word, one whitespace run and a rest that does not begin with
      whitespace split into the word followed by the pieces of the rest. */
  lemma SplitWord(w: string, run: string, rest: string)
    requires NoWhitespace(w)
    requires |run| > 0 && forall i :: 0 <= i < |run| ==> IsWhitespace(run[i])
    requires rest == [] || !IsWhitespace(rest[0])
    ensures SplitOnWhitespace(w + run + rest) == [w] + SplitOnWhitespace(rest)
  {
    var s := w + run + rest;
    var e := |w| + |run|;
    assert s[..|w|] == w;
    assert s[|w|..e] == run;
    assert s[e..] == rest;
    WordEndAt(s, 0, |w|);
    RunEndAt(s, |w|, e);
  }

  lemma SplitOneWord(w: string)
    requires NoWhitespace(w)
    ensures SplitOnWhitespace(w) == [w]
  {
  }

  /** The word the handler listens for. */
  const Prefix: string := "?record"

  /** `split(/\s+/, 3)`: only the first three pieces are kept. */
  function Fields(content: string): (fields: seq<string>)
    ensures 1 <= |fields| <= 3
  {
    var parts := SplitOnWhitespace(content);
    parts[..if |parts| < 3 then |parts| else 3]
  }

  predicate StartsWith(s: string, p: string) {
    |p| <= |s| && s[..|p|] == p
  }

  /** Every line the handler acts on begins with `?record`, so the
      `startsWith` guard never hides a command from the field check. */
  lemma ParsedLineStartsWithPrefix(content: string)
    ensures Parse(content).Some? ==> StartsWith(content, Prefix)
  {
  }

  /** A `?record` subcommand. `SetScreenUrl` covers `screen` and `url`; its
      argument is the third field, absent when the line has only two. */
  datatype Command = SetScreenUrl(args: Option<string>) | Start | Stop | Take | Debug | Help | Invalid

  /** The subcommand named by the fields; None when the first field is not
      exactly `?record` and the handler returns without a reply. */
  function Classify(fields: seq<string>): Option<Command>
    requires |fields| >= 1
  {
    if fields[0] != Prefix then None
    else if |fields| == 1 then Some(Help)
    else
      var sub := fields[1];
      var args := if |fields| >= 3 then Some(fields[2]) else None;
      if sub == "screen" || sub == "url" then Some(SetScreenUrl(args))
      else if sub == "start" then Some(Start)
      else if sub == "stop" then Some(Stop)
      else if sub == "take" then Some(Take)
      else if sub == "debug" then Some(Debug)
      else if sub == "help" then Some(Help)
      else Some(Invalid)
  }

  function Parse(content: string): Option<Command> {
    Classify(Fields(content))
  }

  /** The canonical line for a command. */
  function Render(c: Command): string
    requires !c.Invalid?
  {
    match c
    case SetScreenUrl(None) => Prefix + " " + "screen"
    case SetScreenUrl(Some(u)) => Prefix + " " + "screen" + " " + u
    case Start => Prefix + " " + "start"
    case Stop => Prefix + " " + "stop"
    case Take => Prefix + " " + "take"
    case Debug => Prefix + " " + "debug"
    case Help => Prefix
  }

  /** Commands a line can carry: every one but `Invalid`, with a screen URL
      that has no whitespace in it. */
  predicate Renderable(c: Command) {
    && !c.Invalid?
    && (c.SetScreenUrl? && c.args.Some? ==> NoWhitespace(c.args.value))
  }

  /** A word followed by one more word splits into exactly those two fields. */
  lemma TwoFields(p: string, sub: string)
    requires NoWhitespace(p) && NoWhitespace(sub) && sub != []
    ensures Fields(p + " " + sub) == [p, sub]
  {
    SplitWord(p, " ", sub);
    SplitOneWord(sub);
  }

  /** A word followed by nothing or by whitespace is the first piece. */
  lemma FirstPiece(w: string, rest: string)
    requires NoWhitespace(w)
    requires rest == [] || IsWhitespace(rest[0])
    ensures SplitOnWhitespace(w + rest)[0] == w
  {
    WordEndAt(w + rest, 0, |w|);
    assert (w + rest)[..|w|] == w;
  }

  /** Three words, single-spaced, and a rest that is empty or begins with
      whitespace: the fields are the three words and the rest is dropped. The
      third word may be empty only at the very end of the line. */
  lemma ThreeFields(p: string, sub: string, arg: string, rest: string)
    requires NoWhitespace(p) && NoWhitespace(sub) && sub != []
    requires NoWhitespace(arg) && (arg != [] || rest == [])
    requires rest == [] || IsWhitespace(rest[0])
    ensures Fields(p + " " + sub + " " + arg + rest) == [p, sub, arg]
  {
    var x := sub + " " + (arg + rest);
    var tail := SplitOnWhitespace(arg + rest);
    assert tail[0] == arg by {
      FirstPiece(arg, rest);
    }
    assert SplitOnWhitespace(x) == [sub] + tail by {
      SplitWord(sub, " ", arg + rest);
    }
    assert SplitOnWhitespace(p + " " + x) == [p] + SplitOnWhitespace(x) by {
      SplitWord(p, " ", x);
    }
    var parts := SplitOnWhitespace(p + " " + x);
    assert parts[..3] == [p, sub, arg];
    Regroup(p, sub, arg, rest);
  }

  lemma Regroup(a: string, b: string, c: string, d: string)
    ensures a + " " + b + " " + c + d == a + " " + (b + " " + (c + d))
  {
  }

  lemma ParseScreenLine(u: Option<string>)
    requires u.Some? ==> NoWhitespace(u.value)
    ensures Parse(Render(SetScreenUrl(u))) == Some(SetScreenUrl(u))
  {
    match u
    case None =>
      TwoFields(Prefix, "screen");
    case Some(v) =>
      ThreeFields(Prefix, "screen", v, []);
      assert Render(SetScreenUrl(u)) == Prefix + " " + "screen" + " " + v + [];
  }

  lemma ParseKeywordLine(c: Command)
    requires c.Start? || c.Stop? || c.Take? || c.Debug?
    ensures Parse(Render(c)) == Some(c)
  {
    match c
    case Start => ParseTwoWordLine("start");
    case Stop => ParseTwoWordLine("stop");
    case Take => ParseTwoWordLine("take");
    case Debug => ParseTwoWordLine("debug");
  }

  /** A `?record` line with one subcommand word is classified by that word. */
  lemma ParseTwoWordLine(sub: string)
    requires NoWhitespace(sub) && sub != []
    ensures Parse(Prefix + " " + sub) == Classify([Prefix, sub])
  {
    TwoFields(Prefix, sub);
  }

  /** Each renderable command is read back from its canonical line. */
  lemma ParseRender(c: Command)
    requires Renderable(c)
    ensures Parse(Render(c)) == Some(c)
  {
    match c
    case SetScreenUrl(u) =>
      ParseScreenLine(u);
    case Help =>
      SplitOneWord(Prefix);
    case _ =>
      ParseKeywordLine(c);
  }

  /** `url` is another name for `screen`, and only the first word after it is
      the URL: whatever follows is dropped. */
  lemma ScreenUrlIsOneWord(u: string, rest: string)
    requires NoWhitespace(u) && u != []
    ensures Parse(Prefix + " " + "url" + " " + u + " " + rest) == Some(SetScreenUrl(Some(u)))
    ensures Parse(Prefix + " " + "url" + " " + u + " " + rest) == Parse(Render(SetScreenUrl(Some(u))))
  {
    assert Fields(Prefix + " " + "url" + " " + u + " " + rest) == [Prefix, "url", u] by {
      ThreeFields(Prefix, "url", u, " " + rest);
      assert Prefix + " " + "url" + " " + u + " " + rest == Prefix + " " + "url" + " " + u + (" " + rest);
    }
    ParseRender(SetScreenUrl(Some(u)));
  }

  /** A bare `?record` asks for help, but `?record ` with a trailing space
      has an empty subcommand and is an invalid command; `?recording` has no
      `?record` field at all and is ignored. */
  lemma PrefixEdgeCases()
    ensures Parse(Prefix) == Some(Help)
    ensures Parse(Prefix + " ") == Some(Invalid)
    ensures Parse(Prefix + "ing") == None
  {
    SplitWord(Prefix, " ", "");
    SplitOneWord("");
    assert Fields(Prefix + " ") == [Prefix, ""] by {
      assert Prefix + " " == Prefix + " " + "";
    }
    SplitOneWord(Prefix + "ing");
  }
}
