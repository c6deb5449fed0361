/** The token writer of the markdown renderer: a string buffer that tokens
    are written into, either by a custom writer registered for the token's
    name or as an opening or closing tag. */
module MarkdownWriter {
  import opened Wrappers

  /** The parts of a token the writer looks at. */
  datatype Token = Token(name: string, tag: Option<string>, indent: int)

  /** A custom writer, seen from the buffer: the text it appends for a token. */
  type CustomWriter = Token -> string

  /** What `writeToken` throws for a token it cannot write. */
  const NoTagError: string := "Token without tag must have CustomWriter"

  /** `token.tag` is truthy: present and not the empty string. */
  predicate HasTag(t: Token) {
    t.tag.Some? && t.tag.value != ""
  }

  /** The text `writeTagToken` appends: `</tag>` for a token with negative
      indent, `<tag>` otherwise. */
  function TagText(t: Token): string
    requires HasTag(t)
  {
    (if t.indent < 0 then "</" else "<") + t.tag.value + ">"
  }

  /** Reads a rendered tag back: its name and whether it closes. */
  function ReadTag(s: string): Option<(string, bool)> {
    if |s| >= 4 && s[..2] == "</" && s[|s| - 1] == '>' then Some((s[2..|s| - 1], true))
    else if |s| >= 3 && s[0] == '<' && s[1] != '/' && s[|s| - 1] == '>' then Some((s[1..|s| - 1], false))
    else None
  }

  /** A tag whose name does not itself begin with `/` is read back with its
      name, and it is a closing tag exactly when the token's indent is negative. */
  lemma TagTextRoundTrip(t: Token)
    requires HasTag(t) && t.tag.value[0] != '/'
    ensures ReadTag(TagText(t)) == Some((t.tag.value, t.indent < 0))
  {
    var s := TagText(t);
    if t.indent < 0 {
      assert s == "</" + t.tag.value + ">";
      assert s[..2] == "</";
      assert s[2..|s| - 1] == t.tag.value;
    } else {
      assert s == "<" + t.tag.value + ">";
      assert s[1] == t.tag.value[0];
      assert s[1..|s| - 1] == t.tag.value;
    }
  }

  /** What `writeToken` appends for one token, or None when it throws: the
      custom writer registered under the token's name comes first, the tag
      second. */
  function TokenText(t: Token, writers: map<string, CustomWriter>): Option<string> {
    if t.name in writers then Some(writers[t.name](t))
    else if HasTag(t) then Some(TagText(t))
    else None
  }

  /** The text appended for a run of tokens, and whether a token threw. */
  datatype Rendering = Rendering(text: string, failed: bool)

  /** What `writeAll` appends: the tokens' texts in order, up to the first
      token that throws. */
  function Render(tokens: seq<Token>, writers: map<string, CustomWriter>): Rendering {
    if tokens == [] then Rendering("", false)
    else
      match TokenText(tokens[0], writers)
      case None => Rendering("", true)
      case Some(s) =>
        var rest := Render(tokens[1..], writers);
        Rendering(s + rest.text, rest.failed)
  }

  /** Rendering two runs one after the other is rendering their
      concatenation, unless the first run already threw. */
  lemma {:induction false} RenderAppend(a: seq<Token>, b: seq<Token>, writers: map<string, CustomWriter>)
    ensures var ra, rb := Render(a, writers), Render(b, writers);
      Render(a + b, writers) == if ra.failed then ra else Rendering(ra.text + rb.text, rb.failed)
  {
    if a == [] {
      assert a + b == b;
    } else {
      assert (a + b)[0] == a[0];
      assert (a + b)[1..] == a[1..] + b;
      RenderAppend(a[1..], b, writers);
    }
  }

  /** One step of the walk: after a prefix that did not throw, the next
      token either throws, which ends the whole rendering, or extends the
      text by its own. */
  lemma RenderStep(tokens: seq<Token>, i: nat, writers: map<string, CustomWriter>)
    requires i < |tokens| && !Render(tokens[..i], writers).failed
    ensures TokenText(tokens[i], writers).None? ==>
      Render(tokens, writers) == Rendering(Render(tokens[..i], writers).text, true)
    ensures TokenText(tokens[i], writers).Some? ==>
      Render(tokens[..i + 1], writers)
        == Rendering(Render(tokens[..i], writers).text + TokenText(tokens[i], writers).value, false)
  {
    var pre := Render(tokens[..i], writers);
    if TokenText(tokens[i], writers).None? {
      assert Render([tokens[i]] + tokens[i + 1..], writers) == Rendering("", true);
      RenderAppend(tokens[..i], [tokens[i]] + tokens[i + 1..], writers);
      assert tokens[..i] + ([tokens[i]] + tokens[i + 1..]) == tokens;
    } else {
      assert Render([tokens[i]], writers) == Rendering(TokenText(tokens[i], writers).value, false) by {
        assert [tokens[i]][1..] == [];
      }
      RenderAppend(tokens[..i], [tokens[i]], writers);
      assert tokens[..i + 1] == tokens[..i] + [tokens[i]];
    }
  }

  /** The tag texts of all tokens, in order. */
  function TagsText(tokens: seq<Token>): string
    requires forall i :: 0 <= i < |tokens| ==> HasTag(tokens[i])
  {
    if tokens == [] then "" else TagText(tokens[0]) + TagsText(tokens[1..])
  }

  /** With no custom writer registered, rendering fails exactly when some
      token has no tag, and otherwise gives the tag texts in order. */
  lemma {:induction false} RenderWithoutWriters(tokens: seq<Token>)
    ensures Render(tokens, map[]).failed <==> exists i :: 0 <= i < |tokens| && !HasTag(tokens[i])
    ensures (forall i :: 0 <= i < |tokens| ==> HasTag(tokens[i])) ==>
              Render(tokens, map[]).text == TagsText(tokens)
  {
    if tokens != [] {
      RenderWithoutWriters(tokens[1..]);
      if HasTag(tokens[0]) {
        if exists i :: 0 <= i < |tokens| && !HasTag(tokens[i]) {
          var i :| 0 <= i < |tokens| && !HasTag(tokens[i]);
          assert !HasTag(tokens[1..][i - 1]);
        }
        if exists i :: 0 <= i < |tokens[1..]| && !HasTag(tokens[1..][i]) {
          var i :| 0 <= i < |tokens[1..]| && !HasTag(tokens[1..][i]);
          assert !HasTag(tokens[i + 1]);
        }
      }
    }
  }

  /** A registered custom writer is used for its token even when the token
      has a tag; registering under a name replaces the earlier writer. */
  lemma CustomWriterFirst(t: Token, writers: map<string, CustomWriter>, w: CustomWriter)
    ensures TokenText(t, writers[t.name := w]) == Some(w(t))
    ensures TokenText(t, writers).None? <==> t.name !in writers && !HasTag(t)
  {
  }

  /** The writers after registering `pairs` in order, as `Map.set` does. */
  function Register(writers: map<string, CustomWriter>, pairs: seq<(string, CustomWriter)>): map<string, CustomWriter> {
    if pairs == [] then writers
    else
      var last := pairs[|pairs| - 1];
      Register(writers, pairs[..|pairs| - 1])[last.0 := last.1]
  }

  /** The last registration under a name wins: if no later pair reuses the
      name of pair `k`, that name maps to pair `k`'s writer. */
  lemma {:induction false} LastRegistrationWins(writers: map<string, CustomWriter>, pairs: seq<(string, CustomWriter)>, k: nat)
    requires k < |pairs|
    requires forall j :: k < j < |pairs| ==> pairs[j].0 != pairs[k].0
    ensures pairs[k].0 in Register(writers, pairs)
    ensures Register(writers, pairs)[pairs[k].0] == pairs[k].1
  {
    if k < |pairs| - 1 {
      var init := pairs[..|pairs| - 1];
      assert init[k] == pairs[k];
      LastRegistrationWins(writers, init, k);
    }
  }

  /** A name no pair registers keeps what it had, including being absent. */
  lemma {:induction false} UnregisteredKeepsWriter(writers: map<string, CustomWriter>, pairs: seq<(string, CustomWriter)>, name: string)
    requires forall j :: 0 <= j < |pairs| ==> pairs[j].0 != name
    ensures name in Register(writers, pairs) <==> name in writers
    ensures name in writers ==> Register(writers, pairs)[name] == writers[name]
  {
    if pairs != [] {
      var init := pairs[..|pairs| - 1];
      assert forall j :: 0 <= j < |init| ==> init[j] == pairs[j];
      UnregisteredKeepsWriter(writers, init, name);
    }
  }

  class Writer {
    var tokens: seq<Token>
    var str: string
    var customWriters: map<string, CustomWriter>

    constructor (tokens: seq<Token>)
      ensures this.tokens == tokens && str == "" && customWriters == map[]
    {
      this.tokens := tokens;
      str := "";
      customWriters := map[];
    }

    /** `append`: the buffer grows by `s`; nothing else changes. */
    method Append(s: string)
      modifies this`str
      ensures str == old(str) + s
    {
      str := str + s;
    }

    /** `addWriter`: registers `writer` under `name`, replacing any earlier one. */
    method AddWriter(name: string, writer: CustomWriter)
      modifies this`customWriters
      ensures customWriters == old(customWriters)[name := writer]
    {
      customWriters := customWriters[name := writer];
    }

    /** `addDefaultWriters`, with the default table passed in: registers each
      pair in order. */
    method AddDefaultWriters(defaults: seq<(string, CustomWriter)>)
      modifies this`customWriters
      ensures customWriters == Register(old(customWriters), defaults)
    {
      var i := 0;
      while i < |defaults|
        invariant 0 <= i <= |defaults|
        invariant customWriters == Register(old(customWriters), defaults[..i])
      {
        AddWriter(defaults[i].0, defaults[i].1);
        assert defaults[..i + 1][..i] == defaults[..i];
        i := i + 1;
      }
      assert defaults[..i] == defaults;
    }

    /** `writeTagToken`: appends the tag text. Called only for tokens with a tag. */
    method WriteTagToken(t: Token)
      requires HasTag(t)
      modifies this`str
      ensures str == old(str) + TagText(t)
    {
      var tagPrefix := if t.indent < 0 then "</" else "<";
      Append(tagPrefix);
      Append(t.tag.value);
      Append(">");
    }

    /** `writeToken`: appends the token's text, or throws and appends nothing. */
    method WriteToken(t: Token) returns (error: Option<string>)
      modifies this`str
      ensures TokenText(t, customWriters).None? ==> error == Some(NoTagError) && str == old(str)
      ensures TokenText(t, customWriters).Some? ==> error == None && str == old(str) + TokenText(t, customWriters).value
    {
      if t.name in customWriters {
        var custom := customWriters[t.name];
        Append(custom(t));
        error := None;
      } else {
        if !HasTag(t) {
          return Some(NoTagError);
        }
        WriteTagToken(t);
        error := None;
      }
    }

    /** `writeAll`: writes every token in order into the buffer, which is
      never cleared, and returns the whole buffer; a token that throws ends
      the walk, with what came before it still appended. */
    method WriteAll() returns (result: Result<string, string>)
      modifies this`str
      ensures str == old(str) + Render(tokens, customWriters).text
      ensures result == if Render(tokens, customWriters).failed then Failure(NoTagError) else Success(str)
    {
      var i := 0;
      while i < |tokens|
        invariant 0 <= i <= |tokens|
        invariant !Render(tokens[..i], customWriters).failed
        invariant str == old(str) + Render(tokens[..i], customWriters).text
      {
        var error := WriteToken(tokens[i]);
        RenderStep(tokens, i, customWriters);
        if error.Some? {
          return Failure(error.value);
        }
        i := i + 1;
      }
      assert tokens[..i] == tokens;
      result := Success(str);
    }
  }

  /** Writing the same tagged tokens twice with a fresh writer: the second
      `writeAll` returns the first result followed by the same text again. */
  method WriteAllTwice(tokens: seq<Token>) returns (first: Result<string, string>, second: Result<string, string>)
    requires forall i :: 0 <= i < |tokens| ==> HasTag(tokens[i])
    ensures first == Success(TagsText(tokens))
    ensures second == Success(TagsText(tokens) + TagsText(tokens))
    ensures tokens != [] ==> first != second
  {
    RenderWithoutWriters(tokens);
    var text := TagsText(tokens);
    var writer := new Writer(tokens);
    first := writer.WriteAll();
    assert first == Success("" + text);
    assert "" + text == text;
    second := writer.WriteAll();
    if tokens != [] {
      assert |TagText(tokens[0])| > 0;
      assert |text| > 0;
    }
  }
}
