/** Which MCP tools a --profile/--tools selection advertises.

    The selection is one left-to-right list of tokens that add to or remove
    from a set. Its declarative reading: a tool is selected exactly when the
    last token that mentions it is an addition. */
module ToolSelection {
  import opened Basics

  /** A registered command; the registry refuses two with one MCP name. */
  datatype Tool = Tool(hidden: bool, privileged: bool, profiles: set<string>)

  type Registry = map<string, Tool>

  datatype Selection = Everything | Only(tools: set<string>) | Failed

  datatype Token = Token(remove: bool, name: string)

  function Advertisable(reg: Registry): set<string> {
    set n | n in reg && !reg[n].hidden && !reg[n].privileged
  }

  // ----- Tokens ------------------------------------------------------------

  /** The characters unicode.IsSpace accepts. */
  predicate IsSpace(c: char) {
    || c in "\t\n\r \U{0B}\U{0C}\U{85}\U{A0}\U{1680}\U{2028}\U{2029}\U{202F}\U{205F}\U{3000}"
    || '\U{2000}' <= c <= '\U{200A}'
  }

  function TrimSpace(s: string): string {
    TrimRight(TrimLeft(s, IsSpace), IsSpace)
  }

  /** The pieces between commas. */
  function Split(s: string): (pieces: seq<string>)
    ensures pieces != []
  {
    if s == [] then [""]
    else
      var rest := Split(s[1..]);
      if s[0] == ',' then [""] + rest else [[s[0]] + rest[0]] + rest[1..]
  }

  function Glue(pieces: seq<string>): string
    requires pieces != []
  {
    if |pieces| == 1 then pieces[0] else pieces[0] + "," + Glue(pieces[1..])
  }

  /** The pieces hold no comma and make up the list again. */
  lemma {:induction false} SplitIsExact(s: string)
    ensures Glue(Split(s)) == s
    ensures forall i :: 0 <= i < |Split(s)| ==> ',' !in Split(s)[i]
  {
    if s != [] {
      SplitIsExact(s[1..]);
      var rest := Split(s[1..]);
      if s[0] == ',' {
        assert Split(s)[1..] == rest;
      } else {
        assert Split(s)[1..] == rest[1..];
      }
    }
  }

  /** A piece of the list as a token; an all-blank piece is skipped. */
  function ParseToken(raw: string): Option<Token> {
    var tok := TrimSpace(raw);
    if tok == "" then None
    else if tok[0] == '-' then Some(Token(true, TrimSpace(tok[1..])))
    else Some(Token(false, tok))
  }

  /** The tokens read from the pieces, in order. */
  function ReadTokens(read: string -> Option<Token>, pieces: seq<string>): seq<Token> {
    if pieces == [] then []
    else
      var rest := ReadTokens(read, pieces[..|pieces| - 1]);
      match read(pieces[|pieces| - 1])
      case None => rest
      case Some(t) => rest + [t]
  }

  function ParseTokens(pieces: seq<string>): seq<Token> {
    ReadTokens(ParseToken, pieces)
  }

  /** The two flags as one list, --profile first. */
  function Spec(profile: string, tools: string): string {
    var p, t := TrimSpace(profile), TrimSpace(tools);
    if t == "" then p else if p == "" then t else p + "," + t
  }

  // ----- The declarative reading -------------------------------------------

  /** The tools a token's name stands for. */
  function Named(reg: Registry, declared: set<string>, name: string): set<string> {
    if name == "all" || name == "full" then Advertisable(reg)
    else if name in declared then set n | n in Advertisable(reg) && name in reg[n].profiles
    else if name in Advertisable(reg) then {name}
    else {}
  }

  /** The token names something a client may select. */
  predicate Resolves(reg: Registry, declared: set<string>, name: string) {
    && !(name in reg && !reg[name].hidden && reg[name].privileged)
    && (name == "all" || name == "full" || Named(reg, declared, name) != {})
  }

  /** Some addition mentions tool, and no token after it does. */
  ghost predicate Selected(reg: Registry, declared: set<string>, toks: seq<Token>, tool: string) {
    exists i :: 0 <= i < |toks| && !toks[i].remove && tool in Named(reg, declared, toks[i].name) &&
      forall j :: i < j < |toks| ==> tool !in Named(reg, declared, toks[j].name)
  }

  lemma SelectedByLast(reg: Registry, declared: set<string>, toks: seq<Token>, t: Token, tool: string)
    ensures Selected(reg, declared, toks + [t], tool)
       <==> if tool in Named(reg, declared, t.name) then !t.remove else Selected(reg, declared, toks, tool)
  {
    var all := toks + [t];
    assert all[|toks|] == t;
    if tool !in Named(reg, declared, t.name) && Selected(reg, declared, toks, tool) {
      var i :| 0 <= i < |toks| && !toks[i].remove && tool in Named(reg, declared, toks[i].name) &&
        forall j :: i < j < |toks| ==> tool !in Named(reg, declared, toks[j].name);
      assert all[i] == toks[i];
    }
    if tool !in Named(reg, declared, t.name) && Selected(reg, declared, all, tool) {
      var i :| 0 <= i < |all| && !all[i].remove && tool in Named(reg, declared, all[i].name) &&
        forall j :: i < j < |all| ==> tool !in Named(reg, declared, all[j].name);
      assert toks[i] == all[i];
      assert forall j :: i < j < |toks| ==> all[j] == toks[j];
    }
  }

  /** Whatever the tokens, only advertisable tools are selected. */
  lemma OnlyAdvertisable(reg: Registry, declared: set<string>, toks: seq<Token>, tool: string)
    requires Selected(reg, declared, toks, tool)
    ensures tool in reg && !reg[tool].hidden && !reg[tool].privileged
  {
  }

  /** selected is exactly what the tokens select. */
  ghost predicate Means(reg: Registry, declared: set<string>, toks: seq<Token>, selected: set<string>) {
    && (forall i :: 0 <= i < |toks| ==> Resolves(reg, declared, toks[i].name))
    && (forall tool :: tool in selected <==> Selected(reg, declared, toks, tool))
  }

  /** The fold's step agrees with the declarative reading. */
  lemma StepMeans(reg: Registry, declared: set<string>, toks: seq<Token>, selected: set<string>, t: Token)
    requires Means(reg, declared, toks, selected) && Resolves(reg, declared, t.name)
    ensures Means(reg, declared, toks + [t],
                  if t.remove then selected - Named(reg, declared, t.name) else selected + Named(reg, declared, t.name))
  {
    forall tool
      ensures Selected(reg, declared, toks + [t], tool) <==>
              if tool in Named(reg, declared, t.name) then !t.remove else tool in selected
    {
      SelectedByLast(reg, declared, toks, t, tool);
    }
  }

  // ----- The loop ----------------------------------------------------------

  /** Token by token over the comma-separated pieces. A selection that fails
      has a token that names nothing selectable, or selects no tool. */
  method ResolveTools(reg: Registry, declared: set<string>, profile: string, tools: string) returns (r: Selection)
    ensures r.Everything? <==> Spec(profile, tools) == ""
    ensures r.Only? ==> r.tools != {} && Means(reg, declared, ParseTokens(Split(Spec(profile, tools))), r.tools)
    ensures r.Failed? ==> forall s :: Means(reg, declared, ParseTokens(Split(Spec(profile, tools))), s) ==> s == {}
  {
    var spec := Spec(profile, tools);
    if spec == "" {
      return Everything;
    }
    r := ResolvePieces(reg, declared, ParseToken, Split(spec));
  }

  /** The loop over the pieces of the list, each read as a token. */
  method ResolvePieces(reg: Registry, declared: set<string>, read: string -> Option<Token>, pieces: seq<string>) returns (r: Selection)
    ensures !r.Everything?
    ensures r.Only? ==> r.tools != {} && Means(reg, declared, ReadTokens(read, pieces), r.tools)
    ensures r.Failed? ==> forall s :: Means(reg, declared, ReadTokens(read, pieces), s) ==> s == {}
  {
    var selected := {};
    ghost var done: seq<Token> := [];
    for k := 0 to |pieces|
      invariant done == ReadTokens(read, pieces[..k])
      invariant Means(reg, declared, done, selected)
    {
      var tok := read(pieces[k]);
      assert pieces[..k + 1][..k] == pieces[..k];
      if tok.None? {
        continue;
      }
      var name, remove := tok.value.name, tok.value.remove;
      if !Resolves(reg, declared, name) {
        TokenIsThere(read, pieces, k);
        return Failed;
      }
      StepMeans(reg, declared, done, selected, tok.value);
      if remove {
        selected := selected - Named(reg, declared, name);
      } else {
        selected := selected + Named(reg, declared, name);
      }
      done := done + [tok.value];
    }
    assert pieces[..|pieces|] == pieces;
    r := if selected == {} then Failed else Only(selected);
  }

  lemma {:induction false} TokenIsThere(read: string -> Option<Token>, pieces: seq<string>, k: nat)
    requires k < |pieces| && read(pieces[k]).Some?
    ensures read(pieces[k]).value in ReadTokens(read, pieces)
    decreases |pieces|
  {
    if k < |pieces| - 1 {
      TokenIsThere(read, pieces[..|pieces| - 1], k);
    }
  }
}
