/** The message grammar of `internal/parser`, and the proof that a successful parse can be
    printed and read back. */
module Parser {
  import opened Alphabet

  datatype Config = Config(commands: seq<string>)

  datatype ParseResult = ParseResult(
    ok: bool, shortId: string, hasTarget: bool, target: string,
    command: string, knownCommand: bool, payload: string)

  const REJECTED := ParseResult(false, "", false, "", "", false, "")

  // ----- strings.TrimSpace and strings.IndexFunc -----

  predicate NoSpace(u: Unicode, s: string) {
    forall c <- s :: !u.isSpace(c)
  }

  function TrimLeft(u: Unicode, s: string): (r: string)
    ensures |r| <= |s| && r == s[|s| - |r|..] && AllSpace(u, s[..|s| - |r|])
    ensures r != "" ==> !u.isSpace(r[0])
  {
    if s != "" && u.isSpace(s[0]) then TrimLeft(u, s[1..]) else s
  }

  function TrimRight(u: Unicode, s: string): (r: string)
    ensures |r| <= |s| && r == s[..|r|] && AllSpace(u, s[|r|..])
    ensures r != "" ==> !u.isSpace(r[|r| - 1])
  {
    if s != "" && u.isSpace(s[|s| - 1]) then TrimRight(u, s[..|s| - 1]) else s
  }

  /** Starts and ends with something other than white space. */
  predicate Trimmed(u: Unicode, s: string) {
    s != "" ==> !u.isSpace(s[0]) && !u.isSpace(s[|s| - 1])
  }

  function Trim(u: Unicode, s: string): (r: string)
    ensures Trimmed(u, r) && |r| <= |s|
  {
    TrimRight(u, TrimLeft(u, s))
  }

  /** The leading token and what follows it, white space included. */
  function FirstToken(u: Unicode, s: string): (r: (string, string))
    ensures r.0 + r.1 == s && NoSpace(u, r.0)
    ensures r.1 != "" ==> u.isSpace(r.1[0])
  {
    if s == "" || u.isSpace(s[0]) then ("", s)
    else
      var (tok, rest) := FirstToken(u, s[1..]);
      ([s[0]] + tok, rest)
  }

  // ----- The grammar -----

  predicate ValidShortId(u: Unicode, s: string) {
    1 <= |s| <= 8 && forall c <- s :: u.isLetter(c) || u.isDigit(c)
  }

  predicate ContainsFold(u: Unicode, set_: seq<string>, v: string) {
    exists s <- set_ :: EqualFold(u, s, v)
  }

  predicate IsArrow(u: Unicode, lead: string) {
    lead == "→" || EqualFold(u, lead, "to")
  }

  predicate IsTarget(tok: string) {
    |tok| > 1 && tok[0] == '@'
  }

  /** The result of a text that names a short id and says something after it. */
  function ParsedRest(u: Unicode, cfg: Config, shortId: string, rest: string): ParseResult {
    var (lead, afterLead) := FirstToken(u, rest);
    var (tgt, afterTgt) := FirstToken(u, Trim(u, afterLead));
    if IsArrow(u, lead) && IsTarget(tgt) then
      ParseResult(true, shortId, true, tgt[1..], "", false, Trim(u, afterTgt))
    else
      ParseResult(true, shortId, false, "", ToUpper(u, lead), ContainsFold(u, cfg.commands, lead), Trim(u, afterLead))
  }

  function Parsed(u: Unicode, text: string, cfg: Config): ParseResult {
    var (shortId, rest) := FirstToken(u, Trim(u, text));
    if !ValidShortId(u, shortId) then REJECTED
    else if Trim(u, rest) == "" then REJECTED.(shortId := shortId)
    else ParsedRest(u, cfg, shortId, Trim(u, rest))
  }

  // ----- The code -----

  method IsValidShortId(u: Unicode, s: string) returns (valid: bool)
    ensures valid == ValidShortId(u, s)
  {
    var n := 0;
    for i := 0 to |s|
      invariant n == i && forall c <- s[..i] :: u.isLetter(c) || u.isDigit(c)
    {
      var r := s[i];
      if !u.isLetter(r) && !u.isDigit(r) {
        assert r in s;
        return false;
      }
      n := n + 1;
    }
    assert s[..|s|] == s;
    return n >= 1 && n <= 8;
  }

  method HasFold(u: Unicode, set_: seq<string>, v: string) returns (found: bool)
    ensures found == ContainsFold(u, set_, v)
  {
    for i := 0 to |set_|
      invariant forall s <- set_[..i] :: !EqualFold(u, s, v)
    {
      if EqualFold(u, set_[i], v) {
        return true;
      }
    }
    assert set_[..|set_|] == set_;
    return false;
  }

  method Parse(u: Unicode, text: string, cfg: Config) returns (res: ParseResult)
    ensures res == Parsed(u, text, cfg)
  {
    hide FirstToken, Trim;
    var s := Trim(u, text);
    if s == "" {
      return REJECTED;
    }
    var (shortId, rest) := FirstToken(u, s);
    var valid := IsValidShortId(u, shortId);
    if !valid {
      return REJECTED;
    }
    rest := Trim(u, rest);
    if rest == "" {
      return REJECTED.(shortId := shortId);
    }
    res := REJECTED.(ok := true, shortId := shortId);
    var (lead, afterLead) := FirstToken(u, rest);
    if lead == "→" || EqualFold(u, lead, "to") {
      var (tgt, afterTgt) := FirstToken(u, Trim(u, afterLead));
      if tgt != "" && tgt[0] == '@' && |tgt| > 1 {
        return res.(hasTarget := true, target := tgt[1..], payload := Trim(u, afterTgt));
      }
    }
    var (cmd, afterCmd) := FirstToken(u, rest);
    var known := HasFold(u, cfg.commands, cmd);
    res := res.(command := ToUpper(u, cmd), knownCommand := known, payload := Trim(u, afterCmd));
  }

  // ----- Printing -----

  /** The white space a printed message uses: around it, and between its tokens. */
  datatype Spacing = Spacing(lead: string, afterId: string, afterTo: string, beforePayload: string, trail: string)

  predicate ValidSpacing(u: Unicode, w: Spacing) {
    && AllSpace(u, w.lead) && AllSpace(u, w.trail)
    && AllSpace(u, w.afterId) && w.afterId != ""
    && AllSpace(u, w.afterTo) && w.afterTo != ""
    && AllSpace(u, w.beforePayload) && w.beforePayload != ""
  }

  function PrintPayload(payload: string, w: Spacing): string {
    if payload == "" then "" else w.beforePayload + payload
  }

  function PrintRest(r: ParseResult, w: Spacing): string {
    (if r.hasTarget then "to" + w.afterTo + "@" + r.target else r.command) + PrintPayload(r.payload, w)
  }

  /** `ID to @target payload` or `ID CMD payload`, with any white space between. */
  function Print(r: ParseResult, w: Spacing): string {
    w.lead + (r.shortId + w.afterId + PrintRest(r, w)) + w.trail
  }

  // ----- Reading it back -----

  /** White space does not include the characters the grammar is written with, and
      upper-casing neither makes white space nor changes an upper-cased character. */
  ghost predicate Lawful(u: Unicode) {
    && !u.isSpace('t') && !u.isSpace('o') && !u.isSpace('@')
    && (forall c :: !u.isSpace(c) ==> !u.isSpace(u.upper(c)))
    && UpperIsIdempotent(u)
  }

  /** The command token as the sender typed it. */
  function TypedCommand(u: Unicode, text: string): string {
    FirstToken(u, Trim(u, FirstToken(u, Trim(u, text)).1)).0
  }

  /** Upper-casing the typed command leaves it as known as it was, and does not turn it
      into a `to` in front of something that reads as a target. */
  predicate SurvivesUpperCase(u: Unicode, cfg: Config, text: string) {
    var cmd := TypedCommand(u, text);
    var r := Parsed(u, text, cfg);
    r.hasTarget ||
    (&& ContainsFold(u, cfg.commands, ToUpper(u, cmd)) == ContainsFold(u, cfg.commands, cmd)
     && !(IsArrow(u, ToUpper(u, cmd)) && IsTarget(FirstToken(u, r.payload).0)))
  }

  lemma {:induction false} TrimLeftOf(u: Unicode, a: string, core: string)
    requires AllSpace(u, a) && (core != "" ==> !u.isSpace(core[0]))
    ensures TrimLeft(u, a + core) == core
  {
    if a == "" {
      assert a + core == core;
    } else {
      var s := a + core;
      assert a[0] in a && s[0] == a[0] && s[1..] == a[1..] + core;
      assert forall c <- a[1..] :: c in a;
      TrimLeftOf(u, a[1..], core);
    }
  }

  lemma {:induction false} TrimRightOf(u: Unicode, core: string, b: string)
    requires AllSpace(u, b) && (core != "" ==> !u.isSpace(core[|core| - 1]))
    ensures TrimRight(u, core + b) == core
    decreases |b|
  {
    if b == "" {
      assert core + b == core;
    } else {
      TrimRightOf(u, core, b[..|b| - 1]);
      assert (core + b)[..|core + b| - 1] == core + b[..|b| - 1];
    }
  }

  lemma TrimOf(u: Unicode, a: string, core: string, b: string)
    requires AllSpace(u, a) && AllSpace(u, b) && Trimmed(u, core) && core != ""
    ensures Trim(u, a + core + b) == core
  {
    assert a + core + b == a + (core + b);
    TrimLeftOf(u, a, core + b);
    TrimRightOf(u, core, b);
  }

  lemma {:induction false} FirstTokenOf(u: Unicode, tok: string, rest: string)
    requires NoSpace(u, tok) && (rest != "" ==> u.isSpace(rest[0]))
    ensures FirstToken(u, tok + rest) == (tok, rest)
  {
    if tok == "" {
      assert tok + rest == rest;
    } else {
      var s := tok + rest;
      assert tok[0] in tok && forall c <- tok[1..] :: c in tok;
      assert s[0] == tok[0] && s[1..] == tok[1..] + rest;
      FirstTokenOf(u, tok[1..], rest);
      assert [tok[0]] + tok[1..] == tok;
    }
  }

  /** What every successful parse leaves in its fields. */
  lemma ParsedShape(u: Unicode, text: string, cfg: Config)
    requires Parsed(u, text, cfg).ok
    ensures var r := Parsed(u, text, cfg);
            && ValidShortId(u, r.shortId) && NoSpace(u, r.shortId) && Trimmed(u, r.payload)
            && (if r.hasTarget then r.target != "" && NoSpace(u, r.target) && r.command == "" && !r.knownCommand
                else && r.target == "" && TypedCommand(u, text) != "" && NoSpace(u, TypedCommand(u, text))
                     && r.command == ToUpper(u, TypedCommand(u, text))
                     && r.knownCommand == ContainsFold(u, cfg.commands, TypedCommand(u, text)))
  {
    hide FirstToken, Trim;
    var rest := Trim(u, FirstToken(u, Trim(u, text)).1);
    var (lead, afterLead) := FirstToken(u, rest);
    var (tgt, afterTgt) := FirstToken(u, Trim(u, afterLead));
    assert lead != "";
    if IsArrow(u, lead) && IsTarget(tgt) {
      assert forall c <- tgt[1..] :: c in tgt;
    }
  }

  lemma UpperHasNoSpace(u: Unicode, s: string)
    requires Lawful(u) && NoSpace(u, s)
    ensures NoSpace(u, ToUpper(u, s)) && ToUpper(u, ToUpper(u, s)) == ToUpper(u, s)
  {}

  /** The payload comes back from its printed form. */
  lemma PayloadReadBack(u: Unicode, payload: string, w: Spacing)
    requires ValidSpacing(u, w) && Trimmed(u, payload)
    ensures Trim(u, PrintPayload(payload, w)) == payload
    ensures PrintPayload(payload, w) != "" ==> u.isSpace(PrintPayload(payload, w)[0])
  {
    if payload != "" {
      TrimOf(u, w.beforePayload, payload, "");
      assert w.beforePayload + payload + "" == w.beforePayload + payload;
    }
  }

  /** A token followed by a printed payload has no white space around it. */
  lemma TokenThenPayloadIsTrimmed(u: Unicode, tok: string, payload: string, w: Spacing)
    requires tok != "" && NoSpace(u, tok) && Trimmed(u, payload)
    ensures Trimmed(u, tok + PrintPayload(payload, w))
  {
    assert tok[0] in tok && tok[|tok| - 1] in tok;
  }

  /** The printed message reads as its short id followed by the printed rest. */
  lemma PrintedIdReadBack(u: Unicode, r: ParseResult, w: Spacing, cfg: Config)
    requires ValidSpacing(u, w) && ValidShortId(u, r.shortId) && NoSpace(u, r.shortId)
    requires PrintRest(r, w) != "" && Trimmed(u, PrintRest(r, w))
    ensures Parsed(u, Print(r, w), cfg) == ParsedRest(u, cfg, r.shortId, PrintRest(r, w))
  {
    hide FirstToken, Trim;
    var rest := PrintRest(r, w);
    var core := r.shortId + w.afterId + rest;
    assert r.shortId[0] in r.shortId;
    assert core[|core| - 1] == rest[|rest| - 1];
    TrimOf(u, w.lead, core, w.trail);
    assert core == r.shortId + (w.afterId + rest);
    FirstTokenOf(u, r.shortId, w.afterId + rest);
    TrimOf(u, w.afterId, rest, "");
    assert w.afterId + rest + "" == w.afterId + rest;
  }

  lemma PrintedTargetReadBack(u: Unicode, r: ParseResult, w: Spacing, cfg: Config)
    requires Lawful(u) && ValidSpacing(u, w)
    requires r.ok && r.hasTarget && r.target != "" && NoSpace(u, r.target) && r.command == "" && !r.knownCommand
    requires Trimmed(u, r.payload)
    ensures Trimmed(u, PrintRest(r, w)) && PrintRest(r, w) != ""
    ensures ParsedRest(u, cfg, r.shortId, PrintRest(r, w)) == r
  {
    hide FirstToken, Trim;
    var tgt := "@" + r.target;
    var tail := PrintPayload(r.payload, w);
    assert NoSpace(u, tgt);
    TokenThenPayloadIsTrimmed(u, tgt, r.payload, w);
    assert PrintRest(r, w) == "to" + (w.afterTo + (tgt + tail));
    assert PrintRest(r, w)[|PrintRest(r, w)| - 1] == (tgt + tail)[|tgt + tail| - 1];
    FirstTokenOf(u, "to", w.afterTo + (tgt + tail));
    TrimOf(u, w.afterTo, tgt + tail, "");
    assert w.afterTo + (tgt + tail) + "" == w.afterTo + (tgt + tail);
    PayloadReadBack(u, r.payload, w);
    FirstTokenOf(u, tgt, tail);
  }

  lemma PrintedCommandReadBack(u: Unicode, r: ParseResult, w: Spacing, cfg: Config, cmd: string)
    requires Lawful(u) && ValidSpacing(u, w)
    requires r.ok && !r.hasTarget && r.target == "" && Trimmed(u, r.payload)
    requires cmd != "" && NoSpace(u, cmd) && r.command == ToUpper(u, cmd)
    requires r.knownCommand == ContainsFold(u, cfg.commands, cmd)
    ensures Trimmed(u, PrintRest(r, w)) && PrintRest(r, w) != ""
    ensures ParsedRest(u, cfg, r.shortId, PrintRest(r, w)) == r <==>
            (&& ContainsFold(u, cfg.commands, ToUpper(u, cmd)) == ContainsFold(u, cfg.commands, cmd)
             && !(IsArrow(u, ToUpper(u, cmd)) && IsTarget(FirstToken(u, r.payload).0)))
  {
    hide FirstToken, Trim;
    UpperHasNoSpace(u, cmd);
    TokenThenPayloadIsTrimmed(u, r.command, r.payload, w);
    PayloadReadBack(u, r.payload, w);
    FirstTokenOf(u, r.command, PrintPayload(r.payload, w));
  }

  /** Every successful parse, printed with any white space, is read back as it was
      exactly when upper-casing its command is harmless. */
  lemma PrintThenParse(u: Unicode, text: string, cfg: Config, w: Spacing)
    requires Lawful(u) && ValidSpacing(u, w) && Parsed(u, text, cfg).ok
    ensures var r := Parsed(u, text, cfg);
            Parsed(u, Print(r, w), cfg) == r <==> SurvivesUpperCase(u, cfg, text)
  {
    var r := Parsed(u, text, cfg);
    ParsedShape(u, text, cfg);
    if r.hasTarget {
      PrintedTargetReadBack(u, r, w, cfg);
    } else {
      PrintedCommandReadBack(u, r, w, cfg, TypedCommand(u, text));
    }
    PrintedIdReadBack(u, r, w, cfg);
  }

  /** No character is folded away by upper-casing, and none becomes an arrow. */
  ghost predicate UpperKeepsFold(u: Unicode) {
    && (forall c :: u.fold(u.upper(c)) == u.fold(c))
    && (forall c :: u.upper(c) == '→' ==> c == '→')
  }

  /** In an alphabet where upper-casing keeps the fold of every character, every
      successful parse survives printing. */
  lemma PrintThenParseIsIdentity(u: Unicode, text: string, cfg: Config, w: Spacing)
    requires Lawful(u) && UpperKeepsFold(u) && ValidSpacing(u, w) && Parsed(u, text, cfg).ok
    ensures Parsed(u, Print(Parsed(u, text, cfg), w), cfg) == Parsed(u, text, cfg)
  {
    hide FirstToken, Trim;
    PrintThenParse(u, text, cfg, w);
    ParsedShape(u, text, cfg);
    var cmd := TypedCommand(u, text);
    assert Map(u.fold, ToUpper(u, cmd)) == Map(u.fold, cmd);
    if ToUpper(u, cmd) == "→" {
      assert u.upper(cmd[0]) == ToUpper(u, cmd)[0] == '→';
      assert cmd == "→";
    }
    if !Parsed(u, text, cfg).hasTarget {
      FallThroughHasNoTarget(u, text, cfg);
    }
  }

  /** A `to` or an arrow read as the command is not followed by a target. */
  lemma FallThroughHasNoTarget(u: Unicode, text: string, cfg: Config)
    requires Parsed(u, text, cfg).ok && !Parsed(u, text, cfg).hasTarget
    ensures !(IsArrow(u, TypedCommand(u, text)) && IsTarget(FirstToken(u, Parsed(u, text, cfg).payload).0))
  {
    hide FirstToken, Trim;
  }

  /** A dotless i: upper-casing it gives I, but simple folding keeps the two apart. */
  const DOTLESS := Unicode(
    c => c == ' ', c => c == 'I' || c == 'i' || c == 'ı', c => '0' <= c <= '9',
    c => if c == 'i' || c == 'ı' then 'I' else c,
    c => if c == 'I' then 'i' else c,
    c => if c == 'i' then 'I' else c)

  lemma DotlessCommandRead()
    ensures var cfg := Config(["I"]);
            && Parsed(DOTLESS, "1 ı", cfg) == ParseResult(true, "1", false, "", "I", false, "")
            && TypedCommand(DOTLESS, "1 ı") == "ı"
            && ContainsFold(DOTLESS, cfg.commands, "I") && !ContainsFold(DOTLESS, cfg.commands, "ı")
  {
    hide FirstToken, Trim;
    var u := DOTLESS;
    TrimOf(u, "", "1 ı", "");
    assert "" + "1 ı" + "" == "1 ı";
    FirstTokenOf(u, "1", " ı");
    TrimOf(u, " ", "ı", "");
    assert " " + "ı" + "" == " ı" && "1" + " ı" == "1 ı" && "ı" + "" == "ı";
    FirstTokenOf(u, "ı", "");
    assert Trim(u, "") == "";
    assert ToUpper(u, "ı") == "I";
    assert Map(u.fold, "I")[0] == 'I' && Map(u.fold, "ı")[0] == 'ı';
    assert |Map(u.fold, "to")| == 2 && |Map(u.fold, "ı")| == 1;
    assert "I" in Config(["I"]).commands;
  }

  /** With a dotless i as the command, the printed message is read back as a known command
      although the original was not. */
  lemma DotlessCommandIsNotReadBack(w: Spacing)
    requires ValidSpacing(DOTLESS, w)
    ensures Lawful(DOTLESS)
    ensures var r := Parsed(DOTLESS, "1 ı", Config(["I"]));
            r.ok && Parsed(DOTLESS, Print(r, w), Config(["I"])) != r
  {
    hide FirstToken, Trim, Parsed, Print;
    DotlessCommandRead();
    assert ToUpper(DOTLESS, "ı") == "I";
    PrintThenParse(DOTLESS, "1 ı", Config(["I"]), w);
  }
}
