/** Which texts parse, and to what: the grammar stated on the text itself. */
module Grammar {
  import opened Alphabet
  import opened Parser

  /** A text taken apart: white space, a short id, white space, the rest, white space. */
  datatype Pieces = Pieces(lead: string, id: string, gap: string, rest: string, trail: string)

  ghost predicate IsTextOf(u: Unicode, p: Pieces, text: string) {
    && text == p.lead + (p.id + p.gap + p.rest) + p.trail
    && AllSpace(u, p.lead) && AllSpace(u, p.gap) && AllSpace(u, p.trail) && p.gap != ""
    && NoSpace(u, p.id) && 1 <= |p.id| <= 8 && (forall c <- p.id :: u.isLetter(c) || u.isDigit(c))
    && p.rest != "" && Trimmed(u, p.rest)
  }

  lemma PiecesReadBack(u: Unicode, p: Pieces, text: string, cfg: Config)
    requires IsTextOf(u, p, text)
    ensures Parsed(u, text, cfg) == ParsedRest(u, cfg, p.id, p.rest)
  {
    hide FirstToken, Trim, ParsedRest;
    var core := p.id + p.gap + p.rest;
    assert p.id[0] in p.id;
    assert core[|core| - 1] == p.rest[|p.rest| - 1];
    TrimOf(u, p.lead, core, p.trail);
    assert core == p.id + (p.gap + p.rest);
    FirstTokenOf(u, p.id, p.gap + p.rest);
    TrimOf(u, p.gap, p.rest, "");
    assert p.gap + p.rest + "" == p.gap + p.rest;
  }

  /** What trimming cuts off. */
  lemma TrimCuts(u: Unicode, s: string) returns (lead: string, trail: string)
    ensures s == lead + Trim(u, s) + trail && AllSpace(u, lead) && AllSpace(u, trail)
  {
    hide TrimLeft, TrimRight;
    var left := TrimLeft(u, s);
    var core := TrimRight(u, left);
    lead, trail := s[..|s| - |left|], left[|core|..];
    assert Trim(u, s) == core && left == core + trail && s == lead + left;
    hide Trim, AllSpace;
    assert lead + (core + trail) == lead + core + trail;
  }

  /** A text parses exactly when it is a short id of one to eight letters and digits and then
      something more, with white space between and around them. */
  lemma ParsesExactlyWhen(u: Unicode, text: string, cfg: Config)
    ensures Parsed(u, text, cfg).ok <==> exists p :: IsTextOf(u, p, text)
  {
    hide FirstToken, Trim, ParsedRest;
    forall p | IsTextOf(u, p, text) ensures Parsed(u, text, cfg).ok {
      PiecesReadBack(u, p, text, cfg);
      RestIsOk(u, cfg, p.id, p.rest);
    }
    if Parsed(u, text, cfg).ok {
      var lead, trail := TrimCuts(u, text);
      var (id, after) := FirstToken(u, Trim(u, text));
      var gap, end := TrimCuts(u, after);
      var rest := Trim(u, after);
      EndsTrimmed(u, Trim(u, text), id + gap + rest, end);
      var p := Pieces(lead, id, gap, rest, trail);
      GapIsThere(u, after, gap, rest);
      assert IsTextOf(u, p, text);
    }
  }

  lemma RestIsOk(u: Unicode, cfg: Config, id: string, rest: string)
    ensures ParsedRest(u, cfg, id, rest).ok
  {}

  lemma EndsTrimmed(u: Unicode, s: string, front: string, end: string)
    requires Trimmed(u, s) && s == front + end && AllSpace(u, end)
    ensures end == "" && s == front
  {}

  lemma GapIsThere(u: Unicode, after: string, gap: string, rest: string)
    requires gap + rest <= after && rest != "" && Trimmed(u, rest) && (after != "" ==> u.isSpace(after[0]))
    ensures gap != ""
  {}

  /** After the id, an arrow or a `to` in any letter case, then `@target`: the text names a
      target, and what follows it is the payload. */
  lemma TargetTexts(u: Unicode, p: Pieces, text: string, cfg: Config, arrow: string, gap: string, target: string,
                    after: string)
    requires IsTextOf(u, p, text) && !u.isSpace('@')
    requires p.rest == arrow + gap + ("@" + target + after)
    requires arrow == "→" || Map(u.fold, arrow) == Map(u.fold, "to")
    requires NoSpace(u, arrow) && AllSpace(u, gap) && gap != "" && NoSpace(u, target) && target != ""
    requires after != "" ==> u.isSpace(after[0])
    ensures Parsed(u, text, cfg) == ParseResult(true, p.id, true, target, "", false, Trim(u, after))
  {
    hide FirstToken, Trim;
    PiecesReadBack(u, p, text, cfg);
    var tail := "@" + target + after;
    assert tail[|tail| - 1] == p.rest[|p.rest| - 1];
    hide IsTextOf;
    TargetRest(u, cfg, p.id, p.rest, arrow, gap, target, after);
  }

  lemma TargetRest(u: Unicode, cfg: Config, id: string, rest: string, arrow: string, gap: string, target: string,
                   after: string)
    requires rest == arrow + gap + ("@" + target + after) && !u.isSpace('@')
    requires arrow == "→" || Map(u.fold, arrow) == Map(u.fold, "to")
    requires NoSpace(u, arrow) && AllSpace(u, gap) && gap != "" && NoSpace(u, target) && target != ""
    requires Trimmed(u, "@" + target + after) && (after != "" ==> u.isSpace(after[0]))
    ensures ParsedRest(u, cfg, id, rest) == ParseResult(true, id, true, target, "", false, Trim(u, after))
  {
    hide FirstToken, Trim, Map;
    var tgt := "@" + target;
    assert NoSpace(u, tgt);
    FirstTokenOf(u, arrow, gap + (tgt + after));
    assert rest == arrow + (gap + (tgt + after));
    TrimOf(u, gap, tgt + after, "");
    assert gap + (tgt + after) + "" == gap + (tgt + after);
    FirstTokenOf(u, tgt, after);
  }

  /** Otherwise the first token after the id is the command, upper-cased, and known if some
      configured command equals it up to case; the payload is what follows. */
  lemma CommandTexts(u: Unicode, p: Pieces, text: string, cfg: Config, command: string, after: string)
    requires IsTextOf(u, p, text)
    requires p.rest == command + after && NoSpace(u, command) && command != ""
    requires after != "" ==> u.isSpace(after[0])
    requires var isTo := command == "→" || Map(u.fold, command) == Map(u.fold, "to");
             isTo ==> |Trim(u, after)| < 2 || Trim(u, after)[0] != '@' || u.isSpace(Trim(u, after)[1])
    ensures var known := exists k <- cfg.commands :: Map(u.fold, k) == Map(u.fold, command);
            Parsed(u, text, cfg) ==
            ParseResult(true, p.id, false, "", Map(u.upper, command), known, Trim(u, after))
  {
    hide FirstToken, Trim;
    PiecesReadBack(u, p, text, cfg);
    FirstTokenOf(u, command, after);
    NoTarget(u, Trim(u, after));
  }

  lemma NoTarget(u: Unicode, s: string)
    ensures IsTarget(FirstToken(u, s).0) ==> |s| >= 2 && s[0] == '@' && !u.isSpace(s[1])
  {
    var (tok, rest) := FirstToken(u, s);
    if IsTarget(tok) {
      assert tok[1] in tok && s[1] == tok[1];
    }
  }
}
