/** `ingest.decide`: parse, resolve, score and gate a text; and what it takes to execute. */
module Decision {
  import opened Wrappers
  import opened Alphabet
  import opened Parser
  import opened Resolver
  import opened Policy
  import EditDistance

  /** The document stored in `messages.parsed`. */
  datatype Doc = Doc(
    ok: bool, shortId: string, command: string, knownCommand: bool, target: string, targetKind: TargetKind,
    payload: string, idMatch: Option<MatchKind>, contactId: Option<Uuid>, alternatives: seq<Alt>,
    confidence: real, recall: bool, passthrough: bool, redacted: bool)

  const EMPTY_DOC := Doc(false, "", "", false, "", NoTarget, "", None, None, [], 0.0, false, false, false)

  datatype Verdict = Verdict(doc: Doc, action: Action, targetDesc: string)

  function ScoreInputOf(pr: ParseResult, kind: MatchKind): ScoreInput {
    ScoreInput(kind, pr.hasTarget, TargetUnresolved, pr.command != "", pr.knownCommand)
  }

  /** The verdict on a parse and its resolution. */
  function Judged(u: Unicode, pr: ParseResult, m: Match, th: Thresholds): Verdict {
    if !pr.ok then Verdict(EMPTY_DOC, Clarify, "")
    else
      var confidence := Confidence(ScoreInputOf(pr, m.kind));
      var kind := if pr.hasTarget then Target else NoTarget;
      Verdict(
        Doc(true, pr.shortId, pr.command, pr.knownCommand, pr.target, kind, pr.payload, Some(m.kind), m.contactId,
            m.alternatives, confidence, false, false, false),
        Decide(u, confidence, pr.command, kind, th),
        if pr.hasTarget then "@" + pr.target else pr.shortId)
  }

  function VerdictOn(u: Unicode, text: string, rows: seq<ContactRow>, cfg: Config, th: Thresholds): Verdict {
    var pr := Parsed(u, text, cfg);
    Judged(u, pr, Resolution(u, rows, pr.shortId), th)
  }

  /** `rows` is None when the address book cannot be listed; a text that does not parse
      never asks for it. */
  method DecideText(u: Unicode, text: string, rows: Option<seq<ContactRow>>, cfg: Config, th: Thresholds)
    returns (r: Result<Verdict, string>)
    ensures r.Err? <==> rows.None? && Parsed(u, text, cfg).ok
    ensures r.Ok? && rows.Some? ==> r.value == VerdictOn(u, text, rows.value, cfg, th)
    ensures r.Ok? && rows.None? ==> r.value == Verdict(EMPTY_DOC, Clarify, "")
  {
    var pr := Parse(u, text, cfg);
    if !pr.ok {
      return Ok(Verdict(EMPTY_DOC, Clarify, ""));
    }
    var doc := EMPTY_DOC.(ok := true, shortId := pr.shortId, command := pr.command,
                          knownCommand := pr.knownCommand, target := pr.target, payload := pr.payload);
    var targetDesc := pr.shortId;
    if pr.hasTarget {
      doc := doc.(targetKind := Target);
      targetDesc := "@" + pr.target;
    }
    if rows.None? {
      return Err("resolve short_id");
    }
    var m := Resolve(u, rows.value, pr.shortId);
    var confidence := Score(ScoreInputOf(pr, m.kind));
    doc := doc.(idMatch := Some(m.kind), contactId := m.contactId, alternatives := m.alternatives,
                confidence := confidence);
    var action := Decide(u, confidence, pr.command, doc.targetKind, th);
    return Ok(Verdict(doc, action, targetDesc));
  }

  // ----- What it takes to execute -----

  predicate IsHeldCommand(u: Unicode, command: string) {
    ToUpper(u, command) == "MISSING" || ToUpper(u, command) == "DAMAGE"
  }

  /** Some row's short id is within `k` edits of this one, letter case apart. */
  predicate ListedWithin(u: Unicode, rows: seq<ContactRow>, shortId: string, k: nat) {
    exists row <- rows :: EditDistance.Distance(ToLower(u, shortId), ToLower(u, row.shortId)) <= k
  }

  /** How sure a parsed text is, by the nearest row: exact, one edit, two edits, or farther. */
  function Standing(u: Unicode, rows: seq<ContactRow>, pr: ParseResult): real {
    var (exact, one, two) :=
      if pr.hasTarget then (0.2, 0.14, 0.1) else if pr.knownCommand then (1.0, 0.7, 0.5) else (0.8, 0.56, 0.4);
    if ListedWithin(u, rows, pr.shortId, 0) then exact
    else if ListedWithin(u, rows, pr.shortId, 1) then one
    else if ListedWithin(u, rows, pr.shortId, 2) then two
    else 0.0
  }

  /** The gate over all texts, address books and thresholds. Executed: an SOS, or what is not
      held back and stands at the high threshold. Echoed back: what is held back, or stands
      at the medium threshold only. Clarified: the rest, and whatever does not parse. */
  lemma DecidesExactly(u: Unicode, text: string, rows: seq<ContactRow>, cfg: Config, th: Thresholds)
    ensures var pr, action := Parsed(u, text, cfg), VerdictOn(u, text, rows, cfg, th).action;
            var sos, held := ToUpper(u, pr.command) == "SOS", ToUpper(u, pr.command) in {"MISSING", "DAMAGE"};
            var standing := Standing(u, rows, pr);
            && (action == Execute <==> pr.ok && (sos || (!held && standing >= th.high)))
            && (action == EchoBack <==> pr.ok && !sos && (held || th.medium <= standing < th.high))
            && (action == Clarify <==> !pr.ok || (!sos && !held && standing < th.high && standing < th.medium))
    ensures Parsed(u, text, cfg).ok ==>
              VerdictOn(u, text, rows, cfg, th).doc.confidence == Standing(u, rows, Parsed(u, text, cfg))
  {
    hide Parsed, Resolution, Standing, Judged, ToUpper;
    var pr := Parsed(u, text, cfg);
    var m := Resolution(u, rows, pr.shortId);
    if pr.ok {
      ParsedIsShaped(u, text, cfg);
      StandingIsConfidence(u, rows, pr);
      JudgedByGate(u, pr, m, th);
    } else {
      RejectedIsClarified(u, pr, m, th);
    }
  }

  lemma ParsedIsShaped(u: Unicode, text: string, cfg: Config)
    requires Parsed(u, text, cfg).ok
    ensures var pr := Parsed(u, text, cfg);
            if pr.hasTarget then pr.command == "" && !pr.knownCommand else pr.command != ""
  {
    ParsedShape(u, text, cfg);
  }

  lemma JudgedByGate(u: Unicode, pr: ParseResult, m: Match, th: Thresholds)
    requires pr.ok
    ensures var v, standing := Judged(u, pr, m, th), Confidence(ScoreInputOf(pr, m.kind));
            var sos, held := ToUpper(u, pr.command) == "SOS", ToUpper(u, pr.command) in {"MISSING", "DAMAGE"};
            && v.action == (if sos || (!held && standing >= th.high) then Execute
                            else if held || standing >= th.medium then EchoBack else Clarify)
            && v.doc.confidence == standing && v.doc.idMatch == Some(m.kind) && v.doc.contactId == m.contactId
            && pr == ParseResult(v.doc.ok, v.doc.shortId, v.doc.targetKind == Target, v.doc.target, v.doc.command,
                                 v.doc.knownCommand, v.doc.payload)
            && v.doc.targetKind != Group && !v.doc.recall && !v.doc.passthrough && !v.doc.redacted
            && v.targetDesc == if pr.hasTarget then "@" + pr.target else pr.shortId
  {
    hide Confidence, ToUpper, Decide;
    GateExactly(u, Confidence(ScoreInputOf(pr, m.kind)), pr.command, if pr.hasTarget then Target else NoTarget, th);
  }

  lemma StandingIsConfidence(u: Unicode, rows: seq<ContactRow>, pr: ParseResult)
    requires if pr.hasTarget then pr.command == "" && !pr.knownCommand else pr.command != ""
    ensures Confidence(ScoreInputOf(pr, Resolution(u, rows, pr.shortId).kind)) == Standing(u, rows, pr)
  {
    hide Resolution, ListedWithin;
    KindByDistance(u, rows, pr.shortId);
  }

  /** The match kind by the edit distances to all rows. */
  lemma KindByDistance(u: Unicode, rows: seq<ContactRow>, shortId: string)
    ensures var kind := Resolution(u, rows, shortId).kind;
            && (kind == Exact <==> ListedWithin(u, rows, shortId, 0))
            && (kind == Levenshtein1 <==> ListedWithin(u, rows, shortId, 1) && !ListedWithin(u, rows, shortId, 0))
            && (kind == Levenshtein2 <==> ListedWithin(u, rows, shortId, 2) && !ListedWithin(u, rows, shortId, 1))
            && (kind == NoMatch <==> !ListedWithin(u, rows, shortId, 2))
  {
    hide Suggestions, StableSort;
    if rows != [] {
      var k := Nearest(u, rows, shortId);
      assert rows[k] in rows;
      forall row <- rows ensures DistanceTo(u, shortId, rows[k]) <= DistanceTo(u, shortId, row) {
        var i :| 0 <= i < |rows| && rows[i] == row;
      }
    }
  }

  /** The stored document holds the whole parse, the match, and the first nearest contact if
      it is within two edits; and what is said to the sender names the target or the short id. */
  lemma DocumentHoldsAll(u: Unicode, text: string, rows: seq<ContactRow>, cfg: Config, th: Thresholds)
    requires Parsed(u, text, cfg).ok
    ensures var pr, v := Parsed(u, text, cfg), VerdictOn(u, text, rows, cfg, th);
            var doc := v.doc;
            && pr == ParseResult(doc.ok, doc.shortId, doc.targetKind == Target, doc.target, doc.command,
                                 doc.knownCommand, doc.payload)
            && doc.targetKind != Group && !doc.recall && !doc.passthrough && !doc.redacted
            && doc.idMatch.Some? && (doc.idMatch == Some(Exact) <==> ListedWithin(u, rows, pr.shortId, 0))
            && (doc.contactId.Some? <==> ListedWithin(u, rows, pr.shortId, 2))
            && (forall k: nat :: IsNearest(u, rows, pr.shortId, k) && doc.contactId.Some? ==>
                  doc.contactId == Some(rows[k].id))
            && v.targetDesc == if pr.hasTarget then "@" + pr.target else pr.shortId
  {
    hide Parsed, Confidence, ListedWithin, Resolution, Judged, IsNearest;
    var pr := Parsed(u, text, cfg);
    KindByDistance(u, rows, pr.shortId);
    ContactByNearest(u, rows, pr.shortId);
    JudgedByGate(u, pr, Resolution(u, rows, pr.shortId), th);
  }

  lemma ContactByNearest(u: Unicode, rows: seq<ContactRow>, shortId: string)
    ensures var m := Resolution(u, rows, shortId);
            && (m.contactId.Some? <==> m.kind != NoMatch)
            && forall k: nat :: IsNearest(u, rows, shortId, k) && m.contactId.Some? ==>
                 m.contactId == Some(rows[k].id)
  {
    hide Suggestions, StableSort, DistanceTo;
    forall k: nat | IsNearest(u, rows, shortId, k) && Resolution(u, rows, shortId).contactId.Some?
      ensures Resolution(u, rows, shortId).contactId == Some(rows[k].id)
    {
      NearestRowDecides(u, rows, shortId, k);
    }
  }

  /** Under a high threshold above 0.8, a text is executed exactly when it parses and is
      either an SOS, or an exact short id with a known command that is not held back, no
      target, and a threshold within reach. */
  lemma ExecutesExactlyWhen(u: Unicode, text: string, rows: seq<ContactRow>, cfg: Config, th: Thresholds)
    requires th.high > 0.8
    ensures var pr := Parsed(u, text, cfg);
            VerdictOn(u, text, rows, cfg, th).action == Execute <==>
            && pr.ok
            && (|| ToUpper(u, pr.command) == "SOS"
                || (&& (exists row <- rows :: ToLower(u, row.shortId) == ToLower(u, pr.shortId))
                    && pr.knownCommand && !pr.hasTarget && !IsHeldCommand(u, pr.command) && th.high <= 1.0))
  {
    hide Parsed, Resolution, DistanceTo, Judged;
    var pr := Parsed(u, text, cfg);
    if pr.ok {
      ParsedShape(u, text, cfg);
      JudgedExecutesWhen(u, pr, Resolution(u, rows, pr.shortId), th);
    } else {
      assert Judged(u, pr, Resolution(u, rows, pr.shortId), th).action == Clarify by {
        RejectedIsClarified(u, pr, Resolution(u, rows, pr.shortId), th);
      }
    }
    ExactMeansListed(u, rows, pr.shortId);
  }

  lemma RejectedIsClarified(u: Unicode, pr: ParseResult, m: Match, th: Thresholds)
    requires !pr.ok
    ensures Judged(u, pr, m, th) == Verdict(EMPTY_DOC, Clarify, "")
  {}

  lemma JudgedExecutesWhen(u: Unicode, pr: ParseResult, m: Match, th: Thresholds)
    requires th.high > 0.8 && pr.ok
    requires if pr.hasTarget then pr.command == "" && !pr.knownCommand else pr.command != ""
    ensures Judged(u, pr, m, th).action == Execute <==>
            (|| ToUpper(u, pr.command) == "SOS"
             || (&& m.kind == Exact && pr.knownCommand && !pr.hasTarget
                 && !IsHeldCommand(u, pr.command) && th.high <= 1.0))
  {
    var in_ := ScoreInputOf(pr, m.kind);
    ConfidenceOfUnresolved(in_);
    assert pr.hasTarget ==> |ToUpper(u, pr.command)| == 0;
  }

  /** With targets unresolved there is full confidence or at most 0.8. */
  lemma ConfidenceOfUnresolved(in_: ScoreInput)
    requires in_.targetMatch == TargetUnresolved
    ensures if in_.idMatch == Exact && !in_.hasTarget && (in_.hasCommand ==> in_.knownCommand)
            then Confidence(in_) == 1.0 else Confidence(in_) <= 0.8
  {}

  /** The 0.8 is tight: an unknown command to an exact short id is executed exactly when
      the high threshold is 0.8 or lower. */
  lemma UnknownCommandExecutesExactlyWhen(u: Unicode, pr: ParseResult, m: Match, th: Thresholds)
    requires pr.ok && !pr.hasTarget && pr.command != "" && !pr.knownCommand && m.kind == Exact
    requires ToUpper(u, pr.command) != "SOS" && !IsHeldCommand(u, pr.command)
    ensures Judged(u, pr, m, th).action == Execute <==> th.high <= 0.8
  {
    assert Confidence(ScoreInputOf(pr, m.kind)) == 0.8;
  }

  lemma ExactMeansListed(u: Unicode, rows: seq<ContactRow>, shortId: string)
    ensures Resolution(u, rows, shortId).kind == Exact <==>
            exists row <- rows :: ToLower(u, row.shortId) == ToLower(u, shortId)
  {
    hide DistanceTo;
    if rows != [] {
      var k := Nearest(u, rows, shortId);
      NearestRowDecides(u, rows, shortId, k);
      assert rows[k] in rows;
      if row :| row in rows && ToLower(u, row.shortId) == ToLower(u, shortId) {
        SameFoldIsDistanceZero(u, shortId, row);
        SameFoldIsDistanceZero(u, shortId, rows[k]);
      }
    }
  }

  /** A missing-person or damage report is never executed, whatever the address book says. */
  lemma HeldCommandsNeverExecute(u: Unicode, text: string, rows: seq<ContactRow>, cfg: Config, th: Thresholds)
    requires IsHeldCommand(u, Parsed(u, text, cfg).command)
    ensures VerdictOn(u, text, rows, cfg, th).action != Execute
  {
    hide Parsed, Resolution, Confidence;
  }

  /** With a nearer match for its short id, the same text is never given a lower action. */
  lemma NearerMatchNeverLowers(u: Unicode, pr: ParseResult, m: Match, m': Match, th: Thresholds)
    requires Closeness(m'.kind) <= Closeness(m.kind)
    ensures Level(Judged(u, pr, m, th).action) <= Level(Judged(u, pr, m', th).action)
  {
    hide Confidence, Decide, Level;
    CloserMatchScoresNoLess(ScoreInputOf(pr, m.kind), m'.kind);
    var kind := if pr.hasTarget then Target else NoTarget;
    MoreConfidenceNeverLowers(u, Confidence(ScoreInputOf(pr, m.kind)), Confidence(ScoreInputOf(pr, m'.kind)),
                              pr.command, kind, th);
  }

  lemma MoreContactsNoFarther(u: Unicode, shortId: string, rows: seq<ContactRow>, rows': seq<ContactRow>)
    requires forall row <- rows :: row in rows'
    ensures Closeness(Resolution(u, rows', shortId).kind) <= Closeness(Resolution(u, rows, shortId).kind)
  {
    hide DistanceTo, Suggestions, StableSort;
    if rows != [] {
      assert rows[0] in rows';
      var k, k' := Nearest(u, rows, shortId), Nearest(u, rows', shortId);
      assert rows[k] in rows';
      assert DistanceTo(u, shortId, rows'[k']) <= DistanceTo(u, shortId, rows[k]);
    }
  }

  /** Adding contacts to the address book never lowers the action a text is given. */
  lemma MoreContactsNeverLower(u: Unicode, text: string, rows: seq<ContactRow>, rows': seq<ContactRow>,
                               cfg: Config, th: Thresholds)
    requires forall row <- rows :: row in rows'
    ensures Level(VerdictOn(u, text, rows, cfg, th).action) <= Level(VerdictOn(u, text, rows', cfg, th).action)
  {
    hide Parsed, Judged, Resolution, Closeness, Level;
    var pr := Parsed(u, text, cfg);
    MoreContactsNoFarther(u, pr.shortId, rows, rows');
    NearerMatchNeverLowers(u, pr, Resolution(u, rows, pr.shortId), Resolution(u, rows', pr.shortId), th);
  }
}
