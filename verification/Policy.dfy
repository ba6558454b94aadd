/** Confidence scoring and the policy gate of `internal/policy`. */
module Policy {
  import opened Alphabet
  import opened Resolver

  /** The values of `messages.policy_action`. The gate itself gives the first three. */
  datatype Action = Clarify | EchoBack | Execute | Routed | Recalled | EchoedBack | Sent

  datatype Thresholds = Thresholds(high: real, medium: real)

  datatype TargetMatch = TargetExact | TargetLevenshtein1 | TargetAmbiguous | TargetUnresolved

  datatype TargetKind = NoTarget | Target | Group

  datatype ScoreInput = ScoreInput(
    idMatch: MatchKind, hasTarget: bool, targetMatch: TargetMatch, hasCommand: bool, knownCommand: bool)

  // ----- Confidence is a product of independent factors -----

  function IdFactor(m: MatchKind): real {
    match m
    case Exact => 1.0
    case Levenshtein1 => 0.7
    case Levenshtein2 => 0.5
    case NoMatch => 0.0
  }

  function TargetFactor(hasTarget: bool, m: TargetMatch): real {
    if !hasTarget then 1.0
    else match m
      case TargetExact => 1.0
      case TargetLevenshtein1 => 0.6
      case TargetAmbiguous => 0.3
      case TargetUnresolved => 0.2
  }

  function CommandFactor(hasCommand: bool, knownCommand: bool): real {
    if hasCommand && !knownCommand then 0.8 else 1.0
  }

  function Confidence(in_: ScoreInput): (c: real)
    ensures 0.0 <= c <= 1.0
  {
    IdFactor(in_.idMatch) * TargetFactor(in_.hasTarget, in_.targetMatch)
    * CommandFactor(in_.hasCommand, in_.knownCommand)
  }

  method Score(in_: ScoreInput) returns (s: real)
    ensures s == Confidence(in_)
  {
    s := 1.0;
    match in_.idMatch {
      case Exact =>
      case Levenshtein1 => s := s * 0.7;
      case Levenshtein2 => s := s * 0.5;
      case NoMatch => return 0.0;
    }
    if in_.hasTarget {
      match in_.targetMatch {
        case TargetExact =>
        case TargetLevenshtein1 => s := s * 0.6;
        case TargetAmbiguous => s := s * 0.3;
        case TargetUnresolved => s := s * 0.2;
      }
    }
    if in_.hasCommand && !in_.knownCommand {
      s := s * 0.8;
    }
  }

  // ----- The gate -----

  function Decide(u: Unicode, confidence: real, command: string, kind: TargetKind, th: Thresholds): (a: Action)
    ensures a in {Clarify, EchoBack, Execute}
  {
    if ToUpper(u, command) == "SOS" then Execute
    else if kind == Group then EchoBack
    else if ToUpper(u, command) == "MISSING" || ToUpper(u, command) == "DAMAGE" then EchoBack
    else if confidence >= th.high then Execute
    else if confidence >= th.medium then EchoBack
    else Clarify
  }

  /** The gate, for every kind of target: an SOS is executed; a group, a missing-person and a
      damage report are echoed back; and the thresholds decide on the rest. */
  lemma GateExactly(u: Unicode, confidence: real, command: string, kind: TargetKind, th: Thresholds)
    ensures var action, sos := Decide(u, confidence, command, kind, th), ToUpper(u, command) == "SOS";
            var held := kind == Group || ToUpper(u, command) in {"MISSING", "DAMAGE"};
            && (action == Execute <==> sos || (!held && confidence >= th.high))
            && (action == EchoBack <==> !sos && (held || th.medium <= confidence < th.high))
            && (action == Clarify <==> !sos && !held && confidence < th.high && confidence < th.medium)
  {
    hide ToUpper;
  }

  /** What a target adds, on an exact short id with nothing else against it. */
  lemma TargetsScore(m: TargetMatch, hasCommand: bool)
    ensures var c := Confidence(ScoreInput(Exact, true, m, hasCommand, true));
            && (m == TargetExact <==> c == 1.0) && (m == TargetLevenshtein1 <==> c == 0.6)
            && (m == TargetAmbiguous <==> c == 0.3) && (m == TargetUnresolved <==> c == 0.2)
  {}

  /** Clarify, then echo back, then execute. */
  function Level(a: Action): nat {
    match a
    case Execute => 2
    case EchoBack => 1
    case _ => 0
  }

  /** Whatever the thresholds, more confidence never lowers the action. */
  lemma MoreConfidenceNeverLowers(u: Unicode, c: real, c': real, command: string, kind: TargetKind, th: Thresholds)
    requires c <= c'
    ensures Level(Decide(u, c, command, kind, th)) <= Level(Decide(u, c', command, kind, th))
  {}

  /** How near a match is, in edits; 3 for none. */
  function Closeness(m: MatchKind): nat {
    match m
    case Exact => 0
    case Levenshtein1 => 1
    case Levenshtein2 => 2
    case NoMatch => 3
  }

  lemma CloserMatchScoresNoLess(in_: ScoreInput, nearer: MatchKind)
    requires Closeness(nearer) <= Closeness(in_.idMatch)
    ensures Confidence(in_) <= Confidence(in_.(idMatch := nearer))
  {}

  /** The confirmation sent back to the sender; `decimal` prints a number. */
  function EchoText(decimal: int -> string, target: string, original: string, recallSeconds: int): string {
    var minutes := if recallSeconds < 120 then 1 else recallSeconds / 60;
    "[Forwarded to " + target + ": " + original + ". Reply 'OOPS' within " + decimal(minutes)
    + (if minutes == 1 then " minute" else " minutes") + " to recall.]"
  }
}
