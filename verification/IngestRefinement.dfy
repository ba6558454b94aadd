/** The ingest endpoint is the lifecycle's: whatever `Ingest.Service` may leave behind when
    it handles a message alone, the steps of one call leave behind too. So what holds over
    every interleaving of steps holds of the service's calls. */
module IngestRefinement {
  import opened Wrappers
  import opened Policy
  import opened Decision
  import opened Canonical
  import opened Forwarding
  import opened Messages
  import opened Store
  import Ingest
  import opened Lifecycle
  import opened LifecycleInvariants
  import opened LifecycleSteps
  import opened LifecycleSafety

  /** A job the service starts, as the step system has it; `newId` is the row that was
      stored for the message. */
  function JobOf(j: Ingest.Job, newId: Uuid): Job {
    match j
    case ForwardJob(id, _, _) => Forward(id, Trying)
    case ReplyJob(account, _, inReplyTo, _, _, _) => Reply(newId, inReplyTo, account, false)
  }

  /** The state mirrors the change: its table; the very job started, if one was; the call
      answered as the service answered; and nothing else but the log of recalls. */
  ghost predicate Mirrors(s: State, s': State, c: nat, job: nat, newId: Uuid, change: Ingest.Change) {
    && s'.db.table == change.t'
    && (if change.jobs' == change.jobs then s'.jobs == s.jobs
        else
          && |change.jobs'| == |change.jobs| + 1 && change.jobs <= change.jobs'
          && s'.jobs == s.jobs[job := JobOf(change.jobs'[|change.jobs|], newId)])
    && c in s'.calls && s'.calls == s.calls[c := s'.calls[c]] && s'.calls[c].phase == Answered(change.r.Ok?)
    && s' == s.(db := s'.db, jobs := s'.jobs, calls := s'.calls, recalledBy := s'.recalledBy)
  }

  /** The service starts just the job the row calls for. */
  predicate Starts(row: Row, hasConsumer: bool, started: seq<Ingest.Job>)
    requires row.account.Some?
  {
    match JobFor(row, hasConsumer)
    case None => started == []
    case Some(job) => |started| == 1 && JobOf(started[0], row.id) == job
  }

  /** A call about to store `row`, in a state as the service finds it. */
  ghost predicate Ready(s: State, c: nat, row: Row, job: nat, change: Ingest.Change) {
    && s.db.table == change.t && c in s.calls && MayStore(s, s.calls[c], row) && job !in s.jobs
    && row.id !in s.db.born
    && row.account == Some(s.calls[c].msg.account) && row.platformId == s.calls[c].msg.platformId
  }

  /** Storing a row once: stored, found stored, or failed with or without effect. */
  lemma StoringIsSteps(s: State, c: nat, row: Row, job: nat, hasConsumer: bool, change: Ingest.Change,
                       started: seq<Ingest.Job>)
    returns (steps: seq<Step>, s': State)
    requires Ready(s, c, row, job, change) && row.action != Recalled && Ingest.Ingested(change, row, started)
    requires row.account.Some? && Starts(row, hasConsumer, started)
    ensures Leads(s, steps, s') && Mirrors(s, s', c, job, row.id, change)
  {
    hide IsRowFor, KeyTaken;
    if change.r.Ok? && !change.r.value.isReplay {
      var store := StoreRow(c, row, job, hasConsumer);
      s' := ApplyCall(s, store);
      steps := [CallStep(store)];
      StoredHere(s, c, row, job, hasConsumer, change, started);
      LeadsOn(s, CallStep(store), [], s');
    } else {
      steps, s' := NotStoringIsSteps(s, c, row, job, change);
    }
  }

  lemma StoredHere(s: State, c: nat, row: Row, job: nat, hasConsumer: bool, change: Ingest.Change,
                   started: seq<Ingest.Job>)
    requires Ready(s, c, row, job, change) && row.action != Recalled && Ingest.Ingested(change, row, started)
    requires row.account.Some? && Starts(row, hasConsumer, started)
    requires change.r.Ok? && !change.r.value.isReplay
    ensures Mirrors(s, AfterStore(s, c, row, job, hasConsumer), c, job, row.id, change)
  {
    hide IsRowFor, KeyTaken;
    if started != [] {
      assert change.jobs' == change.jobs + started;
      assert |change.jobs'| != |change.jobs|;
    }
  }

  /** A redelivery, or a failure. */
  lemma NotStoringIsSteps(s: State, c: nat, row: Row, job: nat, change: Ingest.Change)
    returns (steps: seq<Step>, s': State)
    requires Ready(s, c, row, job, change) && change.jobs' == change.jobs
    requires change.r.Err? ==> Ingest.StoredAtMost(change.t, change.t', row)
    requires change.r.Ok? ==> change.t' == change.t && change.r.value.messageId in change.t
                              && HasKey(change.t[change.r.value.messageId], row.account.value, row.platformId)
    ensures Leads(s, steps, s') && Mirrors(s, s', c, job, row.id, change)
  {
    hide IsRowFor, Leads;
    if change.r.Ok? {
      assert KeyTaken(s.db.table, row.account.value, row.platformId);
      hide KeyTaken;
      steps, s' := RedeliveryIsSteps(s, c, row, job, change);
    } else {
      hide KeyTaken;
      var last := if change.t' == change.t then Fail(c) else StoreLost(c, row);
      s' := ApplyCall(s, last);
      NoSteps(s');
      LeadsOn(s, CallStep(last), [], s');
      steps := [CallStep(last)] + [];
    }
  }

  lemma RedeliveryIsSteps(s: State, c: nat, row: Row, job: nat, change: Ingest.Change)
    returns (steps: seq<Step>, s': State)
    requires Ready(s, c, row, job, change) && change.jobs' == change.jobs && change.r.Ok? && change.t' == change.t
    requires KeyTaken(s.db.table, row.account.value, row.platformId)
    ensures Leads(s, steps, s') && Mirrors(s, s', c, job, row.id, change)
  {
    hide IsRowFor, Leads, KeyTaken;
    var store, find := StoreRow(c, row, job, false), FindExisting(c);
    var s1 := Advance(s, c, KeyHeld);
    s' := Advance(s1, c, Answered(true));
    assert s' == Advance(s, c, Answered(true));
    assert ApplyCall(s, store) == s1 && ApplyCall(s1, find) == s';
    hide ApplyCall, Advance;
    NoSteps(s');
    LeadsOn(s1, CallStep(find), [], s');
    LeadsOn(s, CallStep(store), [CallStep(find)] + [], s');
    steps := [CallStep(store)] + ([CallStep(find)] + []);
  }

  // ----- The whole call -----

  /** A state that has the service's table, account and an unused call, job and row id. */
  ghost predicate Fits(s: State, c: nat, job: nat, account: Uuid, acct: Account, env: Ingest.Reads,
                       change: Ingest.Change)
  {
    && s.db.table == change.t && account in s.accounts && s.accounts[account] == acct
    && c !in s.calls && job !in s.jobs && env.newId !in s.db.born
  }

  function MsgOf(account: Uuid, m: Message): Msg {
    Msg(account, m.platformId, TextOrNull(m.endpoint))
  }

  lemma RowFits(s: State, d: Ingest.Deps, account: Uuid, m: Message, channel: Option<Uuid>, doc: Doc, action: Action,
                id: Uuid, now: int)
    requires account in s.accounts && id !in s.db.born
    ensures IsRowFor(s, InboundRow(d.codec, account, s.accounts[account].tenant, channel, m, doc, action, id, now),
                     MsgOf(account, m))
    ensures IsRowFor(s, Ingest.RecallRow(d, account, s.accounts[account].tenant, m, action, id, now), MsgOf(account, m))
  {}

  /** Handling a message that is not an OOPS, or an OOPS that found no echo. */
  lemma PlainIsSteps(s: State, c: nat, job: nat, account: Uuid, acct: Account, m: Message, env: Ingest.Reads,
                     change: Ingest.Change, row: Row, hasConsumer: bool, started: seq<Ingest.Job>)
    returns (steps: seq<Step>, s': State)
    requires Fits(s, c, job, account, acct, env, change)
    requires IsRowFor(s, row, MsgOf(account, m)) && row.action in {Clarify, EchoBack, Execute, Routed}
    requires Ingest.Ingested(change, row, started)
    requires row.account.Some? && Starts(row, hasConsumer, started)
    ensures Leads(s, steps, s') && Mirrors(s, s', c, job, row.id, change)
  {
    var begin := Begin(c, MsgOf(account, m));
    var s1 := ApplyCall(s, begin);
    var rest;
    rest, s' := StoringIsSteps(s1, c, row, job, hasConsumer, change, started);
    LeadsOn(s, CallStep(begin), rest, s');
    steps := [CallStep(begin)] + rest;
  }

  /** An OOPS that found an echo. */
  lemma RecallIsSteps(s: State, c: nat, job: nat, account: Uuid, acct: Account, m: Message, env: Ingest.Reads,
                      change: Ingest.Change, cutoff: int, echo: Uuid, row: Row, ack: Ingest.Job)
    returns (steps: seq<Step>, s': State)
    requires Fits(s, c, job, account, acct, env, change)
    requires IsRowFor(s, row, MsgOf(account, m)) && row.action == Recalled
    requires IsRecentEcho(change.t, account, TextOrNull(m.endpoint), cutoff, echo)
    requires if change.r.Ok? && !change.r.value.isReplay then
               row.id !in change.t && !KeyTaken(change.t, account, m.platformId)
               && Ingest.RecallMarked(change.t, change.t', change.jobs, change.jobs', row, echo, ack,
                                      change.faulty)
               && JobOf(ack, row.id) == Reply(row.id, echo, account, false)
             else Ingest.Ingested(change, row, [])
    ensures Leads(s, steps, s') && Mirrors(s, s', c, job, row.id, change)
  {
    hide IsRowFor, KeyTaken, IsRecentEcho, Leads, Ingest.RecallMarked, JobOf, Mirrors;
    var begin, find := Begin(c, MsgOf(account, m)), FindEcho(c, cutoff, Some(echo));
    var s1 := ApplyCall(s, begin);
    var s2 := ApplyCall(s1, find);
    SameLogSameFit(s, s2, row, MsgOf(account, m));
    var rest;
    if change.r.Ok? && !change.r.value.isReplay {
      rest, s' := MarkingIsSteps(s2, c, job, change, echo, row, ack);
    } else {
      rest, s' := NotStoringIsSteps(s2, c, row, job, change);
    }
    MirrorsBefore(s, s2, s', c, job, row.id, change);
    LeadsOn(s1, CallStep(find), rest, s');
    LeadsOn(s, CallStep(begin), [CallStep(find)] + rest, s');
    steps := [CallStep(begin)] + ([CallStep(find)] + rest);
  }

  /** The call itself is not part of what is mirrored. */
  lemma MirrorsBefore(s: State, s1: State, s': State, c: nat, job: nat, newId: Uuid, change: Ingest.Change)
    requires Mirrors(s1, s', c, job, newId, change) && c in s1.calls && s1 == s.(calls := s.calls[c := s1.calls[c]])
    ensures Mirrors(s, s', c, job, newId, change)
  {}

  lemma SameLogSameFit(s: State, s': State, row: Row, m: Msg)
    requires IsRowFor(s, row, m) && s'.db == s.db && s'.accounts == s.accounts
    ensures IsRowFor(s', row, m)
    ensures row.id !in s.db.born && row.account == Some(m.account) && row.platformId == m.platformId
  {}

  lemma MarkingIsSteps(s: State, c: nat, job: nat, change: Ingest.Change, echo: Uuid, row: Row, ack: Ingest.Job)
    returns (steps: seq<Step>, s': State)
    requires Ready(s, c, row, job, change) && row.action == Recalled && s.calls[c].phase == Looked(Some(echo))
    requires change.r.Ok? && !KeyTaken(change.t, row.account.value, row.platformId)
    requires Ingest.RecallMarked(change.t, change.t', change.jobs, change.jobs', row, echo, ack,
                                 change.faulty)
    requires JobOf(ack, row.id) == Reply(row.id, echo, s.calls[c].msg.account, false)
    ensures Leads(s, steps, s') && Mirrors(s, s', c, job, row.id, change)
  {
    hide IsRowFor, KeyTaken, MarkRecalled, JobOf, AfterStore, AfterMark, Mirrors, Leads;
    var o := MarkOutcome(change, row, echo, ack);
    var store, mark := StoreRow(c, row, job, false), MarkEcho(c, o, job);
    var s1 := AfterStore(s, c, row, job, false);
    StoredOops(s, c, row, job, change, echo);
    s' := AfterMark(s1, c, o, job);
    MarkedHere(s, s1, c, job, change, row, echo, ack, o);
    NoSteps(s');
    LeadsOn(s1, CallStep(mark), [], s');
    assert [CallStep(mark)] + [] == [CallStep(mark)];
    LeadsOn(s, CallStep(store), [CallStep(mark)], s');
    steps := [CallStep(store)] + [CallStep(mark)];
  }

  /** How the marking went, by what it left. */
  lemma MarkOutcome(change: Ingest.Change, row: Row, echo: Uuid, ack: Ingest.Job) returns (o: Outcome)
    requires Ingest.RecallMarked(change.t, change.t', change.jobs, change.jobs', row, echo, ack,
                                 change.faulty)
    ensures var t := change.t[row.id := row]; change.t' == if o == FailsBefore then t else MarkRecalled(t, echo)
    ensures change.jobs' == if o == Done then change.jobs + [ack] else change.jobs
  {
    hide MarkRecalled;
    var t := change.t[row.id := row];
    o := if change.jobs' != change.jobs then Done else if change.t' == t then FailsBefore else FailsAfter;
    assert |change.jobs + [ack]| != |change.jobs|;
  }

  /** The state once the OOPS is stored. */
  ghost predicate OopsStored(s: State, s1: State, c: nat, row: Row, echo: Uuid) {
    && s1.db.table == s.db.table[row.id := row] && c in s.calls
    && s1 == s.(db := s1.db, calls := s.calls[c := s.calls[c].(phase := Marking(row.id, echo))])
  }

  lemma StoredOops(s: State, c: nat, row: Row, job: nat, change: Ingest.Change, echo: Uuid)
    requires Ready(s, c, row, job, change) && row.action == Recalled && s.calls[c].phase == Looked(Some(echo))
    requires !KeyTaken(change.t, row.account.value, row.platformId)
    ensures OopsStored(s, AfterStore(s, c, row, job, false), c, row, echo)
  {
    hide IsRowFor, KeyTaken;
  }

  lemma MarkedHere(s: State, s1: State, c: nat, job: nat, change: Ingest.Change, row: Row, echo: Uuid, ack: Ingest.Job,
                   o: Outcome)
    requires s.db.table == change.t && job !in s.jobs && OopsStored(s, s1, c, row, echo) && change.r.Ok?
    requires var t := change.t[row.id := row];
             change.t' == if o == FailsBefore then t else MarkRecalled(t, echo)
    requires JobOf(ack, row.id) == Reply(row.id, echo, s1.calls[c].msg.account, false)
    requires change.jobs' == if o == Done then change.jobs + [ack] else change.jobs
    ensures Mirrors(s, AfterMark(s1, c, o, job), c, job, row.id, change)
  {
    hide MarkRecalled;
  }

  /** Every outcome of handling a message alone is reached by steps of one call. */
  lemma HandledIsSteps(s: State, c: nat, job: nat, d: Ingest.Deps, account: Uuid, acct: Account, m: Message,
                       env: Ingest.Reads, change: Ingest.Change)
    requires Fits(s, c, job, account, acct, env, change)
    requires Ingest.Handled(d, account, acct, m, env, change)
    ensures exists steps, s' :: Leads(s, steps, s') && Mirrors(s, s', c, job, env.newId, change)
  {
    var ch := Ingest.ResolveChannel(d, env.channel);
    hide Ingest.ResolveChannel, Ingest.IsRecallWord;
    hide Ingest.RecallOutcome, Ingest.PassthroughOutcome, Ingest.StructuredOutcome, Leads, Mirrors;
    if Ingest.IsRecallWord(d.u, Text(m)) {
      var steps, s' := OopsIsSteps(s, c, job, d, account, acct, m, ch.recallSeconds, env, change);
    } else if ch.mode == Ingest.Passthrough {
      var steps, s' := PassthroughIsSteps(s, c, job, d, account, acct, m, ch, env, change);
    } else {
      var steps, s' := StructuredIsSteps(s, c, job, d, account, acct, m, ch, env, change);
    }
  }

  lemma OopsIsSteps(s: State, c: nat, job: nat, d: Ingest.Deps, account: Uuid, acct: Account, m: Message,
                    recallSeconds: int, env: Ingest.Reads, change: Ingest.Change)
    returns (steps: seq<Step>, s': State)
    requires Fits(s, c, job, account, acct, env, change)
    requires Ingest.RecallOutcome(d, account, acct, m, recallSeconds, env, change)
    ensures Leads(s, steps, s') && Mirrors(s, s', c, job, env.newId, change)
  {
    RecallJobIs(d, account, acct.tenant, m.endpoint);
    hide Ingest.RecallRow, Ingest.Ingested, Ingest.RecallMarked, Ingest.RecallJob, JobOf, Leads, Mirrors;
    hide KeyTaken, NoRecentEcho;
    var cutoff := env.cutoffNow - recallSeconds;
    var plain := Ingest.RecallRow(d, account, acct.tenant, m, Clarify, env.newId, env.storedNow);
    RowFits(s, d, account, m, None, EMPTY_DOC, Clarify, env.newId, env.storedNow);
    RowFits(s, d, account, m, None, EMPTY_DOC, Recalled, env.newId, env.storedNow);
    RecallRowIs(d, account, acct.tenant, m, Clarify, env);
    RecallRowIs(d, account, acct.tenant, m, Recalled, env);
    if Ingest.Ingested(change, plain, []) {
      steps, s' := PlainIsSteps(s, c, job, account, acct, m, env, change, plain, false, []);
    } else {
      var row := Ingest.RecallRow(d, account, acct.tenant, m, Recalled, env.newId, env.storedNow);
      var echo :|
        && IsRecentEcho(change.t, account, TextOrNull(m.endpoint), cutoff, echo)
        && if change.r.Ok? && !change.r.value.isReplay then
             && row.id !in change.t && !KeyTaken(change.t, account, m.platformId)
             && change.r == Ok(Ingest.IngestResult(row.id, false, Recalled))
             && var ack := Ingest.RecallJob(d, account, acct.tenant, m.endpoint, echo, change.t[echo].bodyText);
                Ingest.RecallMarked(change.t, change.t', change.jobs, change.jobs', row, echo, ack,
                                    change.faulty)
           else Ingest.Ingested(change, row, []);
      steps, s' := RecallIsSteps(s, c, job, account, acct, m, env, change, cutoff, echo, row,
                                 Ingest.RecallJob(d, account, acct.tenant, m.endpoint, echo, change.t[echo].bodyText));
    }
  }

  lemma RecallJobIs(d: Ingest.Deps, account: Uuid, tenant: Uuid, to: string)
    ensures forall echo, text, oops ::
              JobOf(Ingest.RecallJob(d, account, tenant, to, echo, text), oops) == Reply(oops, echo, account, false)
  {}

  lemma RecallRowIs(d: Ingest.Deps, account: Uuid, tenant: Uuid, m: Message, action: Action, env: Ingest.Reads)
    ensures var row := Ingest.RecallRow(d, account, tenant, m, action, env.newId, env.storedNow);
            && row.action == action && row.id == env.newId
            && row.account == Some(account) && row.platformId == m.platformId
  {}

  lemma PassthroughIsSteps(s: State, c: nat, job: nat, d: Ingest.Deps, account: Uuid, acct: Account, m: Message,
                           ch: Ingest.ChannelCtx, env: Ingest.Reads, change: Ingest.Change)
    returns (steps: seq<Step>, s': State)
    requires Fits(s, c, job, account, acct, env, change)
    requires Ingest.PassthroughOutcome(d, account, acct, m, ch, env, change)
    ensures Leads(s, steps, s') && Mirrors(s, s', c, job, env.newId, change)
  {
    hide InboundRow, Ingest.Ingested, LivePayload, Leads, Mirrors;
    var doc := Ingest.PassthroughDoc(Text(m));
    var row := InboundRow(d.codec, account, acct.tenant, ch.id, m, doc, Routed, env.newId, env.storedNow);
    RowFits(s, d, account, m, ch.id, doc, Routed, env.newId, env.storedNow);
    steps, s' := PlainIsSteps(s, c, job, account, acct, m, env, change, row, ch.workflowUrl != "" && d.hasForwarder,
                              Ingest.ForwardJobs(d, account, acct, ch, m, doc, env.newId, env.payloadNow));
  }

  lemma StructuredIsSteps(s: State, c: nat, job: nat, d: Ingest.Deps, account: Uuid, acct: Account, m: Message,
                          ch: Ingest.ChannelCtx, env: Ingest.Reads, change: Ingest.Change)
    returns (steps: seq<Step>, s': State)
    requires Fits(s, c, job, account, acct, env, change)
    requires Ingest.StructuredOutcome(d, account, acct, m, ch, env, change)
    ensures Leads(s, steps, s') && Mirrors(s, s', c, job, env.newId, change)
  {
    var v := Ingest.VerdictOf(d, m, ch, env);
    assert v.action in {Clarify, EchoBack, Execute};
    hide InboundRow, Ingest.Ingested, LivePayload, Leads, Mirrors, Ingest.VerdictOf, EchoText;
    RowFits(s, d, account, m, ch.id, v.doc, v.action, env.newId, env.storedNow);
    var row := InboundRow(d.codec, account, acct.tenant, ch.id, m, v.doc, v.action, env.newId, env.storedNow);
    if Ingest.Ingested(change, row, Ingest.StructuredJobs(d, account, acct, ch, m, v, env.newId, env.payloadNow)) {
      steps, s' := PlainIsSteps(s, c, job, account, acct, m, env, change, row, ch.workflowUrl != "" && d.hasForwarder,
                                Ingest.StructuredJobs(d, account, acct, ch, m, v, env.newId, env.payloadNow));
    } else {
      steps, s' := RejectionIsSteps(s, c, job, account, acct, m, env, change);
    }
  }

  lemma RejectionIsSteps(s: State, c: nat, job: nat, account: Uuid, acct: Account, m: Message, env: Ingest.Reads,
                         change: Ingest.Change)
    returns (steps: seq<Step>, s': State)
    requires Fits(s, c, job, account, acct, env, change)
    requires change.r.Err? && change.t' == change.t && change.jobs' == change.jobs
    ensures Leads(s, steps, s') && Mirrors(s, s', c, job, env.newId, change)
  {
    var begin := Begin(c, MsgOf(account, m));
    var s1 := ApplyCall(s, begin);
    s' := ApplyCall(s1, Fail(c));
    LeadsOn(s1, CallStep(Fail(c)), [], s');
    LeadsOn(s, CallStep(begin), [CallStep(Fail(c))], s');
    steps := [CallStep(begin)] + [CallStep(Fail(c))];
  }

  // ----- What holds over runs holds of the service -----

  /** `run'` goes on from `run` to this table, with no further acknowledgement. */
  ghost predicate GoesOnTo(run: seq<State>, steps: seq<Step>, run': seq<State>, steps': seq<Step>, t': Table)
    requires run != []
  {
    && IsRun(run', steps') && run <= run' && steps <= steps'
    && run'[|run'| - 1].db.table == t' && run'[|run'| - 1].acks == run[|run| - 1].acks
  }

  /** A call of the service on the table a run has come to goes on as a run. */
  lemma ServiceGoesOn(run: seq<State>, steps: seq<Step>, c: nat, job: nat, d: Ingest.Deps, account: Uuid, acct: Account,
                      m: Message, env: Ingest.Reads, change: Ingest.Change)
    requires IsRun(run, steps) && Fits(run[|run| - 1], c, job, account, acct, env, change)
    requires Ingest.Handled(d, account, acct, m, env, change)
    ensures exists run', steps' :: GoesOnTo(run, steps, run', steps', change.t')
  {
    hide Ingest.Handled, Fits, IsRun, Leads, GoesOnTo;
    assert run != [] by {
      RunLength(run, steps);
    }
    var last := run[|run| - 1];
    var more, s' := ServiceLeads(last, c, job, d, account, acct, m, env, change);
    StepsGoOn(run, steps, more, s');
  }

  lemma ServiceLeads(s: State, c: nat, job: nat, d: Ingest.Deps, account: Uuid, acct: Account, m: Message,
                     env: Ingest.Reads, change: Ingest.Change)
    returns (more: seq<Step>, s': State)
    requires Fits(s, c, job, account, acct, env, change) && Ingest.Handled(d, account, acct, m, env, change)
    ensures Leads(s, more, s') && s'.db.table == change.t' && s'.acks == s.acks
  {
    hide Ingest.Handled, Fits, Leads, Mirrors;
    HandledIsSteps(s, c, job, d, account, acct, m, env, change);
    more, s' :| Leads(s, more, s') && Mirrors(s, s', c, job, env.newId, change);
    MirrorsTable(s, s', c, job, env.newId, change);
  }

  lemma StepsGoOn(run: seq<State>, steps: seq<Step>, more: seq<Step>, s': State)
    requires IsRun(run, steps) && Leads(run[|run| - 1], more, s') && s'.acks == run[|run| - 1].acks
    ensures exists run', steps' :: GoesOnTo(run, steps, run', steps', s'.db.table)
  {
    RunGoesOn(run, steps, more, s');
    hide IsRun, Leads;
    var run' :| IsRun(run', steps + more) && run <= run' && run'[|run'| - 1] == s';
    assert GoesOnTo(run, steps, run', steps + more, s'.db.table);
  }

  lemma MirrorsTable(s: State, s': State, c: nat, job: nat, newId: Uuid, change: Ingest.Change)
    requires Mirrors(s, s', c, job, newId, change)
    ensures s'.db.table == change.t' && s'.acks == s.acks
  {}

  /** So the rows it leaves have unique keys and sound links, a fired one was acknowledged in
      the run, and none whose forward was ever attempted is recalled. */
  lemma ServiceKeepsRunTheorems(run: seq<State>, steps: seq<Step>, c: nat, job: nat, d: Ingest.Deps, account: Uuid,
                                acct: Account, m: Message, env: Ingest.Reads, change: Ingest.Change)
    requires IsRun(run, steps) && Fits(run[|run| - 1], c, job, account, acct, env, change)
    requires Ingest.Handled(d, account, acct, m, env, change)
    ensures KeysUnique(change.t') && LinksSound(change.t')
    ensures forall id :: id in change.t' && change.t'[id].fired ==>
              exists i :: 0 <= i < |steps| && IsAckOf(run[i], steps[i], id)
    ensures forall i, id :: 0 <= i < |run| && id in run[i].sent && id in change.t' ==>
              change.t'[id].action in {Execute, Routed}
  {
    RunLength(run, steps);
    hide Ingest.Handled, Fits, IsRun;
    ServiceGoesOn(run, steps, c, job, d, account, acct, m, env, change);
    var run', steps' :| GoesOnTo(run, steps, run', steps', change.t');
    LongerRunIsSafe(run, steps, run', steps', change.t');
  }

  /** What the theorems about runs say of a table that a run goes on to. */
  lemma LongerRunIsSafe(run: seq<State>, steps: seq<Step>, run': seq<State>, steps': seq<Step>, t': Table)
    requires IsRun(run, steps) && GoesOnTo(run, steps, run', steps', t')
    ensures KeysUnique(t') && LinksSound(t')
    ensures forall id :: id in t' && t'[id].fired ==> exists i :: 0 <= i < |steps| && IsAckOf(run[i], steps[i], id)
    ensures forall i, id :: 0 <= i < |run| && id in run[i].sent && id in t' ==> t'[id].action in {Execute, Routed}
  {
    RunLength(run, steps);
    RunLength(run', steps');
    hide IsRun, Inv, IsAckOf, KeysUnique, LinksSound, GoesOnTo;
    GoesOnFacts(run, steps, run', steps', t');
    InvHolds(run', steps', |run'| - 1);
    InvIsSound(run'[|run'| - 1]);
    forall id | id in t' && t'[id].fired ensures exists i :: 0 <= i < |steps| && IsAckOf(run[i], steps[i], id) {
      AcksAreReal(run, steps, |run| - 1, id);
    }
    forall i, id | 0 <= i < |run| && id in run[i].sent && id in t' ensures t'[id].action in {Execute, Routed} {
      SentIsNotRecalled(run, steps, run', steps', t', i, id);
    }
  }

  lemma GoesOnFacts(run: seq<State>, steps: seq<Step>, run': seq<State>, steps': seq<Step>, t': Table)
    requires run != [] && GoesOnTo(run, steps, run', steps', t')
    ensures IsRun(run', steps') && |run| <= |run'|
    ensures forall i :: 0 <= i < |run| ==> run'[i] == run[i]
    ensures run'[|run'| - 1].db.table == t' && run'[|run'| - 1].acks == run[|run| - 1].acks
  {
    hide IsRun;
  }

  lemma SentIsNotRecalled(run: seq<State>, steps: seq<Step>, run': seq<State>, steps': seq<Step>, t': Table, i: nat,
                          id: Uuid)
    requires run != [] && GoesOnTo(run, steps, run', steps', t') && i < |run| && id in run[i].sent && id in t'
    ensures t'[id].action in {Execute, Routed}
  {
    hide IsRun, GoesOnTo;
    GoesOnFacts(run, steps, run', steps', t');
    ForwardedIsNeverRecalled(run', steps', i, |run'| - 1, id);
  }

  lemma RunLength(run: seq<State>, steps: seq<Step>)
    requires IsRun(run, steps)
    ensures |run| == |steps| + 1
  {}

  lemma InvIsSound(s: State)
    requires Inv(s)
    ensures KeysUnique(s.db.table) && LinksSound(s.db.table)
    ensures forall id :: id in s.db.table && s.db.table[id].fired ==> id in s.acks
  {}
}
