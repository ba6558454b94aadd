/** Purge and erasure interleaved with everything else: what their statements achieve for good,
    and what is stored behind their back. */
module LifecycleRetention {
  import opened Wrappers
  import opened Policy
  import opened Messages
  import opened Store
  import opened Retention
  import opened Lifecycle
  import opened LifecycleInvariants
  import opened LifecycleSteps
  import opened LifecycleSafety

  lemma StatementDone(run: seq<State>, steps: seq<Step>, i: nat, step: RetentionStep)
    requires IsRun(run, steps) && i < |steps| && steps[i] == RetentionStep(step)
    ensures run[i + 1] == ApplyRetention(run[i], step)
  {
    assert Enabled(run[i], steps[i]) && run[i + 1] == Apply(run[i], steps[i]);
    hide ApplyRetention, RetentionEnabled;
  }

  // ----- A reply recorded between a purge's two statements -----

  /** A row that stays and links to one that goes. */
  ghost predicate Blocks(t: Table, id: Uuid, tenant: Uuid, cutoff: int) {
    && id in t && !OlderThan(tenant, cutoff)(t[id])
    && t[id].inReplyTo.Some? && t[id].inReplyTo.value in t && OlderThan(tenant, cutoff)(t[t[id].inReplyTo.value])
  }

  lemma AgeStays(r: Row, r': Row, tenant: Uuid, cutoff: int)
    requires MayBecome(r, r')
    ensures OlderThan(tenant, cutoff)(r') == OlderThan(tenant, cutoff)(r)
  {}

  /** Once its links are cleared, no row inserted before blocks the purge. */
  lemma ClearedNeverBlocks(run: seq<State>, steps: seq<Step>, i: nat, k: nat, tenant: Uuid, cutoff: int, id: Uuid)
    requires IsRun(run, steps) && i < k < |run| && steps[i] == RetentionStep(ClearLinks(tenant, cutoff))
    requires Blocks(run[k].db.table, id, tenant, cutoff)
    ensures id !in run[i].db.born
  {
    if id in run[i].db.born {
      StatementDone(run, steps, i, ClearLinks(tenant, cutoff));
      InvHolds(run, steps, i);
      LogOf(run[i]);
      ClearedLinks(run[i].db.table, tenant, cutoff);
      hide IsRun, Inv, MayBecome, OlderThan, LinksSound, LinksCleared, Logged;
      var t, t' := run[i + 1].db.table, run[k].db.table;
      assert t == LinksCleared(run[i].db.table, tenant, cutoff);
      WasThere(run, steps, i + 1, k, id);
      IdentityStays(t[id], t'[id]);
      AgeStays(t[id], t'[id], tenant, cutoff);
      var target := t[id].inReplyTo.value;
      assert target in t by {
        LinkIsThere(t, id);
      }
      RowsOnlyEvolve(run, steps, i + 1, k, target);
      AgeStays(t[target], t'[target], tenant, cutoff);
      assert false;
    }
  }

  lemma LinkIsThere(t: Table, id: Uuid)
    requires LinksSound(t) && id in t && t[id].inReplyTo.Some?
    ensures t[id].inReplyTo.value in t
  {}

  /** After a purge has cleared the links, its delete is refused exactly when some row stored
      since then, and not itself to go, replies to a row that is. */
  lemma PurgeBlockedExactlyWhen(run: seq<State>, steps: seq<Step>, i: nat, k: nat, tenant: Uuid, cutoff: int)
    requires IsRun(run, steps) && i < k < |run| && steps[i] == RetentionStep(ClearLinks(tenant, cutoff))
    ensures !RetentionEnabled(run[k], PurgeRows(tenant, cutoff)) <==>
            exists id :: id !in run[i].db.born && Blocks(run[k].db.table, id, tenant, cutoff)
  {
    hide IsRun;
    forall id | Blocks(run[k].db.table, id, tenant, cutoff) ensures id !in run[i].db.born {
      ClearedNeverBlocks(run, steps, i, k, tenant, cutoff, id);
    }
    if !RetentionEnabled(run[k], PurgeRows(tenant, cutoff)) {
      var t := run[k].db.table;
      var id :| id in t && !OlderThan(tenant, cutoff)(t[id]) && t[id].inReplyTo.Some? && t[id].inReplyTo.value in t
                && OlderThan(tenant, cutoff)(t[t[id].inReplyTo.value]);
      assert Blocks(t, id, tenant, cutoff);
    }
  }

  /** Whenever the tenant has an old message that can be answered, an answer read and recorded
      after the links are cleared makes the delete fail. */
  lemma ReplyBlocksPurge(run: seq<State>, steps: seq<Step>, tenant: Uuid, cutoff: int, target: Uuid, out: nat, row: Row)
    requires IsRun(run, steps) && out !in run[|steps|].outgoing
    requires var s := run[|steps|];
             && target in s.db.table && OlderThan(tenant, cutoff)(s.db.table[target])
             && s.db.table[target].account.Some? && s.db.table[target].senderEndpoint.Some?
             && IsRowOf(s, row, Outgoing(tenant, s.db.table[target].account.value, Some(target)))
             && row.receivedAt >= cutoff && !KeyTaken(s.db.table, row.account.value, row.platformId)
    ensures exists run' ::
              && IsRun(run', steps + ReplyWhilePurging(tenant, cutoff, target, out, row)) && run <= run'
              && !RetentionEnabled(run'[|run'| - 1], PurgeRows(tenant, cutoff))
  {
    var s := run[|steps|];
    InvHolds(run, steps, |steps|);
    LogOf(s);
    ReplyIsRecorded(s, tenant, cutoff, target, out, row);
    hide Inv, Logged, LinksSound, IsRun, Enabled, Apply, RetentionEnabled, IsRowOf, KeyTaken, OlderThan, Leads;
    var more := ReplyWhilePurging(tenant, cutoff, target, out, row);
    var s' := Apply(Apply(Apply(s, more[0]), more[1]), more[2]);
    ThreeSteps(s, more[0], more[1], more[2]);
    assert |run| - 1 == |steps| by {
      RunLength(run, steps);
    }
    RunGoesOn(run, steps, more, s');
  }

  function ReplyWhilePurging(tenant: Uuid, cutoff: int, target: Uuid, out: nat, row: Row): seq<Step> {
    [RetentionStep(ClearLinks(tenant, cutoff)), JobStep(ApiReply(out, target)), JobStep(StoreOutbound(out, row))]
  }

  lemma RunLength(run: seq<State>, steps: seq<Step>)
    requires IsRun(run, steps)
    ensures |run| == |steps| + 1
  {}

  lemma ThreeSteps(s: State, a: Step, b: Step, c: Step)
    requires Enabled(s, a) && Enabled(Apply(s, a), b) && Enabled(Apply(Apply(s, a), b), c)
    ensures Leads(s, [a, b, c], Apply(Apply(Apply(s, a), b), c))
  {
    hide Enabled, Apply;
    var s1 := Apply(s, a);
    var s2 := Apply(s1, b);
    LeadsOn(s2, c, [], Apply(s2, c));
    LeadsOn(s1, b, [c], Apply(s2, c));
    LeadsOn(s, a, [b, c], Apply(s2, c));
    assert [a] + [b, c] == [a, b, c] && [b] + [c] == [b, c] && [c] + [] == [c];
  }

  lemma ReplyIsRecorded(s: State, tenant: Uuid, cutoff: int, target: Uuid, out: nat, row: Row)
    requires out !in s.outgoing && target in s.db.table && target in s.db.born
    requires OlderThan(tenant, cutoff)(s.db.table[target])
    requires s.db.table[target].account.Some? && s.db.table[target].senderEndpoint.Some?
    requires IsRowOf(s, row, Outgoing(tenant, s.db.table[target].account.value, Some(target)))
    requires row.receivedAt >= cutoff && !KeyTaken(s.db.table, row.account.value, row.platformId)
    ensures var steps := ReplyWhilePurging(tenant, cutoff, target, out, row);
            && Enabled(s, steps[0]) && Enabled(Apply(s, steps[0]), steps[1])
            && Enabled(Apply(Apply(s, steps[0]), steps[1]), steps[2])
            && !RetentionEnabled(Apply(Apply(Apply(s, steps[0]), steps[1]), steps[2]), PurgeRows(tenant, cutoff))
  {
    var s1 := ApplyRetention(s, ClearLinks(tenant, cutoff));
    LinksAreCleared(s, tenant, cutoff);
    KeyStaysFree(s.db.table, tenant, cutoff, row.account.value, row.platformId);
    hide KeyTaken, LinksCleared, ApplyRetention, OlderThan;
    AnswerIsRecorded(s1, target, out, row);
    OldAndNew(s.db.table[target], s1.db.table[target], row, tenant, cutoff);
    var s3 := ApplyJob(ApplyJob(s1, ApiReply(out, target)), StoreOutbound(out, row));
    assert s3.db.table[row.id] == row && s3.db.table[target] == s1.db.table[target];
    assert !RetentionEnabled(s3, PurgeRows(tenant, cutoff));
  }

  lemma LinksAreCleared(s: State, tenant: Uuid, cutoff: int)
    ensures ApplyRetention(s, ClearLinks(tenant, cutoff)) ==
            s.(db := s.db.(table := LinksCleared(s.db.table, tenant, cutoff)))
    ensures forall id :: id in s.db.table ==>
              && id in LinksCleared(s.db.table, tenant, cutoff)
              && LinksCleared(s.db.table, tenant, cutoff)[id] in {s.db.table[id], ClearLink(s.db.table[id])}
  {}

  lemma KeyStaysFree(t: Table, tenant: Uuid, cutoff: int, account: Uuid, platformId: string)
    requires !KeyTaken(t, account, platformId)
    ensures !KeyTaken(LinksCleared(t, tenant, cutoff), account, platformId)
  {
    hide OlderThan;
    var cleared := LinksCleared(t, tenant, cutoff);
    forall id | id in cleared ensures !HasKey(cleared[id], account, platformId) {
      assert !HasKey(t[id], account, platformId);
    }
  }

  lemma OldAndNew(r: Row, cleared: Row, row: Row, tenant: Uuid, cutoff: int)
    requires OlderThan(tenant, cutoff)(r) && cleared in {r, ClearLink(r)} && row.receivedAt >= cutoff
    ensures OlderThan(tenant, cutoff)(cleared) && !OlderThan(tenant, cutoff)(row)
  {}

  lemma AnswerIsRecorded(s: State, target: Uuid, out: nat, row: Row)
    requires out !in s.outgoing && target in s.db.table && target in s.db.born
    requires s.db.table[target].account.Some? && s.db.table[target].senderEndpoint.Some?
    requires IsRowOf(s, row, Outgoing(s.db.table[target].tenant, s.db.table[target].account.value, Some(target)))
    requires !KeyTaken(s.db.table, row.account.value, row.platformId)
    ensures var reply, store := ApiReply(out, target), StoreOutbound(out, row);
            && JobEnabled(s, reply) && JobEnabled(ApplyJob(s, reply), store)
            && ApplyJob(ApplyJob(s, reply), store).db.table == s.db.table[row.id := row] && row.id != target
  {
    hide KeyTaken;
  }

  /** The message received at time 10, and the answer to it at time 200. */
  function OldMessage(): Row {
    Row(7, 2, Some(1), None, Inbound, None, None, Some("+1"), "", None, None, None, Clarify, false, None, "a",
        Verbatim(""), 10, None)
  }

  function LateAnswer(): Row {
    Row(8, 2, Some(1), None, Outbound, None, None, None, "", None, None, None, Sent, false, Some(7), "b",
        Verbatim(""), 200, None)
  }

  /** So it happens: one message is stored, a purge of what is older than time 100 clears the
      links, the message is answered, and the purge's delete fails. */
  lemma APurgeIsBlocked()
    ensures exists run, more ::
              && IsRun(run, [CallStep(Begin(0, Msg(1, "a", Some("+1")))), CallStep(StoreRow(0, OldMessage(), 0, false))]
                            + more)
              && more == ReplyWhilePurging(2, 100, 7, 0, LateAnswer())
              && !RetentionEnabled(run[|run| - 1], PurgeRows(2, 100))
  {
    var begin, store := CallStep(Begin(0, Msg(1, "a", Some("+1")))), CallStep(StoreRow(0, OldMessage(), 0, false));
    var s := Initial(map[1 := Account(2, "", true)]);
    var s1 := ApplyCall(s, begin.callStep);
    var s2 := ApplyCall(s1, store.callStep);
    assert IsRun([s], []);
    OneMoreStep([s], [], begin);
    OneMoreStep([s] + [s1], [] + [begin], store);
    assert [] + [begin] + [store] == [begin, store] && s2.db.table == map[7 := OldMessage()];
    hide IsRun, RetentionEnabled;
    ReplyBlocksPurge([s] + [s1] + [s2], [begin, store], 2, 100, 7, 0, LateAnswer());
  }

  // ----- Erasure -----

  predicate IsRedacted(r: Row) {
    Redact(r) == r
  }

  /** What an erasure did to a row is never undone. */
  lemma ErasedStaysErased(run: seq<State>, steps: seq<Step>, i: nat, k: nat, id: Uuid)
    requires IsRun(run, steps) && i <= k < |run| && id in run[k].db.table && id in run[i].db.table
    ensures IsRedacted(run[i].db.table[id]) ==> IsRedacted(run[k].db.table[id])
    ensures forall contact :: NamesContact(run[k].db.table[id], contact) ==> NamesContact(run[i].db.table[id], contact)
    ensures forall tenant, e ::
              FromEndpoint(tenant, e)(run[k].db.table[id]) ==> FromEndpoint(tenant, e)(run[i].db.table[id])
  {
    RowsOnlyEvolve(run, steps, i, k, id);
  }

  lemma AfterStatement(run: seq<State>, steps: seq<Step>, i: nat, k: nat, step: RetentionStep, id: Uuid)
    requires IsRun(run, steps) && i < k < |run| && steps[i] == RetentionStep(step) && !step.PurgeRows?
    requires id in run[k].db.table && id in run[i].db.born
    ensures id in run[i].db.table && id in run[i + 1].db.table && run[i + 1] == ApplyRetention(run[i], step)
    ensures MayBecome(run[i + 1].db.table[id], run[k].db.table[id])
  {
    StatementDone(run, steps, i, step);
    hide IsRun, MayBecome, UpdateWhere;
    WasThere(run, steps, i + 1, k, id);
  }

  /** A row that comes from an endpoint after its messages were redacted was stored since; what
      came from it then is redacted for as long as it is there. */
  lemma EndpointIsGone(run: seq<State>, steps: seq<Step>, i: nat, k: nat, tenant: Uuid, e: string, id: Uuid)
    requires IsRun(run, steps) && i < k < |run| && steps[i] == RetentionStep(RedactEndpoint(tenant, e))
    requires id in run[k].db.table && id in run[i].db.born
    ensures id in run[i].db.table && !FromEndpoint(tenant, e)(run[k].db.table[id])
    ensures FromEndpoint(tenant, e)(run[i].db.table[id]) ==> IsRedacted(run[k].db.table[id])
  {
    AfterStatement(run, steps, i, k, RedactEndpoint(tenant, e), id);
    hide IsRun;
  }

  lemma ContactIsRedacted(run: seq<State>, steps: seq<Step>, i: nat, k: nat, tenant: Uuid, contact: Uuid, id: Uuid)
    requires IsRun(run, steps) && i < k < |run| && steps[i] == RetentionStep(RedactContact(tenant, contact))
    requires id in run[k].db.table && id in run[i].db.born
    ensures id in run[i].db.table
    ensures OfContact(tenant, contact)(run[i].db.table[id]) ==> IsRedacted(run[k].db.table[id])
  {
    AfterStatement(run, steps, i, k, RedactContact(tenant, contact), id);
    hide IsRun;
  }

  lemma ContactIsGone(run: seq<State>, steps: seq<Step>, i: nat, k: nat, tenant: Uuid, contact: Uuid, id: Uuid)
    requires IsRun(run, steps) && i < k < |run| && steps[i] == RetentionStep(DetachContact(tenant, contact))
    requires id in run[k].db.table && id in run[i].db.born
    ensures !OfContact(tenant, contact)(run[k].db.table[id])
  {
    AfterStatement(run, steps, i, k, DetachContact(tenant, contact), id);
    hide IsRun;
  }

  /** An erasure whose statements ran at the given points of a run, whatever came between: from
      then on a row that comes from one of the endpoints, or names the contact, was stored after
      the statement meant to catch it, and whatever matched a statement stays redacted. */
  lemma InterleavedErasure(run: seq<State>, steps: seq<Step>, es: seq<string>, at: seq<nat>, redacting: nat,
                           detaching: nat, k: nat, tenant: Uuid, contact: Uuid, id: Uuid)
    requires IsRun(run, steps) && |at| == |es| && k < |run| && redacting < k && detaching < k
    requires forall x :: 0 <= x < |es| ==> at[x] < k && steps[at[x]] == RetentionStep(RedactEndpoint(tenant, es[x]))
    requires steps[redacting] == RetentionStep(RedactContact(tenant, contact))
    requires steps[detaching] == RetentionStep(DetachContact(tenant, contact))
    requires id in run[k].db.table
    ensures forall x :: 0 <= x < |es| && FromEndpoint(tenant, es[x])(run[k].db.table[id]) ==>
              id !in run[at[x]].db.born
    ensures OfContact(tenant, contact)(run[k].db.table[id]) ==> id !in run[detaching].db.born
    ensures forall x :: 0 <= x < |es| && id in run[at[x]].db.table ==>
              FromEndpoint(tenant, es[x])(run[at[x]].db.table[id]) ==> IsRedacted(run[k].db.table[id])
    ensures id in run[redacting].db.table && OfContact(tenant, contact)(run[redacting].db.table[id]) ==>
              IsRedacted(run[k].db.table[id])
  {
    hide IsRun, IsRedacted;
    forall i: nat | i < |run| ensures forall id :: id in run[i].db.table ==> id in run[i].db.born {
      InvHolds(run, steps, i);
      hide Inv;
      LogOf(run[i]);
    }
    forall x | 0 <= x < |es| && id in run[at[x]].db.born
      ensures id in run[at[x]].db.table && !FromEndpoint(tenant, es[x])(run[k].db.table[id])
      ensures FromEndpoint(tenant, es[x])(run[at[x]].db.table[id]) ==> IsRedacted(run[k].db.table[id])
    {
      EndpointIsGone(run, steps, at[x], k, tenant, es[x], id);
    }
    if id in run[redacting].db.born {
      ContactIsRedacted(run, steps, redacting, k, tenant, contact, id);
    }
    if id in run[detaching].db.born {
      ContactIsGone(run, steps, detaching, k, tenant, contact, id);
    }
  }
}
