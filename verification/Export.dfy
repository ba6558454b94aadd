/** `internal/export`: streaming a tenant's messages and contacts out, page by page. */
module Export {
  import opened Wrappers
  import opened Messages
  import opened Keyset
  import opened Policy

  /** The zero `time.Time`, in seconds since 1970. */
  const ZERO_TIME := -62135596800

  const START := Key(ZERO_TIME, NIL)

  /** An exported message: the row with its raw payload set apart, and given only when asked for. */
  datatype MessageLine = MessageLine(row: Row, raw: Option<RawPayload>)

  datatype Contact = Contact(id: Uuid, tenant: Uuid, shortId: string, displayName: string, createdAt: int)

  datatype Endpoint = Endpoint(id: Uuid, contact: Uuid, endpoint: string, priority: int)

  /** An exported contact with its endpoints inlined. */
  datatype ContactLine = ContactLine(contact: Contact, endpoints: seq<Endpoint>)

  function MessageView(tenant: Uuid): View<Row> {
    View((r: Row) => r.tenant == tenant, (r: Row) => Key(r.receivedAt, r.id))
  }

  function ContactView(tenant: Uuid): View<Contact> {
    View((c: Contact) => c.tenant == tenant, (c: Contact) => Key(c.createdAt, c.id))
  }

  function LineOf(r: Row, includeRaw: bool): MessageLine {
    MessageLine(r.(raw := Verbatim("")), if includeRaw then Some(r.raw) else None)
  }

  function LinesOf(rows: seq<Row>, includeRaw: bool): seq<MessageLine> {
    seq(|rows|, i requires 0 <= i < |rows| => LineOf(rows[i], includeRaw))
  }

  /** `tables` are what the successive page queries see; the query after the last of them
      fails. The writer takes `accepts` lines before it fails, or any number. Whatever
      happens between the pages, the lines are in strictly increasing (time, id) order, so
      none is repeated; a finished export has every row that was there throughout; and
      over a table that stands still it finishes with exactly the sorted table. `marks` are
      where it stands before each page; a row that appears between two pages and stays is
      exported exactly when it is above the cursor there. */
  method ExportMessages(tables: seq<Table>, tenant: Uuid, pageSize: nat, includeRaw: bool, accepts: Option<nat>)
    returns (out: seq<MessageLine>, total: nat, failed: bool, ghost rows: seq<Row>, ghost used: nat,
             ghost marks: seq<Mark>)
    requires pageSize > 0 && forall t <- tables :: KeyedById(t)
    ensures out == LinesOf(rows, includeRaw) && total == |out|
    ensures TellsRows(tables, tenant, includeRaw, rows, out)
    ensures Partial(MessageView(tenant), tables, START, pageSize, used, rows, marks)
    ensures !failed ==> Done(MessageView(tenant), tables, START, pageSize, used, rows, marks)
    ensures accepts.Some? ==> total <= accepts.value
    ensures failed ==> accepts == Some(total) || (used == |tables| && |rows| == used * pageSize)
    ensures accepts.None? ==> forall t ::
              Frozen(tables, t) && |tables| * pageSize > |WantedAbove(MessageView(tenant), t, START)| ==> !failed
  {
    hide IsPage, Underway, Partial, Done, WantedAbove, LinesOf, TellsRows;
    var v := MessageView(tenant);
    var cursor := START;
    out, total, failed, rows, marks := [], 0, false, [], [];
    Starts(v, tables, START, pageSize);
    LinesStart(includeRaw);
    var n := 0;
    while n < |tables|
      invariant n <= |tables| && !failed && (accepts.Some? ==> total <= accepts.value)
      invariant out == LinesOf(rows, includeRaw) && total == |out| == |rows|
      invariant Underway(v, tables, START, pageSize, n, cursor, rows, marks)
    {
      assert tables[n] in tables;
      var page := QueryPage(v, tables[n], cursor, pageSize);
      ghost var before := rows;
      ghost var from := cursor;
      OnePage(v, tables, START, pageSize, n, cursor, rows, marks, page);
      marks := marks + [Mark(|rows|, cursor)];
      assert before + page[..0] == before;
      for i := 0 to |page|
        invariant accepts.Some? ==> total <= accepts.value
        invariant out == LinesOf(rows, includeRaw) && total == |out| == |rows|
        invariant rows == before + page[..i] && cursor == Advance(v, from, page, i)
      {
        if accepts.Some? && total >= accepts.value {
          failed, used := true, n + 1;
          LinesTell(tables, tenant, pageSize, includeRaw, used, rows, marks);
          return;
        }
        LinesExtend(rows, page[i], includeRaw);
        assert page[..i + 1] == page[..i] + [page[i]];
        out := out + [LineOf(page[i], includeRaw)];
        total := total + 1;
        rows := rows + [page[i]];
        cursor := Key(page[i].receivedAt, page[i].id);
      }
      assert page[..|page|] == page;
      n := n + 1;
      if |page| < pageSize {
        used := n;
        LinesTell(tables, tenant, pageSize, includeRaw, used, rows, marks);
        return;
      }
    }
    failed, used := true, n;
    RanOut(v, tables, START, pageSize, cursor, rows, marks);
    LinesTell(tables, tenant, pageSize, includeRaw, used, rows, marks);
  }

  /** Each line is a row of the tenant that some table held, without its raw payload, which is
      told apart and only when asked for; the lines go by time received, then by id. */
  ghost predicate TellsRows(tables: seq<Table>, tenant: Uuid, includeRaw: bool, rows: seq<Row>, out: seq<MessageLine>) {
    && |out| == |rows|
    && (forall i :: 0 <= i < |rows| ==>
          && rows[i].tenant == tenant && (exists t <- tables :: rows[i].id in t && t[rows[i].id] == rows[i])
          && out[i].row == rows[i].(raw := Verbatim(""))
          && out[i].raw == if includeRaw then Some(rows[i].raw) else None)
    && (forall i, j :: 0 <= i < j < |rows| ==>
          || rows[i].receivedAt < rows[j].receivedAt
          || (rows[i].receivedAt == rows[j].receivedAt && rows[i].id < rows[j].id))
  }

  lemma LinesTell(tables: seq<Table>, tenant: Uuid, pageSize: nat, includeRaw: bool, used: nat, rows: seq<Row>,
                  marks: seq<Mark>)
    requires Partial(MessageView(tenant), tables, START, pageSize, used, rows, marks)
    ensures TellsRows(tables, tenant, includeRaw, rows, LinesOf(rows, includeRaw))
  {
    hide Marked, LateRowsDecided;
    var v := MessageView(tenant);
    forall i | 0 <= i < |rows|
      ensures rows[i].tenant == tenant && exists t <- tables :: rows[i].id in t && t[rows[i].id] == rows[i]
    {
      assert WasRead(v, tables, used, rows[i]);
      var k :| 0 <= k < used && InTable(v, tables[k], rows[i]);
      assert tables[k] in tables;
    }
    forall i, j | 0 <= i < j < |rows|
      ensures || rows[i].receivedAt < rows[j].receivedAt
              || (rows[i].receivedAt == rows[j].receivedAt && rows[i].id < rows[j].id)
    {
      assert Before(v.key(rows[i]), v.key(rows[j]));
    }
    forall i | 0 <= i < |rows|
      ensures LinesOf(rows, includeRaw)[i].row == rows[i].(raw := Verbatim(""))
      ensures LinesOf(rows, includeRaw)[i].raw == if includeRaw then Some(rows[i].raw) else None
    {}
  }

  lemma LinesStart(includeRaw: bool)
    ensures LinesOf([], includeRaw) == []
  {}

  lemma LinesExtend(rows: seq<Row>, r: Row, includeRaw: bool)
    ensures LinesOf(rows + [r], includeRaw) == LinesOf(rows, includeRaw) + [LineOf(r, includeRaw)]
    ensures |LinesOf(rows, includeRaw)| == |rows|
  {}

  // ----- A row that is skipped -----

  function At(id: Uuid, receivedAt: int): Row {
    Row(id, 1, Some(1), None, Inbound, None, None, None, "", None, None, None, Clarify, false, None, "",
        Verbatim(""), receivedAt, None)
  }

  /** The message received at time 20 is there for the first page; the one received at time
      10 is stored before the second. */
  function TwoPages(): seq<Table> {
    [map[7 := At(7, 20)], map[7 := At(7, 20), 8 := At(8, 10)]]
  }

  lemma TwoPagesAre()
    ensures |TwoPages()| == 2 && TwoPages()[0] == map[7 := At(7, 20)]
    ensures TwoPages()[1] == map[7 := At(7, 20), 8 := At(8, 10)]
    ensures forall t <- TwoPages() :: KeyedById(t)
  {}

  /** Exporting that input with one row to a page ends well and gives the first message only:
      the second arrived during the export and is skipped. */
  method ExportSkipsALateRow(includeRaw: bool) returns (out: seq<MessageLine>, total: nat, failed: bool)
    ensures !failed && out == [LineOf(At(7, 20), includeRaw)] && total == 1
  {
    TwoPagesAre();
    ghost var rows, used, marks;
    out, total, failed, rows, used, marks := ExportMessages(TwoPages(), 1, 1, includeRaw, None);
    OnlyTheFirst(failed, rows, used, marks);
    LinesStart(includeRaw);
    LinesExtend([], At(7, 20), includeRaw);
    assert [] + [At(7, 20)] == [At(7, 20)];
  }

  /** What the contract of the export says of that input. */
  lemma OnlyTheFirst(failed: bool, rows: seq<Row>, used: nat, marks: seq<Mark>)
    requires Partial(MessageView(1), TwoPages(), START, 1, used, rows, marks)
    requires if failed then used == 2 && |rows| == 2 else Done(MessageView(1), TwoPages(), START, 1, used, rows, marks)
    ensures !failed && rows == [At(7, 20)]
  {
    ComeFromTheTwo(rows, used, marks);
    if used == 2 {
      SecondIsBehind(rows, marks);
    }
    hide Partial, LateRowsDecided, IsSortedTable, FinishedFromAll;
    if !failed {
      FirstIsThroughout(rows, used);
    }
  }

  lemma ComeFromTheTwo(rows: seq<Row>, used: nat, marks: seq<Mark>)
    requires Partial(MessageView(1), TwoPages(), START, 1, used, rows, marks)
    ensures used <= 2 && forall i :: 0 <= i < |rows| ==> rows[i] == At(7, 20) || (used == 2 && rows[i] == At(8, 10))
    ensures |rows| <= 2 && (|rows| == 2 ==> rows[0] == At(8, 10) && rows[1] == At(7, 20))
  {
    TwoPagesAre();
    hide TwoPages, Marked;
    var v, tables := MessageView(1), TwoPages();
    forall i | 0 <= i < |rows| ensures rows[i] == At(7, 20) || (used == 2 && rows[i] == At(8, 10)) {
      assert WasRead(v, tables, used, rows[i]);
    }
    var keys := seq(|rows|, i requires 0 <= i < |rows| => v.key(rows[i]));
    assert forall i, j :: 0 <= i < j < |rows| ==> Before(keys[i], keys[j]);
    assert forall i :: 0 <= i < |rows| ==> keys[i] in {Key(20, 7), Key(10, 8)};
    AtMostTwo(keys);
  }

  lemma AtMostTwo(keys: seq<Key>)
    requires forall i, j :: 0 <= i < j < |keys| ==> Before(keys[i], keys[j])
    requires forall i :: 0 <= i < |keys| ==> keys[i] in {Key(20, 7), Key(10, 8)}
    ensures |keys| <= 2 && (|keys| == 2 ==> keys[0] == Key(10, 8) && keys[1] == Key(20, 7))
  {
    assert |keys| < 2 || Before(keys[0], keys[1]);
    assert |keys| < 3 || Before(keys[1], keys[2]);
  }

  lemma FirstIsThroughout(rows: seq<Row>, used: nat)
    requires used <= 2 && Covered(MessageView(1), TwoPages(), used, START, rows)
    ensures exists i :: 0 <= i < |rows| && MessageView(1).key(rows[i]) == Key(20, 7)
  {
    TwoPagesAre();
    hide TwoPages;
    assert Throughout(MessageView(1), TwoPages(), used, Key(20, 7));
  }

  /** With both pages read, the first was full: the cursor has passed the second message. */
  lemma SecondIsBehind(rows: seq<Row>, marks: seq<Mark>)
    requires Partial(MessageView(1), TwoPages(), START, 1, 2, rows, marks)
    ensures rows != [] && rows[0] == At(7, 20)
    ensures AppearsAt(MessageView(1), TwoPages(), 2, 1, Key(10, 8)) && !Before(marks[1].cursor, Key(10, 8))
  {
    TwoPagesAre();
    hide TwoPages;
    var v, tables := MessageView(1), TwoPages();
    assert MarkAt(v, tables, START, 1, 1, rows, marks[1]);
    assert WasRead(v, tables, 1, rows[..1][0]);
  }

  // ----- Contacts, with their endpoints inlined -----

  /** The endpoints of one contact, in the order they were read. */
  function EndpointsOf(eps: seq<Endpoint>, contact: Uuid): (own: seq<Endpoint>)
    ensures forall e :: multiset(own)[e] == if e.contact == contact then multiset(eps)[e] else 0
  {
    if eps == [] then []
    else
      assert eps == eps[..|eps| - 1] + [eps[|eps| - 1]];
      EndpointsOf(eps[..|eps| - 1], contact) + if eps[|eps| - 1].contact == contact then [eps[|eps| - 1]] else []
  }

  /** `ExportEndpointsForContacts`: the endpoints of the contacts asked for. */
  function EndpointsFor(eps: seq<Endpoint>, ids: set<Uuid>): seq<Endpoint> {
    if eps == [] then []
    else EndpointsFor(eps[..|eps| - 1], ids) + if eps[|eps| - 1].contact in ids then [eps[|eps| - 1]] else []
  }

  /** Asking for a page of contacts loses none of their endpoints. */
  lemma {:induction false} PageHasItsEndpoints(eps: seq<Endpoint>, ids: set<Uuid>, contact: Uuid)
    requires contact in ids
    ensures EndpointsOf(EndpointsFor(eps, ids), contact) == EndpointsOf(eps, contact)
  {
    if eps != [] {
      var init, last := eps[..|eps| - 1], eps[|eps| - 1];
      PageHasItsEndpoints(init, ids, contact);
      var some := EndpointsFor(init, ids);
      if last.contact in ids {
        assert (some + [last])[..|some|] == some;
      } else {
        assert some + [] == some && EndpointsOf(init, contact) + [] == EndpointsOf(init, contact);
      }
    }
  }

  lemma NoEndpoints()
    ensures forall c :: EndpointsOf([], c) == []
  {}

  lemma OneMoreEndpoint(eps: seq<Endpoint>, i: nat)
    requires i < |eps|
    ensures forall c :: EndpointsOf(eps[..i + 1], c) ==
                        EndpointsOf(eps[..i], c) + if eps[i].contact == c then [eps[i]] else []
  {
    assert eps[..i + 1][..i] == eps[..i];
  }

  method GroupByContact(eps: seq<Endpoint>) returns (m: map<Uuid, seq<Endpoint>>)
    ensures forall c :: EndpointsOf(eps, c) == if c in m then m[c] else []
  {
    hide EndpointsOf;
    m := map[];
    NoEndpoints();
    for i := 0 to |eps|
      invariant forall c :: EndpointsOf(eps[..i], c) == if c in m then m[c] else []
    {
      var e := eps[i];
      OneMoreEndpoint(eps, i);
      m := m[e.contact := (if e.contact in m then m[e.contact] else []) + [e]];
    }
    assert eps[..|eps|] == eps;
  }

  /** Each line is a contact its page's query saw, with exactly the endpoints the page's endpoint
      query saw it have: every page before the current one was full. */
  ghost predicate ContactLines(out: seq<ContactLine>, rows: seq<Contact>, tenant: Uuid,
                               tables: seq<map<Uuid, Contact>>, endpoints: seq<seq<Endpoint>>, pageSize: nat)
    requires pageSize > 0
  {
    && |out| == |rows|
    && forall i :: 0 <= i < |out| ==>
         && i / pageSize < |endpoints| && i / pageSize < |tables|
         && rows[i].tenant == tenant && rows[i].id in tables[i / pageSize]
         && tables[i / pageSize][rows[i].id] == rows[i]
         && out[i] == ContactLine(rows[i], EndpointsOf(endpoints[i / pageSize], rows[i].id))
  }

  /** As for messages; `endpoints` are what the successive endpoint queries see. */
  method ExportContacts(tables: seq<map<Uuid, Contact>>, endpoints: seq<seq<Endpoint>>, tenant: Uuid, pageSize: nat,
                        accepts: Option<nat>)
    returns (out: seq<ContactLine>, total: nat, failed: bool, ghost rows: seq<Contact>,
             ghost used: nat, ghost marks: seq<Mark>)
    requires pageSize > 0 && forall t <- tables :: KeyedByView(ContactView(tenant), t)
    ensures ContactLines(out, rows, tenant, tables, endpoints, pageSize) && total == |out|
    ensures ContactsInOrder(rows)
    ensures Partial(ContactView(tenant), tables, START, pageSize, used, rows, marks)
    ensures !failed ==> Done(ContactView(tenant), tables, START, pageSize, used, rows, marks)
    ensures accepts.Some? ==> total <= accepts.value
    ensures failed ==> accepts == Some(total) || used > |endpoints| ||
                       (used == |tables| && |rows| == used * pageSize)
    ensures accepts.None? && |endpoints| >= |tables| ==> forall t ::
              Frozen(tables, t) && |tables| * pageSize > |WantedAbove(ContactView(tenant), t, START)| ==> !failed
  {
    hide IsPage, Underway, Partial, Done, WantedAbove, EndpointsOf, EndpointsFor, ContactLines, InTable;
    hide ContactsInOrder;
    var v := ContactView(tenant);
    var cursor := START;
    out, total, failed, rows, marks := [], 0, false, [], [];
    Starts(v, tables, START, pageSize);
    NoContactLines(tenant, tables, endpoints, pageSize);
    var n := 0;
    while n < |tables|
      invariant n <= |tables| && !failed && (accepts.Some? ==> total <= accepts.value)
      invariant ContactLines(out, rows, tenant, tables, endpoints, pageSize) && total == |out| == |rows|
      invariant Underway(v, tables, START, pageSize, n, cursor, rows, marks)
    {
      assert tables[n] in tables;
      var page := QueryPage(v, tables[n], cursor, pageSize);
      ghost var before := rows;
      ghost var from := cursor;
      FullSoFar(v, tables, pageSize, n, cursor, rows, marks);
      OnePage(v, tables, START, pageSize, n, cursor, rows, marks, page);
      marks := marks + [Mark(|rows|, cursor)];
      assert before + page[..0] == before;
      var byContact := map[];
      if page != [] {
        if n >= |endpoints| {
          failed, used := true, n + 1;
          InOrder(tables, tenant, pageSize, used, rows, marks);
          return;
        }
        byContact := PageEndpoints(page, endpoints[n]);
      }
      for i := 0 to |page|
        invariant accepts.Some? ==> total <= accepts.value
        invariant ContactLines(out, rows, tenant, tables, endpoints, pageSize) && total == |out| == |rows|
        invariant rows == before + page[..i] && cursor == Advance(v, from, page, i)
      {
        if accepts.Some? && total >= accepts.value {
          failed, used := true, n + 1;
          InOrder(tables, tenant, pageSize, used, rows, marks);
          return;
        }
        assert page[..i + 1] == page[..i] + [page[i]] && page[i] in page;
        PageRow(v, tables[n], from, pageSize, page, i);
        ContactIsThere(tables[n], tenant, page[i]);
        ContactLinesExtend(out, rows, tenant, tables, endpoints, pageSize, page[i], n, i, byContact);
        out := out + [ContactLine(page[i], if page[i].id in byContact then byContact[page[i].id] else [])];
        total := total + 1;
        rows := rows + [page[i]];
        cursor := Key(page[i].createdAt, page[i].id);
      }
      assert page[..|page|] == page;
      n := n + 1;
      if |page| < pageSize {
        used := n;
        InOrder(tables, tenant, pageSize, used, rows, marks);
        return;
      }
    }
    failed, used := true, n;
    RanOut(v, tables, START, pageSize, cursor, rows, marks);
    InOrder(tables, tenant, pageSize, used, rows, marks);
  }

  /** By time created, then by id. */
  ghost predicate ContactsInOrder(rows: seq<Contact>) {
    forall i, j :: 0 <= i < j < |rows| ==>
      || rows[i].createdAt < rows[j].createdAt
      || (rows[i].createdAt == rows[j].createdAt && rows[i].id < rows[j].id)
  }

  lemma InOrder(tables: seq<map<Uuid, Contact>>, tenant: Uuid, pageSize: nat, used: nat, rows: seq<Contact>,
                marks: seq<Mark>)
    requires Partial(ContactView(tenant), tables, START, pageSize, used, rows, marks)
    ensures ContactsInOrder(rows)
  {
    hide Marked, LateRowsDecided;
    var v := ContactView(tenant);
    assert Increasing(v, rows);
    assert forall c: Contact :: v.key(c) == Key(c.createdAt, c.id);
  }

  lemma NoContactLines(tenant: Uuid, tables: seq<map<Uuid, Contact>>, endpoints: seq<seq<Endpoint>>, pageSize: nat)
    requires pageSize > 0
    ensures ContactLines([], [], tenant, tables, endpoints, pageSize)
  {}

  lemma PageRow(v: View<Contact>, t: map<Uuid, Contact>, cursor: Key, limit: nat, page: seq<Contact>, i: nat)
    requires IsPage(v, t, cursor, limit, page) && i < |page|
    ensures InTable(v, t, page[i]) && i < limit
  {}

  lemma ContactIsThere(t: map<Uuid, Contact>, tenant: Uuid, c: Contact)
    requires InTable(ContactView(tenant), t, c)
    ensures c.tenant == tenant && c.id in t && t[c.id] == c
  {}

  lemma FullSoFar(v: View<Contact>, tables: seq<map<Uuid, Contact>>, pageSize: nat, n: nat, cursor: Key,
                  rows: seq<Contact>, marks: seq<Mark>)
    requires n <= |tables| && Underway(v, tables, START, pageSize, n, cursor, rows, marks)
    ensures |rows| == n * pageSize
  {}

  /** The `i`-th row of the `n`-th page. */
  lemma PageOf(n: nat, pageSize: nat, i: nat)
    requires i < pageSize
    ensures (n * pageSize + i) / pageSize == n
  {
    var x := n * pageSize + i;
    var q := x / pageSize;
    assert x == q * pageSize + x % pageSize;
    if q < n {
      Multiples(q + 1, n, pageSize);
    } else if n < q {
      Multiples(n + 1, q, pageSize);
    }
  }

  lemma Multiples(a: nat, b: nat, m: nat)
    requires a <= b
    ensures a * m <= b * m
  {}

  lemma ContactLinesExtend(out: seq<ContactLine>, rows: seq<Contact>, tenant: Uuid, tables: seq<map<Uuid, Contact>>,
                           endpoints: seq<seq<Endpoint>>, pageSize: nat, c: Contact, n: nat, i: nat,
                           byContact: map<Uuid, seq<Endpoint>>)
    requires pageSize > 0 && ContactLines(out, rows, tenant, tables, endpoints, pageSize)
    requires n < |endpoints| && n < |tables| && i < pageSize && |rows| == n * pageSize + i
    requires c.tenant == tenant && c.id in tables[n] && tables[n][c.id] == c
    requires EndpointsOf(endpoints[n], c.id) == if c.id in byContact then byContact[c.id] else []
    ensures ContactLines(out + [ContactLine(c, if c.id in byContact then byContact[c.id] else [])],
                         rows + [c], tenant, tables, endpoints, pageSize)
    ensures |out| == |rows|
  {
    hide EndpointsOf;
    PageOf(n, pageSize, i);
  }

  /** Fetch the endpoints of a page of contacts in one query, and group them. */
  method PageEndpoints(page: seq<Contact>, eps: seq<Endpoint>) returns (byContact: map<Uuid, seq<Endpoint>>)
    ensures forall c <- page :: EndpointsOf(eps, c.id) == if c.id in byContact then byContact[c.id] else []
  {
    var ids := set c <- page :: c.id;
    byContact := GroupByContact(EndpointsFor(eps, ids));
    forall c <- page ensures EndpointsOf(EndpointsFor(eps, ids), c.id) == EndpointsOf(eps, c.id) {
      PageHasItsEndpoints(eps, ids, c.id);
    }
  }
}
