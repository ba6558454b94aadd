/** Keyset pagination over a table that changes between pages. */
module Keyset {
  import opened Wrappers

  /** The cursor: a time, and an id to break ties. */
  datatype Key = Key(time: int, id: Uuid)

  /** The row comparison `(time, id) < (time, id)`. */
  predicate Before(a: Key, b: Key) {
    a.time < b.time || (a.time == b.time && a.id < b.id)
  }

  predicate AtMost(a: Key, b: Key) {
    a == b || Before(a, b)
  }

  /** A table, the rows an export is about, and their keys. */
  datatype View<!R> = View(wanted: R -> bool, key: R -> Key)

  ghost predicate KeyedByView<R>(v: View<R>, t: map<Uuid, R>) {
    forall id :: id in t ==> v.key(t[id]).id == id
  }

  ghost predicate Increasing<R>(v: View<R>, rows: seq<R>) {
    forall i, j :: 0 <= i < j < |rows| ==> Before(v.key(rows[i]), v.key(rows[j]))
  }

  predicate InTable<R(==)>(v: View<R>, t: map<Uuid, R>, r: R) {
    v.key(r).id in t && t[v.key(r).id] == r && v.wanted(r)
  }

  /** The page query may return `rows`: wanted rows above the cursor, in key order, at most
      `limit`; one left out means the page is full and the row is above all of it. */
  ghost predicate IsPage<R>(v: View<R>, t: map<Uuid, R>, cursor: Key, limit: nat, rows: seq<R>) {
    && |rows| <= limit && Increasing(v, rows)
    && (forall i :: 0 <= i < |rows| ==> InTable(v, t, rows[i]) && Before(cursor, v.key(rows[i])))
    && (forall id :: id in t && v.wanted(t[id]) && Before(cursor, v.key(t[id])) ==>
          t[id] in rows || (|rows| == limit && forall i :: 0 <= i < |rows| ==> Before(v.key(rows[i]), v.key(t[id]))))
  }

  lemma {:induction false} LeastKeyExists(keys: set<Key>)
    requires keys != {}
    ensures exists least <- keys :: forall k <- keys :: AtMost(least, k)
  {
    var first :| first in keys;
    if keys == {first} {
      assert forall k <- keys :: AtMost(first, k);
    } else {
      LeastKeyExists(keys - {first});
      var rest :| rest in keys - {first} && forall k <- keys - {first} :: AtMost(rest, k);
      var least := if Before(first, rest) then first else rest;
      assert forall k <- keys :: k == first || k in keys - {first};
      assert least in keys && forall k <- keys :: AtMost(least, k);
    }
  }

  lemma LeastExists<R>(v: View<R>, t: map<Uuid, R>, ids: set<Uuid>)
    requires ids != {} && ids <= t.Keys
    ensures exists least :: least in ids && forall id <- ids :: AtMost(v.key(t[least]), v.key(t[id]))
  {
    var keys := set id | id in ids :: v.key(t[id]);
    var some :| some in ids;
    assert v.key(t[some]) in keys;
    LeastKeyExists(keys);
    var k :| k in keys && forall k' <- keys :: AtMost(k, k');
    var least :| least in ids && v.key(t[least]) == k;
    assert forall id <- ids :: v.key(t[id]) in keys;
  }

  method QueryPage<R(==)>(v: View<R>, t: map<Uuid, R>, cursor: Key, limit: nat) returns (rows: seq<R>)
    requires KeyedByView(v, t)
    ensures IsPage(v, t, cursor, limit, rows)
  {
    rows := [];
    var all := set id | id in t && v.wanted(t[id]) && Before(cursor, v.key(t[id]));
    var left := all;
    while left != {} && |rows| < limit
      invariant |rows| <= limit && left <= all && Increasing(v, rows)
      invariant forall i :: 0 <= i < |rows| ==> InTable(v, t, rows[i]) && Before(cursor, v.key(rows[i]))
      invariant forall id <- left :: forall i :: 0 <= i < |rows| ==> Before(v.key(rows[i]), v.key(t[id]))
      invariant forall id <- all :: id in left || t[id] in rows
    {
      LeastExists(v, t, left);
      var least :| least in left && forall id <- left :: AtMost(v.key(t[least]), v.key(t[id]));
      rows := rows + [t[least]];
      left := left - {least};
    }
    forall id | id in t && v.wanted(t[id]) && Before(cursor, v.key(t[id])) && t[id] !in rows
      ensures |rows| == limit && forall i :: 0 <= i < |rows| ==> Before(v.key(rows[i]), v.key(t[id]))
    {
      assert id in all;
    }
  }

  // ----- What the pages read so far amount to -----

  /** A row with key `k` was there, wanted, in each of the first `n` tables. */
  ghost predicate Throughout<R(!new)>(v: View<R>, tables: seq<map<Uuid, R>>, n: nat, k: Key)
    requires n <= |tables|
  {
    forall i :: 0 <= i < n ==> k.id in tables[i] && v.wanted(tables[i][k.id]) && v.key(tables[i][k.id]) == k
  }

  ghost predicate HasKeyOf<R>(v: View<R>, rows: seq<R>, k: Key) {
    exists i :: 0 <= i < |rows| && v.key(rows[i]) == k
  }

  /** The row was in one of the first `n` tables. */
  ghost predicate WasRead<R>(v: View<R>, tables: seq<map<Uuid, R>>, n: nat, r: R)
    requires n <= |tables|
  {
    exists k :: 0 <= k < n && InTable(v, tables[k], r)
  }

  /** Rows come out in strictly increasing key order from above `start`, and each was in one
      of the tables read. */
  ghost predicate Output<R(!new)>(v: View<R>, tables: seq<map<Uuid, R>>, n: nat, start: Key, rows: seq<R>)
    requires n <= |tables|
  {
    && Increasing(v, rows)
    && (forall i :: 0 <= i < |rows| ==> Before(start, v.key(rows[i])))
    && (forall i :: 0 <= i < |rows| ==> WasRead(v, tables, n, rows[i]))
  }

  /** The output so far, none of it above the cursor. */
  ghost predicate Streamed<R(!new)>(v: View<R>, tables: seq<map<Uuid, R>>, n: nat, start: Key, cursor: Key,
                                    rows: seq<R>)
    requires n <= |tables|
  {
    && Output(v, tables, n, start, rows) && AtMost(start, cursor)
    && forall i :: 0 <= i < |rows| ==> AtMost(v.key(rows[i]), cursor)
  }

  /** Every row present throughout, above `start` and up to the cursor, has come out. */
  ghost predicate CoveredTo<R(!new)>(v: View<R>, tables: seq<map<Uuid, R>>, n: nat, start: Key, cursor: Key,
                                     rows: seq<R>)
    requires n <= |tables|
  {
    forall k :: Throughout(v, tables, n, k) && Before(start, k) && AtMost(k, cursor) ==> HasKeyOf(v, rows, k)
  }

  /** Every row present throughout and above `start` has come out. */
  ghost predicate Covered<R(!new)>(v: View<R>, tables: seq<map<Uuid, R>>, n: nat, start: Key, rows: seq<R>)
    requires n <= |tables|
  {
    forall k :: Throughout(v, tables, n, k) && Before(start, k) ==> HasKeyOf(v, rows, k)
  }

  /** The cursor after writing the first `i` rows of a page. */
  function Advance<R>(v: View<R>, cursor: Key, page: seq<R>, i: nat): Key
    requires i <= |page|
  {
    if i == 0 then cursor else v.key(page[i - 1])
  }

  lemma PageStreams<R(!new)>(v: View<R>, tables: seq<map<Uuid, R>>, n: nat, start: Key, cursor: Key, rows: seq<R>,
                             limit: nat, page: seq<R>, i: nat)
    requires n < |tables| && Streamed(v, tables, n, start, cursor, rows)
    requires IsPage(v, tables[n], cursor, limit, page) && i <= |page|
    ensures Streamed(v, tables, n + 1, start, Advance(v, cursor, page, i), rows + page[..i])
  {
    var more := rows + page[..i];
    forall k | 0 <= k < |more| ensures WasRead(v, tables, n + 1, more[k]) {
      if k < |rows| {
        assert more[k] == rows[k] && WasRead(v, tables, n, rows[k]);
      } else {
        assert InTable(v, tables[n], more[k]);
      }
    }
  }

  lemma PageCovers<R(!new)>(v: View<R>, tables: seq<map<Uuid, R>>, n: nat, start: Key, cursor: Key, rows: seq<R>,
                            limit: nat, page: seq<R>)
    requires n < |tables| && limit > 0 && CoveredTo(v, tables, n, start, cursor, rows)
    requires IsPage(v, tables[n], cursor, limit, page)
    ensures if |page| < limit then Covered(v, tables, n + 1, start, rows + page)
            else CoveredTo(v, tables, n + 1, start, Advance(v, cursor, page, |page|), rows + page)
  {
    var all := rows + page;
    forall k | Throughout(v, tables, n + 1, k) && Before(start, k)
               && (|page| == limit ==> AtMost(k, Advance(v, cursor, page, |page|)))
      ensures HasKeyOf(v, all, k)
    {
      assert Throughout(v, tables, n, k);
      if AtMost(k, cursor) {
        assert HasKeyOf(v, rows, k);
        var i :| 0 <= i < |rows| && v.key(rows[i]) == k;
        assert all[i] == rows[i];
      } else {
        assert Before(cursor, k);
        var r := tables[n][k.id];
        assert r in page;
        var i :| 0 <= i < |page| && page[i] == r;
        assert all[|rows| + i] == r;
      }
    }
  }

  // ----- A table that does not change -----

  ghost predicate Frozen<R>(tables: seq<map<Uuid, R>>, t: map<Uuid, R>) {
    forall i :: 0 <= i < |tables| ==> tables[i] == t
  }

  /** `rows` is exactly the wanted rows above `start`, in key order. */
  ghost predicate IsSortedTable<R(!new)>(v: View<R>, t: map<Uuid, R>, start: Key, rows: seq<R>) {
    && Increasing(v, rows)
    && (forall r :: r in rows <==> InTable(v, t, r) && Before(start, v.key(r)))
  }

  lemma FrozenIsSortedTable<R(!new)>(v: View<R>, tables: seq<map<Uuid, R>>, n: nat, start: Key,
                                     rows: seq<R>, t: map<Uuid, R>)
    requires n <= |tables| && Output(v, tables, n, start, rows) && Covered(v, tables, n, start, rows)
    requires KeyedByView(v, t) && forall i :: 0 <= i < n ==> tables[i] == t
    ensures n > 0 ==> IsSortedTable(v, t, start, rows)
  {
    forall r | n > 0 && InTable(v, t, r) && Before(start, v.key(r)) ensures r in rows {
      assert Throughout(v, tables, n, v.key(r));
      var i :| 0 <= i < |rows| && v.key(rows[i]) == v.key(r);
      assert rows[i] in rows;
    }
  }

  function WantedAbove<R>(v: View<R>, t: map<Uuid, R>, start: Key): set<Uuid> {
    set id | id in t && v.wanted(t[id]) && Before(start, v.key(t[id]))
  }

  /** No more rows come out of a frozen table than it has. */
  lemma FrozenBound<R(!new)>(v: View<R>, t: map<Uuid, R>, start: Key, rows: seq<R>)
    requires Increasing(v, rows)
    requires forall i :: 0 <= i < |rows| ==> InTable(v, t, rows[i]) && Before(start, v.key(rows[i]))
    ensures |rows| <= |WantedAbove(v, t, start)|
  {
    var ids := set i | 0 <= i < |rows| :: v.key(rows[i]).id;
    DistinctIds(v, rows, t);
    assert ids <= WantedAbove(v, t, start);
    SubsetCardinality(ids, WantedAbove(v, t, start));
  }

  lemma {:induction false} DistinctIds<R(!new)>(v: View<R>, rows: seq<R>, t: map<Uuid, R>)
    requires Increasing(v, rows) && forall i :: 0 <= i < |rows| ==> InTable(v, t, rows[i])
    ensures |set i | 0 <= i < |rows| :: v.key(rows[i]).id| == |rows|
  {
    var ids := set i | 0 <= i < |rows| :: v.key(rows[i]).id;
    if rows != [] {
      var init := rows[..|rows| - 1];
      var before := set i | 0 <= i < |init| :: v.key(init[i]).id;
      var last := v.key(rows[|rows| - 1]).id;
      DistinctIds(v, init, t);
      assert ids == before + {last} by {
        forall id | id in ids ensures id in before + {last} {
          var i :| 0 <= i < |rows| && v.key(rows[i]).id == id;
          assert i < |init| ==> v.key(init[i]).id == id;
        }
        forall id | id in before ensures id in ids {
          var i :| 0 <= i < |init| && v.key(init[i]).id == id;
          assert v.key(rows[i]).id == id;
        }
      }
      assert last !in before by {
        forall i | 0 <= i < |init| ensures v.key(init[i]).id != last {
          assert Before(v.key(rows[i]), v.key(rows[|rows| - 1]));
        }
      }
    }
  }

  lemma {:induction false} SubsetCardinality(a: set<Uuid>, b: set<Uuid>)
    requires a <= b
    ensures |a| <= |b|
  {
    if a != {} {
      var x :| x in a;
      SubsetCardinality(a - {x}, b - {x});
    }
  }

  /** There is only one sorted table. */
  lemma {:induction false} SortedTableIsUnique<R(!new)>(v: View<R>, p: seq<R>, q: seq<R>)
    requires Increasing(v, p) && Increasing(v, q) && forall r :: r in p <==> r in q
    ensures p == q
  {
    if p == [] {
      NonEmptyHasMember(q);
    } else {
      assert p[0] in q && q[|q| - 1] in p && p[|p| - 1] in q;
      var a, b := p[..|p| - 1], q[..|q| - 1];
      assert p[|p| - 1] == q[|q| - 1];
      forall r ensures r in a <==> r in b {
        assert r in p <==> r in a || r == p[|p| - 1];
        assert r in q <==> r in b || r == q[|q| - 1];
        if r in a {
          var i :| 0 <= i < |a| && a[i] == r;
          assert Before(v.key(p[i]), v.key(p[|p| - 1]));
        }
        if r in b {
          var i :| 0 <= i < |b| && b[i] == r;
          assert Before(v.key(q[i]), v.key(q[|q| - 1]));
        }
      }
      SortedTableIsUnique(v, a, b);
      assert p == a + [p[|p| - 1]] && q == b + [q[|q| - 1]];
    }
  }

  // ----- Steps of an export -----

  lemma StreamStart<R(!new)>(v: View<R>, tables: seq<map<Uuid, R>>, start: Key)
    ensures Streamed(v, tables, 0, start, start, []) && CoveredTo(v, tables, 0, start, start, [])
  {}

  /** What one page adds, wherever in it the writing stops. */
  lemma PageStep<R(!new)>(v: View<R>, tables: seq<map<Uuid, R>>, n: nat, start: Key, cursor: Key, rows: seq<R>,
                          limit: nat, page: seq<R>)
    requires n < |tables| && limit > 0
    requires Streamed(v, tables, n, start, cursor, rows) && CoveredTo(v, tables, n, start, cursor, rows)
    requires IsPage(v, tables[n], cursor, limit, page)
    ensures |page| <= limit
    ensures forall i :: 0 <= i <= |page| ==> Output(v, tables, n + 1, start, rows + page[..i])
    ensures Streamed(v, tables, n + 1, start, Advance(v, cursor, page, |page|), rows + page)
    ensures if |page| < limit then Covered(v, tables, n + 1, start, rows + page)
            else CoveredTo(v, tables, n + 1, start, Advance(v, cursor, page, |page|), rows + page)
  {
    PageCovers(v, tables, n, start, cursor, rows, limit, page);
    forall i | 0 <= i <= |page| ensures Output(v, tables, n + 1, start, rows + page[..i]) {
      PageStreams(v, tables, n, start, cursor, rows, limit, page, i);
    }
    PageStreams(v, tables, n, start, cursor, rows, limit, page, |page|);
    assert page[..|page|] == page;
  }

  lemma StreamedIsOutput<R(!new)>(v: View<R>, tables: seq<map<Uuid, R>>, n: nat, start: Key, cursor: Key, rows: seq<R>)
    requires n <= |tables| && Streamed(v, tables, n, start, cursor, rows)
    ensures Output(v, tables, n, start, rows)
  {}

  // ----- Between two pages -----

  /** Where an export stands before a page: the rows written so far, and the cursor. */
  datatype Mark = Mark(written: nat, cursor: Key)

  /** `mark` is where the export stands after `p` full pages: the rows written by then come
      from the tables read by then, and the cursor is the key of the last of them. */
  ghost predicate MarkAt<R(!new)>(v: View<R>, tables: seq<map<Uuid, R>>, start: Key, pageSize: nat, p: nat,
                                  rows: seq<R>, mark: Mark)
    requires p <= |tables|
  {
    && mark.written == p * pageSize <= |rows| && mark.cursor == Advance(v, start, rows, mark.written)
    && Output(v, tables, p, start, rows[..mark.written])
  }

  /** One mark for each page read. */
  ghost predicate Marked<R(!new)>(v: View<R>, tables: seq<map<Uuid, R>>, start: Key, pageSize: nat, rows: seq<R>,
                                  marks: seq<Mark>)
  {
    |marks| <= |tables| && forall p :: 0 <= p < |marks| ==> MarkAt(v, tables, start, pageSize, p, rows, marks[p])
  }

  /** What came after a mark, up to a later cursor: an export from there. */
  ghost predicate StreamedFrom<R(!new)>(v: View<R>, tables: seq<map<Uuid, R>>, n: nat, p: nat, mark: Mark, cursor: Key,
                                        rows: seq<R>)
    requires p <= n <= |tables|
  {
    && mark.written <= |rows|
    && Streamed(v, tables[p..], n - p, mark.cursor, cursor, rows[mark.written..])
    && CoveredTo(v, tables[p..], n - p, mark.cursor, cursor, rows[mark.written..])
  }

  ghost predicate StreamedFromAll<R(!new)>(v: View<R>, tables: seq<map<Uuid, R>>, n: nat, marks: seq<Mark>, cursor: Key,
                                           rows: seq<R>)
    requires n <= |tables|
  {
    |marks| == n && forall p :: 0 <= p < n ==> StreamedFrom(v, tables, n, p, marks[p], cursor, rows)
  }

  /** The rows that a finished export wrote after a mark: all above its cursor, and every
      row there throughout the pages from it on. */
  ghost predicate FinishedFrom<R(!new)>(v: View<R>, tables: seq<map<Uuid, R>>, n: nat, p: nat, mark: Mark, rows: seq<R>)
    requires p <= n <= |tables|
  {
    && mark.written <= |rows|
    && Output(v, tables[p..], n - p, mark.cursor, rows[mark.written..])
    && Covered(v, tables[p..], n - p, mark.cursor, rows[mark.written..])
  }

  ghost predicate FinishedFromAll<R(!new)>(v: View<R>, tables: seq<map<Uuid, R>>, marks: seq<Mark>, rows: seq<R>)
    requires |marks| <= |tables|
  {
    forall p :: 0 <= p < |marks| ==> FinishedFrom(v, tables, |marks|, p, marks[p], rows)
  }

  /** Not there for the first `p` pages, and there for the rest of the first `n`. */
  ghost predicate AppearsAt<R(!new)>(v: View<R>, tables: seq<map<Uuid, R>>, n: nat, p: nat, k: Key)
    requires p <= n <= |tables|
  {
    && (forall i :: 0 <= i < p ==> !(k.id in tables[i] && v.wanted(tables[i][k.id]) && v.key(tables[i][k.id]) == k))
    && Throughout(v, tables[p..], n - p, k)
  }

  lemma FirstMark<R(!new)>(v: View<R>, tables: seq<map<Uuid, R>>, start: Key, pageSize: nat)
    ensures Marked(v, tables, start, pageSize, [], []) && StreamedFromAll(v, tables, 0, [], start, [])
  {}

  /** Before a page the export stands where its own next mark says. */
  lemma NextMark<R(!new)>(v: View<R>, tables: seq<map<Uuid, R>>, start: Key, pageSize: nat, rows: seq<R>,
                          marks: seq<Mark>, cursor: Key)
    requires Marked(v, tables, start, pageSize, rows, marks) && |marks| < |tables|
    requires Output(v, tables, |marks|, start, rows) && |rows| == |marks| * pageSize
    requires cursor == Advance(v, start, rows, |rows|)
    ensures Marked(v, tables, start, pageSize, rows, marks + [Mark(|rows|, cursor)])
    ensures StreamedFrom(v, tables, |marks|, |marks|, Mark(|rows|, cursor), cursor, rows)
  {
    assert rows[..|rows|] == rows && rows[|rows|..] == [];
    StreamStart(v, tables[|marks|..], cursor);
  }

  /** More rows leave the marks where they were. */
  lemma MarksStay<R(!new)>(v: View<R>, tables: seq<map<Uuid, R>>, start: Key, pageSize: nat, rows: seq<R>,
                           marks: seq<Mark>, more: seq<R>)
    requires Marked(v, tables, start, pageSize, rows, marks)
    ensures Marked(v, tables, start, pageSize, rows + more, marks)
  {
    hide Output;
    forall p | 0 <= p < |marks| ensures MarkAt(v, tables, start, pageSize, p, rows + more, marks[p]) {
      assert MarkAt(v, tables, start, pageSize, p, rows, marks[p]);
      assert (rows + more)[..marks[p].written] == rows[..marks[p].written];
    }
  }

  /** A page extends what came after each mark, too. */
  lemma PageFromMark<R(!new)>(v: View<R>, tables: seq<map<Uuid, R>>, n: nat, p: nat, mark: Mark, cursor: Key,
                              rows: seq<R>, limit: nat, page: seq<R>)
    requires p <= n < |tables| && limit > 0 && StreamedFrom(v, tables, n, p, mark, cursor, rows)
    requires IsPage(v, tables[n], cursor, limit, page)
    ensures if |page| < limit then FinishedFrom(v, tables, n + 1, p, mark, rows + page)
            else StreamedFrom(v, tables, n + 1, p, mark, Advance(v, cursor, page, |page|), rows + page)
  {
    hide IsPage, Streamed, CoveredTo, Covered, Output;
    assert tables[p..][n - p] == tables[n];
    PageStep(v, tables[p..], n - p, mark.cursor, cursor, rows[mark.written..], limit, page);
    assert (rows + page)[mark.written..] == rows[mark.written..] + page;
    assert page[..|page|] == page;
  }

  /** From every mark on: a full page goes on, a short one finishes. */
  lemma PageFromMarks<R(!new)>(v: View<R>, tables: seq<map<Uuid, R>>, n: nat, marks: seq<Mark>, cursor: Key,
                               rows: seq<R>, limit: nat, page: seq<R>)
    requires n < |tables| && limit > 0 && |marks| == n + 1
    requires forall p :: 0 <= p <= n ==> StreamedFrom(v, tables, n, p, marks[p], cursor, rows)
    requires IsPage(v, tables[n], cursor, limit, page)
    ensures if |page| < limit then FinishedFromAll(v, tables, marks, rows + page)
            else StreamedFromAll(v, tables, n + 1, marks, Advance(v, cursor, page, |page|), rows + page)
  {
    hide IsPage, StreamedFrom, FinishedFrom;
    forall p | 0 <= p <= n
      ensures if |page| < limit then FinishedFrom(v, tables, n + 1, p, marks[p], rows + page)
              else StreamedFrom(v, tables, n + 1, p, marks[p], Advance(v, cursor, page, |page|), rows + page)
    {
      PageFromMark(v, tables, n, p, marks[p], cursor, rows, limit, page);
    }
  }

  /** After a mark, a row that is there for the rest comes out exactly when it is above the
      cursor. */
  lemma RestComesOutExactlyWhenAhead<R(!new)>(v: View<R>, tables: seq<map<Uuid, R>>, n: nat, p: nat, mark: Mark,
                                              rows: seq<R>, k: Key)
    requires p <= n <= |tables| && FinishedFrom(v, tables, n, p, mark, rows) && Throughout(v, tables[p..], n - p, k)
    ensures HasKeyOf(v, rows[mark.written..], k) <==> Before(mark.cursor, k)
  {}

  /** A row that appears between two pages and stays comes out exactly when it is above the
      cursor the export stands at: behind the cursor it is skipped. */
  lemma LateRowComesOutExactlyWhenAhead<R(!new)>(v: View<R>, tables: seq<map<Uuid, R>>, start: Key, pageSize: nat,
                                                 n: nat, p: nat, mark: Mark, rows: seq<R>, k: Key)
    requires p <= n <= |tables| && MarkAt(v, tables, start, pageSize, p, rows, mark)
    requires FinishedFrom(v, tables, n, p, mark, rows) && AppearsAt(v, tables, n, p, k)
    ensures HasKeyOf(v, rows, k) <==> Before(mark.cursor, k)
  {
    RestComesOutExactlyWhenAhead(v, tables, n, p, mark, rows, k);
    NotYetWritten(v, tables, start, p, rows[..mark.written], k);
    hide FinishedFrom, AppearsAt, Output;
    KeyInEitherPart(v, rows, mark.written, k);
  }

  lemma KeyInEitherPart<R>(v: View<R>, rows: seq<R>, m: nat, k: Key)
    requires m <= |rows|
    ensures HasKeyOf(v, rows, k) <==> HasKeyOf(v, rows[..m], k) || HasKeyOf(v, rows[m..], k)
  {
    if HasKeyOf(v, rows, k) {
      var i :| 0 <= i < |rows| && v.key(rows[i]) == k;
      assert if i < m then v.key(rows[..m][i]) == k else v.key(rows[m..][i - m]) == k;
    }
    if HasKeyOf(v, rows[..m], k) {
      var i :| 0 <= i < m && v.key(rows[..m][i]) == k;
      assert v.key(rows[i]) == k;
    }
    if HasKeyOf(v, rows[m..], k) {
      var i :| 0 <= i < |rows[m..]| && v.key(rows[m..][i]) == k;
      assert v.key(rows[m + i]) == k;
    }
  }

  lemma NotYetWritten<R(!new)>(v: View<R>, tables: seq<map<Uuid, R>>, start: Key, p: nat, rows: seq<R>, k: Key)
    requires p <= |tables| && Output(v, tables, p, start, rows)
    requires forall i :: 0 <= i < p ==> !(k.id in tables[i] && v.wanted(tables[i][k.id]) && v.key(tables[i][k.id]) == k)
    ensures !HasKeyOf(v, rows, k)
  {
    forall i | 0 <= i < |rows| ensures v.key(rows[i]) != k {
      assert WasRead(v, tables, p, rows[i]);
      var m :| 0 <= m < p && InTable(v, tables[m], rows[i]);
    }
  }

  /** Every row that appeared between two pages of a finished export and stayed. */
  ghost predicate LateRowsDecided<R(!new)>(v: View<R>, tables: seq<map<Uuid, R>>, marks: seq<Mark>, rows: seq<R>)
    requires |marks| <= |tables|
  {
    forall p, k :: 0 <= p < |marks| && AppearsAt(v, tables, |marks|, p, k) ==>
      (HasKeyOf(v, rows, k) <==> Before(marks[p].cursor, k))
  }

  lemma LateRowsAreDecided<R(!new)>(v: View<R>, tables: seq<map<Uuid, R>>, start: Key, pageSize: nat, marks: seq<Mark>,
                                    rows: seq<R>)
    requires Marked(v, tables, start, pageSize, rows, marks) && FinishedFromAll(v, tables, marks, rows)
    ensures LateRowsDecided(v, tables, marks, rows)
  {
    hide AppearsAt, MarkAt, FinishedFrom, HasKeyOf, Before;
    forall p, k | 0 <= p < |marks| && AppearsAt(v, tables, |marks|, p, k)
      ensures HasKeyOf(v, rows, k) <==> Before(marks[p].cursor, k)
    {
      LateRowComesOutExactlyWhenAhead(v, tables, start, pageSize, |marks|, p, marks[p], rows, k);
    }
  }

  /** An export that finished over a table that stood still is that table, sorted. */
  lemma Finished<R(!new)>(v: View<R>, tables: seq<map<Uuid, R>>, n: nat, start: Key, rows: seq<R>)
    requires 0 < n <= |tables| && Output(v, tables, n, start, rows) && Covered(v, tables, n, start, rows)
    requires forall t <- tables :: KeyedByView(v, t)
    ensures forall t :: Frozen(tables, t) ==> IsSortedTable(v, t, start, rows)
  {
    forall t | Frozen(tables, t) ensures IsSortedTable(v, t, start, rows) {
      assert tables[0] == t && t in tables;
      FrozenIsSortedTable(v, tables, n, start, rows, t);
    }
  }

  /** Over a table that stands still, full pages run out. */
  lemma Unfinished<R(!new)>(v: View<R>, tables: seq<map<Uuid, R>>, start: Key, rows: seq<R>)
    requires Output(v, tables, |tables|, start, rows)
    ensures forall t :: Frozen(tables, t) ==> |rows| <= |WantedAbove(v, t, start)|
  {
    forall t | Frozen(tables, t) ensures |rows| <= |WantedAbove(v, t, start)| {
      FrozenBound(v, t, start, rows);
    }
  }

  // ----- A whole export -----

  /** `n` full pages have been written, and the export stands at `cursor`. */
  ghost predicate Underway<R(!new)>(v: View<R>, tables: seq<map<Uuid, R>>, start: Key, pageSize: nat, n: nat,
                                    cursor: Key, rows: seq<R>, marks: seq<Mark>)
    requires n <= |tables|
  {
    && |rows| == n * pageSize && cursor == Advance(v, start, rows, |rows|)
    && Streamed(v, tables, n, start, cursor, rows) && CoveredTo(v, tables, n, start, cursor, rows)
    && Marked(v, tables, start, pageSize, rows, marks) && StreamedFromAll(v, tables, n, marks, cursor, rows)
  }

  /** What holds wherever the writing stops, with `n` pages read: the rows come out in
      strictly increasing key order, each was in one of the tables read, and each page has
      its mark. */
  ghost predicate Partial<R(!new)>(v: View<R>, tables: seq<map<Uuid, R>>, start: Key, pageSize: nat, n: nat,
                                   rows: seq<R>, marks: seq<Mark>)
  {
    |marks| == n <= |tables| && Output(v, tables, n, start, rows) && Marked(v, tables, start, pageSize, rows, marks)
  }

  /** A finished export: every row that was there throughout has come out; of the rows that
      appeared between two pages and stayed, exactly those above the cursor; and over a
      table that stood still it is that table, sorted. */
  ghost predicate Done<R(!new)>(v: View<R>, tables: seq<map<Uuid, R>>, start: Key, pageSize: nat, n: nat,
                                rows: seq<R>, marks: seq<Mark>)
  {
    && Partial(v, tables, start, pageSize, n, rows, marks) && n > 0 && Covered(v, tables, n, start, rows)
    && FinishedFromAll(v, tables, marks, rows) && LateRowsDecided(v, tables, marks, rows)
    && forall t :: Frozen(tables, t) ==> IsSortedTable(v, t, start, rows)
  }

  lemma Starts<R(!new)>(v: View<R>, tables: seq<map<Uuid, R>>, start: Key, pageSize: nat)
    ensures Underway(v, tables, start, pageSize, 0, start, [], [])
  {
    StreamStart(v, tables, start);
    FirstMark(v, tables, start, pageSize);
  }

  /** Before a page: its mark, and that every row after each mark has come out so far. */
  lemma MarkPage<R(!new)>(v: View<R>, tables: seq<map<Uuid, R>>, start: Key, pageSize: nat, n: nat, cursor: Key,
                          rows: seq<R>, marks: seq<Mark>)
    requires n < |tables| && Underway(v, tables, start, pageSize, n, cursor, rows, marks)
    ensures var marks' := marks + [Mark(|rows|, cursor)];
            && |marks'| == n + 1 && Marked(v, tables, start, pageSize, rows, marks')
            && forall p :: 0 <= p <= n ==> StreamedFrom(v, tables, n, p, marks'[p], cursor, rows)
  {
    StreamedIsOutput(v, tables, n, start, cursor, rows);
    hide Streamed, CoveredTo, Output, Marked, StreamedFrom, Advance;
    NextMark(v, tables, start, pageSize, rows, marks, cursor);
    var marks' := marks + [Mark(|rows|, cursor)];
    forall p | 0 <= p <= n ensures StreamedFrom(v, tables, n, p, marks'[p], cursor, rows) {
      if p < n {
        assert StreamedFrom(v, tables, n, p, marks[p], cursor, rows);
      }
    }
  }

  lemma CursorIsLast<R>(v: View<R>, start: Key, before: seq<R>, page: seq<R>)
    ensures Advance(v, start, before + page, |before + page|) ==
            Advance(v, Advance(v, start, before, |before|), page, |page|)
  {}

  /** One page: wherever its writing stops the export is partial; a short page finishes it,
      a full one keeps it underway. */
  lemma OnePage<R(!new)>(v: View<R>, tables: seq<map<Uuid, R>>, start: Key, pageSize: nat, n: nat, cursor: Key,
                         rows: seq<R>, marks: seq<Mark>, page: seq<R>)
    requires n < |tables| && pageSize > 0 && Underway(v, tables, start, pageSize, n, cursor, rows, marks)
    requires IsPage(v, tables[n], cursor, pageSize, page) && forall t <- tables :: KeyedByView(v, t)
    ensures |page| <= pageSize
    ensures var marks' := marks + [Mark(|rows|, cursor)];
            && (forall i :: 0 <= i <= |page| ==> Partial(v, tables, start, pageSize, n + 1, rows + page[..i], marks'))
            && if |page| < pageSize then Done(v, tables, start, pageSize, n + 1, rows + page, marks')
               else Underway(v, tables, start, pageSize, n + 1, Advance(v, cursor, page, |page|), rows + page, marks')
  {
    var marks' := marks + [Mark(|rows|, cursor)];
    MarkPage(v, tables, start, pageSize, n, cursor, rows, marks);
    PageStep(v, tables, n, start, cursor, rows, pageSize, page);
    PageFromMarks(v, tables, n, marks', cursor, rows, pageSize, page);
    CursorIsLast(v, start, rows, page);
    hide Streamed, CoveredTo, Covered, Output, Marked, StreamedFrom, FinishedFromAll, Advance, IsPage, LateRowsDecided;
    hide IsSortedTable, KeyedByView, StreamedFromAll;
    forall i | 0 <= i <= |page| ensures Partial(v, tables, start, pageSize, n + 1, rows + page[..i], marks') {
      MarksStay(v, tables, start, pageSize, rows, marks', page[..i]);
    }
    assert page[..|page|] == page;
    assert Partial(v, tables, start, pageSize, n + 1, rows + page, marks');
    if |page| < pageSize {
      LateRowsAreDecided(v, tables, start, pageSize, marks', rows + page);
      Finished(v, tables, n + 1, start, rows + page);
    } else {
      assert (n + 1) * pageSize == n * pageSize + pageSize;
    }
  }

  /** Full pages only: partial, and no more rows than a table that stands still has. */
  lemma RanOut<R(!new)>(v: View<R>, tables: seq<map<Uuid, R>>, start: Key, pageSize: nat, cursor: Key, rows: seq<R>,
                        marks: seq<Mark>)
    requires Underway(v, tables, start, pageSize, |tables|, cursor, rows, marks)
    ensures Partial(v, tables, start, pageSize, |tables|, rows, marks) && |rows| == |tables| * pageSize
    ensures forall t :: Frozen(tables, t) ==> |rows| <= |WantedAbove(v, t, start)|
  {
    StreamedIsOutput(v, tables, |tables|, start, cursor, rows);
    Unfinished(v, tables, start, rows);
  }
}
