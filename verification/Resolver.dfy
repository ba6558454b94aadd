/** Address-book resolution of `internal/resolver`: exact, then nearest within two
    edits, with Soundex-equal rows among the suggestions. */
module Resolver {
  import opened Wrappers
  import opened Alphabet
  import EditDistance
  import Soundex

  datatype MatchKind = Exact | Levenshtein1 | Levenshtein2 | NoMatch

  datatype ContactRow = ContactRow(shortId: string, id: Uuid)

  datatype Alt = Alt(shortId: string, contactId: Uuid, distance: nat)

  datatype Match = Match(kind: MatchKind, contactId: Option<Uuid>, alternatives: seq<Alt>)

  const UNREACHED := 0x4000_0000

  // ----- What one row contributes -----

  /** The edit distance between the folded short ids. */
  function DistanceTo(u: Unicode, shortId: string, row: ContactRow): nat {
    EditDistance.Distance(ToLower(u, shortId), ToLower(u, row.shortId))
  }

  predicate SoundsAlike(u: Unicode, shortId: string, row: ContactRow) {
    && Soundex.AmericanSoundex(u, shortId) != ""
    && Soundex.AmericanSoundex(u, row.shortId) == Soundex.AmericanSoundex(u, shortId)
  }

  predicate IsSuggestion(u: Unicode, shortId: string, row: ContactRow) {
    DistanceTo(u, shortId, row) <= 2 || SoundsAlike(u, shortId, row)
  }

  function AltOf(u: Unicode, shortId: string, row: ContactRow): Alt {
    Alt(row.shortId, row.id, DistanceTo(u, shortId, row))
  }

  /** The suggestions, in address-book order. */
  function Suggestions(u: Unicode, rows: seq<ContactRow>, shortId: string): seq<Alt> {
    if rows == [] then []
    else
      var row := rows[|rows| - 1];
      Suggestions(u, rows[..|rows| - 1], shortId)
      + if IsSuggestion(u, shortId, row) then [AltOf(u, shortId, row)] else []
  }

  // ----- Stable sorting by distance -----

  ghost predicate Sorted(alts: seq<Alt>) {
    forall i, j :: 0 <= i < j < |alts| ==> alts[i].distance <= alts[j].distance
  }

  /** The alternatives at one distance, in their order. */
  function AtDistance(alts: seq<Alt>, d: nat): (r: seq<Alt>)
    ensures forall a :: a in r <==> a in alts && a.distance == d
  {
    if alts == [] then []
    else if alts[0].distance == d then [alts[0]] + AtDistance(alts[1..], d)
    else AtDistance(alts[1..], d)
  }

  /** `out` is `alts` sorted by distance, with equal distances left in their order. */
  ghost predicate IsStableSort(alts: seq<Alt>, out: seq<Alt>) {
    Sorted(out) && forall d: nat :: AtDistance(out, d) == AtDistance(alts, d)
  }

  function InsertSorted(a: Alt, alts: seq<Alt>): (r: seq<Alt>)
    requires Sorted(alts)
    ensures Sorted(r)
    ensures forall x :: x in r <==> x == a || x in alts
  {
    if alts == [] || a.distance <= alts[0].distance then [a] + alts
    else
      var rest := InsertSorted(a, alts[1..]);
      assert forall x <- rest :: alts[0].distance <= x.distance;
      assert forall i :: 0 <= i < |rest| ==> rest[i] in rest;
      [alts[0]] + rest
  }

  /** `sort.SliceStable` by distance. */
  function StableSort(alts: seq<Alt>): (r: seq<Alt>)
    ensures Sorted(r)
    ensures forall x :: x in r <==> x in alts
  {
    if alts == [] then [] else InsertSorted(alts[0], StableSort(alts[1..]))
  }

  lemma {:induction false} InsertedAtDistance(a: Alt, alts: seq<Alt>, d: nat)
    requires Sorted(alts)
    ensures AtDistance(InsertSorted(a, alts), d) ==
            if a.distance == d then [a] + AtDistance(alts, d) else AtDistance(alts, d)
  {
    if alts == [] || a.distance <= alts[0].distance {
      assert ([a] + alts)[1..] == alts;
    } else {
      InsertedAtDistance(a, alts[1..], d);
      var rest := InsertSorted(a, alts[1..]);
      assert ([alts[0]] + rest)[1..] == rest;
      if a.distance == d {
        assert forall x <- alts[1..] :: alts[0].distance <= x.distance;
      }
    }
  }

  lemma {:induction false} SortIsStable(alts: seq<Alt>)
    ensures IsStableSort(alts, StableSort(alts))
  {
    if alts != [] {
      SortIsStable(alts[1..]);
      forall d: nat ensures AtDistance(StableSort(alts), d) == AtDistance(alts, d) {
        InsertedAtDistance(alts[0], StableSort(alts[1..]), d);
      }
    }
  }

  /** There is only one stable sort, so the library's is this one. */
  lemma StableSortIsUnique(alts: seq<Alt>, p: seq<Alt>, q: seq<Alt>)
    requires IsStableSort(alts, p) && IsStableSort(alts, q)
    ensures p == q
  {
    SameLevelsSameSequence(p, q);
  }

  lemma {:induction false} SameLevelsSameSequence(p: seq<Alt>, q: seq<Alt>)
    requires Sorted(p) && Sorted(q) && forall d: nat :: AtDistance(p, d) == AtDistance(q, d)
    ensures p == q
    decreases |p|
  {
    if p == [] {
      assert q != [] ==> AtDistance(q, q[0].distance) == AtDistance(p, q[0].distance);
    } else {
      assert p[0] in AtDistance(q, p[0].distance);
      assert q[0] in AtDistance(p, q[0].distance);
      assert p[0].distance == q[0].distance;
      assert AtDistance(p, p[0].distance) == AtDistance(q, p[0].distance);
      assert AtDistance(p, p[0].distance)[0] == p[0] && AtDistance(q, p[0].distance)[0] == q[0];
      forall d: nat ensures AtDistance(p[1..], d) == AtDistance(q[1..], d) {
        assert AtDistance(p, d) == AtDistance(q, d);
        if d == p[0].distance {
          assert AtDistance(p, d)[1..] == AtDistance(p[1..], d);
          assert AtDistance(q, d)[1..] == AtDistance(q[1..], d);
        }
      }
      SameLevelsSameSequence(p[1..], q[1..]);
    }
  }

  // ----- The resolution of a short id -----

  /** The first row whose distance is `d`. */
  ghost predicate IsFirstAt(u: Unicode, rows: seq<ContactRow>, shortId: string, k: nat, d: nat) {
    && k < |rows| && DistanceTo(u, shortId, rows[k]) == d
    && forall i :: 0 <= i < k ==> DistanceTo(u, shortId, rows[i]) != d
  }

  /** `k` is the first of the nearest rows. */
  ghost predicate IsNearest(u: Unicode, rows: seq<ContactRow>, shortId: string, k: nat) {
    && k < |rows|
    && (forall i :: 0 <= i < |rows| ==> DistanceTo(u, shortId, rows[k]) <= DistanceTo(u, shortId, rows[i]))
    && (forall i :: 0 <= i < k ==> DistanceTo(u, shortId, rows[k]) < DistanceTo(u, shortId, rows[i]))
  }

  lemma NearestExtends(u: Unicode, rows: seq<ContactRow>, shortId: string, k: nat)
    requires rows != [] && IsNearest(u, rows[..|rows| - 1], shortId, k)
    ensures var n := |rows| - 1;
            IsNearest(u, rows, shortId,
                      if DistanceTo(u, shortId, rows[n]) < DistanceTo(u, shortId, rows[k]) then n else k)
  {
    hide DistanceTo;
    var init := rows[..|rows| - 1];
    assert forall i :: 0 <= i < |init| ==> init[i] == rows[i];
  }

  /** The position of the first nearest row. */
  function Nearest(u: Unicode, rows: seq<ContactRow>, shortId: string): (k: nat)
    requires rows != []
    ensures IsNearest(u, rows, shortId, k)
  {
    if |rows| == 1 then 0
    else
      var init := rows[..|rows| - 1];
      var k := Nearest(u, init, shortId);
      NearestExtends(u, rows, shortId, k);
      if DistanceTo(u, shortId, rows[|rows| - 1]) < DistanceTo(u, shortId, rows[k]) then |rows| - 1 else k
  }

  function KindOf(d: nat): MatchKind {
    if d == 0 then Exact
    else if d == 1 then Levenshtein1
    else if d == 2 then Levenshtein2
    else NoMatch
  }

  /** The match: the kind is fixed by the least distance, the contact is the first row
      attaining it, and an exact match carries no suggestions. */
  function Resolution(u: Unicode, rows: seq<ContactRow>, shortId: string): Match {
    if rows == [] then Match(NoMatch, None, [])
    else
      var row := rows[Nearest(u, rows, shortId)];
      var kind := KindOf(DistanceTo(u, shortId, row));
      Match(kind,
            if kind == NoMatch then None else Some(row.id),
            if kind == Exact then [] else StableSort(Suggestions(u, rows, shortId)))
  }

  /** The scan's running best: its distance and contact, or none yet. */
  ghost predicate IsBestSoFar(u: Unicode, rows: seq<ContactRow>, shortId: string, bestDist: nat, bestId: Option<Uuid>) {
    if exists i :: 0 <= i < |rows| && DistanceTo(u, shortId, rows[i]) < UNREACHED then
      rows != [] && var k := Nearest(u, rows, shortId);
      bestDist == DistanceTo(u, shortId, rows[k]) && bestId == Some(rows[k].id)
    else bestDist == UNREACHED && bestId == None
  }

  method Resolve(u: Unicode, rows: seq<ContactRow>, shortId: string) returns (m: Match)
    ensures m == Resolution(u, rows, shortId)
  {
    hide IsBestSoFar, Suggestions, DistanceTo, IsSuggestion, Resolution, Sorted;
    var needle := ToLower(u, shortId);
    var needleSoundex := Soundex.Soundex(u, shortId);
    var alts: seq<Alt> := [];
    var bestDist: nat := UNREACHED;
    var bestId: Option<Uuid> := None;
    ScanStart(u, shortId);
    for n := 0 to |rows|
      invariant alts == Suggestions(u, rows[..n], shortId)
      invariant IsBestSoFar(u, rows[..n], shortId, bestDist, bestId)
      invariant forall i :: 0 <= i < n ==> DistanceTo(u, shortId, rows[i]) > 0
    {
      var row := rows[n];
      var cand := ToLower(u, row.shortId);
      if cand == needle {
        FirstZeroDecides(u, rows, shortId, n);
        return Match(Exact, Some(row.id), []);
      }
      var d, suggested := Compare(u, shortId, needle, needleSoundex, row, cand);
      ScanStep(u, rows, n, shortId, bestDist, bestId);
      if suggested {
        alts := alts + [Alt(row.shortId, row.id, d)];
      }
      if d < bestDist {
        bestDist, bestId := d, Some(row.id);
      }
    }
    assert rows[..|rows|] == rows;
    BestDecides(u, rows, shortId, bestDist, bestId);
    alts := StableSort(alts);
    if bestDist == 1 {
      m := Match(Levenshtein1, bestId, alts);
    } else if bestDist == 2 {
      m := Match(Levenshtein2, bestId, alts);
    } else {
      m := Match(NoMatch, None, alts);
    }
  }

  /** The two measures the scan takes of a row. */
  method Compare(u: Unicode, shortId: string, needle: string, needleSoundex: string, row: ContactRow, cand: string)
    returns (d: nat, suggested: bool)
    requires needle == ToLower(u, shortId) && cand == ToLower(u, row.shortId)
    requires needleSoundex == Soundex.AmericanSoundex(u, shortId)
    ensures d == DistanceTo(u, shortId, row)
    ensures suggested == IsSuggestion(u, shortId, row)
    ensures cand != needle ==> d > 0
  {
    EditDistance.ZeroIffEqual(needle, cand);
    d := EditDistance.Levenshtein(needle, cand);
    var candSoundex := Soundex.Soundex(u, row.shortId);
    suggested := d <= 2 || (needleSoundex != "" && candSoundex == needleSoundex);
  }

  lemma BestDecides(u: Unicode, rows: seq<ContactRow>, shortId: string, bestDist: nat, bestId: Option<Uuid>)
    requires IsBestSoFar(u, rows, shortId, bestDist, bestId)
    requires forall i :: 0 <= i < |rows| ==> DistanceTo(u, shortId, rows[i]) > 0
    ensures bestDist > 0
    ensures Resolution(u, rows, shortId) ==
            Match(KindOf(bestDist), if bestDist <= 2 then bestId else None,
                  StableSort(Suggestions(u, rows, shortId)))
  {
    if rows != [] {
      var k := Nearest(u, rows, shortId);
      assert DistanceTo(u, shortId, rows[k]) > 0;
    }
  }

  lemma ScanStart(u: Unicode, shortId: string)
    ensures Suggestions(u, [], shortId) == [] && IsBestSoFar(u, [], shortId, UNREACHED, None)
  {}

  lemma FirstZeroDecides(u: Unicode, rows: seq<ContactRow>, shortId: string, n: nat)
    requires n < |rows| && ToLower(u, rows[n].shortId) == ToLower(u, shortId)
    requires forall i :: 0 <= i < n ==> DistanceTo(u, shortId, rows[i]) > 0
    ensures Resolution(u, rows, shortId) == Match(Exact, Some(rows[n].id), [])
  {
    EditDistance.ZeroIffEqual(ToLower(u, shortId), ToLower(u, rows[n].shortId));
    var k := Nearest(u, rows, shortId);
    assert k == n;
  }

  lemma ScanStep(u: Unicode, rows: seq<ContactRow>, n: nat, shortId: string, bestDist: nat, bestId: Option<Uuid>)
    requires n < |rows| && IsBestSoFar(u, rows[..n], shortId, bestDist, bestId)
    ensures Suggestions(u, rows[..n + 1], shortId) ==
            if IsSuggestion(u, shortId, rows[n]) then Suggestions(u, rows[..n], shortId) + [AltOf(u, shortId, rows[n])]
            else Suggestions(u, rows[..n], shortId)
    ensures var d := DistanceTo(u, shortId, rows[n]);
            if d < bestDist then IsBestSoFar(u, rows[..n + 1], shortId, d, Some(rows[n].id))
            else IsBestSoFar(u, rows[..n + 1], shortId, bestDist, bestId)
  {
    hide DistanceTo, SoundsAlike;
    var more, d := rows[..n + 1], DistanceTo(u, shortId, rows[n]);
    assert more[..n] == rows[..n];
    var k := Nearest(u, more, shortId);
    if d < bestDist {
      assert DistanceTo(u, shortId, more[n]) < UNREACHED;
    }
    if n > 0 {
      var k0 := Nearest(u, rows[..n], shortId);
    }
  }

  // ----- What the resolution means -----

  lemma SameFoldIsDistanceZero(u: Unicode, shortId: string, row: ContactRow)
    ensures DistanceTo(u, shortId, row) == 0 <==> ToLower(u, row.shortId) == ToLower(u, shortId)
  {
    EditDistance.ZeroIffEqual(ToLower(u, shortId), ToLower(u, row.shortId));
  }

  /** The kind is fixed by the least distance and the contact is the first row attaining it. */
  lemma NearestRowDecides(u: Unicode, rows: seq<ContactRow>, shortId: string, k: nat)
    requires IsNearest(u, rows, shortId, k)
    ensures var m, d := Resolution(u, rows, shortId), DistanceTo(u, shortId, rows[k]);
            && (m.kind == Exact <==> d == 0) && (m.kind == Levenshtein1 <==> d == 1)
            && (m.kind == Levenshtein2 <==> d == 2) && (m.kind == NoMatch <==> d > 2)
            && m.contactId == if d <= 2 then Some(rows[k].id) else None
    ensures Resolution(u, rows, shortId).kind == Exact <==> ToLower(u, rows[k].shortId) == ToLower(u, shortId)
  {
    assert Nearest(u, rows, shortId) == k;
    EditDistance.ZeroIffEqual(ToLower(u, shortId), ToLower(u, rows[k].shortId));
  }

  lemma {:induction false} SuggestionsComplete(u: Unicode, rows: seq<ContactRow>, shortId: string, a: Alt)
    ensures a in Suggestions(u, rows, shortId) <==>
            exists row <- rows :: IsSuggestion(u, shortId, row) && a == AltOf(u, shortId, row)
  {
    if rows != [] {
      SuggestionsComplete(u, rows[..|rows| - 1], shortId, a);
      assert rows == rows[..|rows| - 1] + [rows[|rows| - 1]];
      assert rows[|rows| - 1] in rows;
    }
  }

  /** The row's own entry, within two edits up to letter case or with the same Soundex code. */
  predicate Suggests(u: Unicode, shortId: string, row: ContactRow, a: Alt) {
    && a.shortId == row.shortId && a.contactId == row.id
    && a.distance == EditDistance.Distance(ToLower(u, shortId), ToLower(u, row.shortId))
    && (a.distance <= 2
        || Soundex.AmericanSoundex(u, row.shortId) == Soundex.AmericanSoundex(u, shortId) != "")
  }

  /** On a result that is not exact, the alternatives are exactly the rows within two
      edits or sounding alike, stably sorted by distance. */
  lemma AlternativesAreExactlyTheSuggestions(u: Unicode, rows: seq<ContactRow>, shortId: string)
    ensures var alts := Resolution(u, rows, shortId).alternatives;
            Resolution(u, rows, shortId).kind != Exact ==>
            && IsStableSort(Suggestions(u, rows, shortId), alts)
            && forall a :: a in alts <==> exists row <- rows :: Suggests(u, shortId, row, a)
  {
    SortIsStable(Suggestions(u, rows, shortId));
    forall a ensures a in Suggestions(u, rows, shortId) <==> exists row <- rows :: Suggests(u, shortId, row, a) {
      SuggestionsComplete(u, rows, shortId, a);
      assert forall row <- rows :: Suggests(u, shortId, row, a) <==>
                                   IsSuggestion(u, shortId, row) && a == AltOf(u, shortId, row);
    }
  }

  /** Suggestions at distance `d <= 2` are the rows at that distance, so the first of
      them is the first row there. */
  lemma {:induction false} FirstSuggestionAt(u: Unicode, rows: seq<ContactRow>, shortId: string, k: nat, d: nat)
    requires d <= 2 && IsFirstAt(u, rows, shortId, k, d)
    ensures var level := AtDistance(Suggestions(u, rows, shortId), d);
            level != [] && level[0] == AltOf(u, shortId, rows[k])
  {
    hide SoundsAlike, DistanceTo;
    var init := rows[..|rows| - 1];
    var last := rows[|rows| - 1];
    var before := Suggestions(u, init, shortId);
    var added := if IsSuggestion(u, shortId, last) then [AltOf(u, shortId, last)] else [];
    AtDistanceConcat(before, added, d);
    if k < |init| {
      FirstSuggestionAt(u, init, shortId, k, d);
    } else {
      NoSuggestionAt(u, init, shortId, d);
      assert AtDistance(before + added, d) == AtDistance(added, d);
    }
  }

  lemma NoSuggestionAt(u: Unicode, rows: seq<ContactRow>, shortId: string, d: nat)
    requires forall row <- rows :: DistanceTo(u, shortId, row) != d
    ensures AtDistance(Suggestions(u, rows, shortId), d) == []
  {
    hide SoundsAlike, DistanceTo, Suggestions, AtDistance;
    var level := AtDistance(Suggestions(u, rows, shortId), d);
    forall a ensures a !in level {
      SuggestionsComplete(u, rows, shortId, a);
    }
    NonEmptyHasMember(level);
  }

  lemma {:induction false} AtDistanceConcat(p: seq<Alt>, q: seq<Alt>, d: nat)
    ensures AtDistance(p + q, d) == AtDistance(p, d) + AtDistance(q, d)
  {
    if p == [] {
      assert p + q == q;
    } else {
      var s := p + q;
      assert s[0] == p[0] && s[1..] == p[1..] + q;
      AtDistanceConcat(p[1..], q, d);
    }
  }

  /** A near match is always the first alternative. */
  lemma NearMatchIsFirstAlternative(u: Unicode, rows: seq<ContactRow>, shortId: string)
    ensures var m := Resolution(u, rows, shortId);
            m.kind in {Levenshtein1, Levenshtein2} ==>
              m.alternatives != [] && m.contactId == Some(m.alternatives[0].contactId)
              && m.kind == KindOf(m.alternatives[0].distance)
  {
    var m := Resolution(u, rows, shortId);
    if m.kind !in {Levenshtein1, Levenshtein2} {
      return;
    }
    var k := Nearest(u, rows, shortId);
    var d := DistanceTo(u, shortId, rows[k]);
    FirstSuggestionAt(u, rows, shortId, k, d);
    var level := AtDistance(Suggestions(u, rows, shortId), d);
    AlternativesAreExactlyTheSuggestions(u, rows, shortId);
    assert level == AtDistance(m.alternatives, d);
    assert level[0] in m.alternatives;
    assert m.alternatives[0] in m.alternatives;
    var row :| row in rows && IsSuggestion(u, shortId, row) && m.alternatives[0] == AltOf(u, shortId, row);
    assert m.alternatives[0].distance == d;
    assert AtDistance(m.alternatives, d)[0] == m.alternatives[0];
  }

  // ----- When the order of the address book cannot matter -----

  /** Short ids at different positions are at least five edits apart once folded. */
  ghost predicate WellSpread(u: Unicode, rows: seq<ContactRow>) {
    forall i, j :: 0 <= i < j < |rows| ==>
      EditDistance.Distance(ToLower(u, rows[i].shortId), ToLower(u, rows[j].shortId)) >= 5
  }

  lemma OnlyOneRowIsNear(u: Unicode, rows: seq<ContactRow>, shortId: string, x: ContactRow, y: ContactRow)
    requires WellSpread(u, rows) && x in rows && y in rows
    requires DistanceTo(u, shortId, x) <= 2 && DistanceTo(u, shortId, y) <= 2
    ensures x == y
  {
    var needle, a, b := ToLower(u, shortId), ToLower(u, x.shortId), ToLower(u, y.shortId);
    EditDistance.Symmetric(needle, a);
    EditDistance.Triangle(a, needle, b);
    EditDistance.Symmetric(a, b);
    var i :| 0 <= i < |rows| && rows[i] == x;
    var j :| 0 <= j < |rows| && rows[j] == y;
  }

  lemma SameMembers(rows: seq<ContactRow>, rows': seq<ContactRow>)
    requires multiset(rows) == multiset(rows')
    ensures |rows| == |rows'| && forall row :: row in rows <==> row in rows'
  {
    assert |rows| == |multiset(rows)| && |rows'| == |multiset(rows')|;
    assert forall row :: row in rows <==> row in multiset(rows);
    assert forall row :: row in rows' <==> row in multiset(rows');
  }

  /** In a well-spread address book every ordering resolves to the same kind and contact. */
  lemma OrderDoesNotMatter(u: Unicode, rows: seq<ContactRow>, rows': seq<ContactRow>, shortId: string)
    requires WellSpread(u, rows) && multiset(rows) == multiset(rows')
    ensures Resolution(u, rows, shortId).kind == Resolution(u, rows', shortId).kind
    ensures Resolution(u, rows, shortId).contactId == Resolution(u, rows', shortId).contactId
  {
    hide DistanceTo, Suggestions, StableSort, WellSpread;
    SameMembers(rows, rows');
    if rows != [] {
      var x, y := rows[Nearest(u, rows, shortId)], rows'[Nearest(u, rows', shortId)];
      assert x in rows' && y in rows;
      assert DistanceTo(u, shortId, x) == DistanceTo(u, shortId, y);
      if DistanceTo(u, shortId, x) <= 2 {
        OnlyOneRowIsNear(u, rows, shortId, x, y);
      }
    }
  }
}
