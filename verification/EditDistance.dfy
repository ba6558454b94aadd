/** The two-row Levenshtein distance of `internal/strdist`, proved to be the length of
    a shortest path of single-character edits, and a metric. */
module EditDistance {

  // ----- What an edit is -----

  /** `t` is `s` without its character at position `i`. */
  ghost predicate DeletesAt(s: string, t: string, i: nat) {
    i < |s| && t == s[..i] + s[i + 1..]
  }

  /** `t` is `s` with another (or the same) character at position `i`. */
  ghost predicate SubstitutesAt(s: string, t: string, i: nat) {
    i < |s| == |t| && t == s[i := t[i]]
  }

  /** One deletion, insertion or substitution turns `s` into `t`. */
  ghost predicate OneEdit(s: string, t: string) {
    || (exists i: nat :: DeletesAt(s, t, i))
    || (exists i: nat :: DeletesAt(t, s, i))
    || (exists i: nat :: SubstitutesAt(s, t, i))
  }

  /** An edit script, written as the texts it passes through. */
  ghost predicate IsScript(p: seq<string>, a: string, b: string) {
    && |p| > 0 && p[0] == a && p[|p| - 1] == b
    && forall k :: 0 <= k < |p| - 1 ==> OneEdit(p[k], p[k + 1])
  }

  /** `d` edits turn `a` into `b`, and no script does it in fewer. */
  ghost predicate IsLeastEdits(a: string, b: string, d: nat) {
    && (exists p :: IsScript(p, a, b) && |p| - 1 == d)
    && (forall p :: IsScript(p, a, b) ==> d <= |p| - 1)
  }

  // ----- The recurrence the table is filled with -----

  function Min3(a: int, b: int, c: int): (m: int)
    ensures m <= a && m <= b && m <= c && (m == a || m == b || m == c)
  {
    var m := if b < a then b else a;
    if c < m then c else m
  }

  function Init(s: string): string
    requires s != ""
  {
    s[..|s| - 1]
  }

  function Last(s: string): char
    requires s != ""
  {
    s[|s| - 1]
  }

  function Cost(x: char, y: char): nat {
    if x == y then 0 else 1
  }

  function Distance(a: string, b: string): nat
    decreases |a| + |b|
  {
    if a == "" then |b|
    else if b == "" then |a|
    else Min3(Distance(Init(a), b) + 1, Distance(a, Init(b)) + 1,
              Distance(Init(a), Init(b)) + Cost(Last(a), Last(b)))
  }

  // ----- Metric laws -----

  lemma {:induction false} LengthBounds(a: string, b: string)
    ensures |a| - |b| <= Distance(a, b) && |b| - |a| <= Distance(a, b)
    ensures Distance(a, b) <= if |a| < |b| then |b| else |a|
    decreases |a| + |b|
  {
    if a != "" && b != "" {
      LengthBounds(Init(a), b);
      LengthBounds(a, Init(b));
      LengthBounds(Init(a), Init(b));
    }
  }

  lemma {:induction false} ZeroIffEqual(a: string, b: string)
    ensures Distance(a, b) == 0 <==> a == b
    decreases |a| + |b|
  {
    if a != "" && b != "" {
      ZeroIffEqual(Init(a), Init(b));
      assert a == Init(a) + [Last(a)] && b == Init(b) + [Last(b)];
    }
  }

  lemma {:induction false} Symmetric(a: string, b: string)
    ensures Distance(a, b) == Distance(b, a)
    decreases |a| + |b|
  {
    if a != "" && b != "" {
      Symmetric(Init(a), b);
      Symmetric(a, Init(b));
      Symmetric(Init(a), Init(b));
    }
  }

  lemma {:induction false} Triangle(a: string, b: string, c: string)
    ensures Distance(a, c) <= Distance(a, b) + Distance(b, c)
    decreases |a| + |b| + |c|
  {
    if a == "" {
      LengthBounds(b, c);
    } else if c == "" {
      LengthBounds(a, b);
    } else if b == "" {
      LengthBounds(a, c);
    } else {
      Triangle(Init(a), b, c);
      Triangle(a, b, Init(c));
      Triangle(a, Init(b), c);
      Triangle(a, Init(b), Init(c));
      Triangle(Init(a), Init(b), c);
      Triangle(Init(a), Init(b), Init(c));
    }
  }

  // ----- The distance is the least number of edits -----

  lemma {:induction false} SharedSuffix(s: string, t: string, tail: string)
    ensures Distance(s + tail, t + tail) <= Distance(s, t)
    decreases |tail|
  {
    if tail == "" {
      assert s + tail == s && t + tail == t;
    } else {
      SharedSuffix(s, t, Init(tail));
      assert Init(s + tail) == s + Init(tail) && Init(t + tail) == t + Init(tail);
    }
  }

  lemma DeleteCostsOne(s: string, t: string, i: nat)
    requires DeletesAt(s, t, i)
    ensures Distance(s, t) <= 1 && Distance(t, s) <= 1
  {
    var u := s[..i + 1];
    assert Init(u) == s[..i];
    ZeroIffEqual(Init(u), Init(u));
    assert Distance(u, Init(u)) <= 1;
    SharedSuffix(u, Init(u), s[i + 1..]);
    assert u + s[i + 1..] == s;
    Symmetric(s, t);
  }

  lemma LastDiffersCostsOne(u: string, v: string)
    requires u != "" && v != "" && Init(u) == Init(v)
    ensures Distance(u, v) <= 1
  {
    ZeroIffEqual(Init(u), Init(v));
  }

  lemma SubstituteCostsOne(s: string, t: string, i: nat)
    requires SubstitutesAt(s, t, i)
    ensures Distance(s, t) <= 1
  {
    hide Distance;
    var u, v := s[..i + 1], t[..i + 1];
    assert Init(u) == s[..i] && Init(v) == t[..i] && s[..i] == t[..i];
    LastDiffersCostsOne(u, v);
    assert s[i + 1..] == t[i + 1..];
    SharedSuffix(u, v, s[i + 1..]);
    assert u + s[i + 1..] == s;
    assert v + s[i + 1..] == t;
  }

  lemma OneEditCostsOne(s: string, t: string)
    requires OneEdit(s, t)
    ensures Distance(s, t) <= 1
  {
    if i: nat :| DeletesAt(s, t, i) {
      DeleteCostsOne(s, t, i);
    } else if i: nat :| DeletesAt(t, s, i) {
      DeleteCostsOne(t, s, i);
    } else {
      var i: nat :| SubstitutesAt(s, t, i);
      SubstituteCostsOne(s, t, i);
    }
  }

  lemma {:induction false} NoScriptIsShorter(p: seq<string>, a: string, b: string)
    requires IsScript(p, a, b)
    ensures Distance(a, b) <= |p| - 1
    decreases |p|
  {
    if |p| == 1 {
      ZeroIffEqual(a, b);
    } else {
      NoScriptIsShorter(p[..|p| - 1], a, p[|p| - 2]);
      OneEditCostsOne(p[|p| - 2], b);
      Triangle(a, p[|p| - 2], b);
    }
  }

  /** `p` with one more text at the end. */
  lemma ExtendScript(p: seq<string>, a: string, m: string, b: string)
    requires IsScript(p, a, m) && OneEdit(m, b)
    ensures IsScript(p + [b], a, b)
  {
    var q := p + [b];
    forall k | 0 <= k < |q| - 1 ensures OneEdit(q[k], q[k + 1]) {
      if k < |p| - 1 {
        assert OneEdit(p[k], p[k + 1]);
      }
    }
  }

  lemma AppendKeepsOneEdit(s: string, t: string, c: char)
    requires OneEdit(s, t)
    ensures OneEdit(s + [c], t + [c])
  {
    if i: nat :| DeletesAt(s, t, i) {
      assert (s + [c])[i + 1..] == s[i + 1..] + [c];
      assert DeletesAt(s + [c], t + [c], i);
    } else if i: nat :| DeletesAt(t, s, i) {
      assert (t + [c])[i + 1..] == t[i + 1..] + [c];
      assert DeletesAt(t + [c], s + [c], i);
    } else {
      var i: nat :| SubstitutesAt(s, t, i);
      assert SubstitutesAt(s + [c], t + [c], i);
    }
  }

  function AppendAll(p: seq<string>, c: char): seq<string> {
    seq(|p|, k requires 0 <= k < |p| => p[k] + [c])
  }

  lemma AppendedScript(p: seq<string>, a: string, b: string, c: char)
    requires IsScript(p, a, b)
    ensures IsScript(AppendAll(p, c), a + [c], b + [c])
  {
    var q := AppendAll(p, c);
    forall k | 0 <= k < |q| - 1 ensures OneEdit(q[k], q[k + 1]) {
      AppendKeepsOneEdit(p[k], p[k + 1], c);
    }
  }

  lemma DropLastIsOneEdit(s: string)
    requires s != ""
    ensures OneEdit(s, Init(s)) && OneEdit(Init(s), s)
  {
    assert DeletesAt(s, Init(s), |s| - 1);
  }

  lemma SwapLastIsOneEdit(s: string, c: char)
    requires s != ""
    ensures OneEdit(Init(s) + [c], s)
  {
    assert SubstitutesAt(Init(s) + [c], s, |s| - 1);
  }

  /** A script with exactly `Distance(a, b)` edits. */
  lemma {:induction false} ShortestScript(a: string, b: string) returns (p: seq<string>)
    ensures IsScript(p, a, b) && |p| - 1 == Distance(a, b)
    decreases |a| + |b|
  {
    hide OneEdit;
    if a == "" && b == "" {
      p := [a];
    } else if b == "" || (a != "" && Distance(a, b) == Distance(Init(a), b) + 1) {
      var q := ShortestScript(Init(a), b);
      p := [a] + q;
      DropLastIsOneEdit(a);
    } else if a == "" || Distance(a, b) == Distance(a, Init(b)) + 1 {
      var q := ShortestScript(a, Init(b));
      DropLastIsOneEdit(b);
      ExtendScript(q, a, Init(b), b);
      p := q + [b];
    } else {
      var q := ShortestScript(Init(a), Init(b));
      AppendedScript(q, Init(a), Init(b), Last(a));
      p := AppendAll(q, Last(a));
      assert Init(a) + [Last(a)] == a && Init(b) + [Last(b)] == b;
      if Last(a) != Last(b) {
        SwapLastIsOneEdit(b, Last(a));
        ExtendScript(p, a, Init(b) + [Last(a)], b);
        p := p + [b];
      }
    }
  }

  lemma DistanceIsLeastEdits(a: string, b: string)
    ensures IsLeastEdits(a, b, Distance(a, b))
  {
    var p := ShortestScript(a, b);
    forall q | IsScript(q, a, b) ensures Distance(a, b) <= |q| - 1 {
      NoScriptIsShorter(q, a, b);
    }
  }

  // ----- The two-row table -----

  /** `row[..n]` holds the distances from `a` to the first `n` prefixes of `b`. */
  ghost predicate RowFilled(row: seq<int>, a: string, b: string, n: nat)
    requires n <= |row| == |b| + 1
  {
    forall j :: 0 <= j < n ==> row[j] == Distance(a, b[..j])
  }

  lemma FirstRow(b: string, j: nat)
    requires j <= |b|
    ensures Distance("", b[..j]) == j
  {}

  /** One cell of the table, from the three around it. */
  lemma Cell(a: string, b: string, i: nat, j: nat)
    requires 1 <= i <= |a| && j <= |b|
    ensures j == 0 ==> Distance(a[..i], b[..j]) == i
    ensures j > 0 ==> Distance(a[..i], b[..j]) ==
                      Min3(Distance(a[..i - 1], b[..j]) + 1, Distance(a[..i], b[..j - 1]) + 1,
                           Distance(a[..i - 1], b[..j - 1]) + Cost(a[i - 1], b[j - 1]))
  {
    assert Init(a[..i]) == a[..i - 1];
    if j > 0 {
      assert Init(b[..j]) == b[..j - 1];
    }
  }

  method Levenshtein(a: string, b: string) returns (d: nat)
    ensures d == Distance(a, b)
    ensures IsLeastEdits(a, b, d)
  {
    hide Distance, OneEdit, IsLeastEdits;
    var prev := new int[|b| + 1];
    var cur := new int[|b| + 1];
    for j := 0 to |b| + 1
      invariant forall k :: 0 <= k < j ==> prev[k] == k
    {
      prev[j] := j;
    }
    assert RowFilled(prev[..], a[..0], b, |b| + 1) by {
      forall j | 0 <= j <= |b| ensures Distance(a[..0], b[..j]) == j {
        FirstRow(b, j);
      }
    }
    var i := 1;
    while i <= |a|
      invariant 1 <= i <= |a| + 1
      invariant prev != cur && prev.Length == cur.Length == |b| + 1 && fresh(prev) && fresh(cur)
      invariant RowFilled(prev[..], a[..i - 1], b, |b| + 1)
    {
      cur[0] := i;
      Cell(a, b, i, 0);
      var j := 1;
      while j <= |b|
        invariant 1 <= j <= |b| + 1
        invariant RowFilled(prev[..], a[..i - 1], b, |b| + 1)
        invariant RowFilled(cur[..], a[..i], b, j)
      {
        var cost := 1;
        if a[i - 1] == b[j - 1] {
          cost := 0;
        }
        Cell(a, b, i, j);
        assert cur[..][j - 1] == Distance(a[..i], b[..j - 1]);
        assert prev[..][j] == Distance(a[..i - 1], b[..j]) && prev[..][j - 1] == Distance(a[..i - 1], b[..j - 1]);
        cur[j] := Min3(prev[j] + 1, cur[j - 1] + 1, prev[j - 1] + cost);
        j := j + 1;
      }
      prev, cur := cur, prev;
      i := i + 1;
    }
    assert prev[..][|b|] == Distance(a[..|a|], b[..|b|]);
    assert a[..|a|] == a && b[..|b|] == b;
    d := prev[|b|];
    DistanceIsLeastEdits(a, b);
  }
}
