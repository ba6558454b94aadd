/** The Soundex scanner of `internal/strdist`, proved equal to American Soundex
    stated as a pipeline of independent steps. */
module Soundex {
  import opened Alphabet

  // ----- The rule, one step at a time -----

  /** The upper-cased text with everything but A-Z removed. */
  function Letters(u: Unicode, s: string): (r: string)
    ensures forall c <- r :: 'A' <= c <= 'Z'
  {
    if s == "" then ""
    else
      var c := u.upper(s[|s| - 1]);
      Letters(u, s[..|s| - 1]) + if 'A' <= c <= 'Z' then [c] else []
  }

  predicate IsHW(c: char) {
    c == 'H' || c == 'W'
  }

  function WithoutHW(letters: string): (r: string)
    ensures forall c <- r :: c in letters && !IsHW(c)
  {
    if letters == "" then ""
    else
      var c := letters[|letters| - 1];
      WithoutHW(letters[..|letters| - 1]) + if IsHW(c) then [] else [c]
  }

  type Digit = d: nat | d <= 6

  /** The digit group of a letter; 0 for a vowel or Y (and for H and W). */
  function Code(c: char): Digit {
    match c
    case 'B' | 'F' | 'P' | 'V' => 1
    case 'C' | 'G' | 'J' | 'K' | 'Q' | 'S' | 'X' | 'Z' => 2
    case 'D' | 'T' => 3
    case 'L' => 4
    case 'M' | 'N' => 5
    case 'R' => 6
    case _ => 0
  }

  function Codes(letters: string): seq<Digit> {
    seq(|letters|, i requires 0 <= i < |letters| => Code(letters[i]))
  }

  /** Each run of equal adjacent codes shortened to one. */
  function Collapse(codes: seq<Digit>): (r: seq<Digit>)
    ensures codes != [] ==> r != [] && r[0] == codes[0]
  {
    if |codes| <= 1 then codes
    else
      var init := codes[..|codes| - 1];
      if codes[|codes| - 1] == codes[|codes| - 2] then Collapse(init)
      else Collapse(init) + [codes[|codes| - 1]]
  }

  function WithoutVowels(codes: seq<Digit>): seq<Digit> {
    if codes == [] then []
    else
      WithoutVowels(codes[..|codes| - 1])
      + if codes[|codes| - 1] == 0 then [] else [codes[|codes| - 1]]
  }

  /** The first letter and the later ones that are not H or W. */
  function Kept(letters: string): (r: string)
    requires letters != ""
    ensures r != ""
  {
    [letters[0]] + WithoutHW(letters[1..])
  }

  /** The digits that follow the first letter, as many as there are. */
  function Digits(letters: string): seq<Digit>
    requires letters != ""
  {
    WithoutVowels(Collapse(Codes(Kept(letters)))[1..])
  }

  function DigitChar(d: Digit): char {
    '0' + d as char
  }

  /** Exactly three digit characters: cut off, or padded with zeros. */
  function ThreeDigits(digits: seq<Digit>): string {
    seq(3, i requires 0 <= i < 3 => if i < |digits| then DigitChar(digits[i]) else '0')
  }

  function Encode(letters: string): string {
    if letters == "" then "" else [letters[0]] + ThreeDigits(Digits(letters))
  }

  function AmericanSoundex(u: Unicode, s: string): string {
    Encode(Letters(u, s))
  }

  // ----- The scanner -----

  method SelectLetters(u: Unicode, s: string) returns (letters: string)
    ensures letters == Letters(u, s)
  {
    letters := "";
    for i := 0 to |s|
      invariant letters == Letters(u, s[..i])
    {
      assert s[..i + 1][..i] == s[..i];
      var r := u.upper(s[i]);
      if 'A' <= r <= 'Z' {
        letters := letters + [r];
      }
    }
    assert s[..|s|] == s;
  }

  /** The text written after scanning a letter: the first letter, then at most three digits. */
  function Written(first: char, digits: seq<Digit>): string {
    [first] + seq(if |digits| < 3 then |digits| else 3, i requires 0 <= i < |digits| => DigitChar(digits[i]))
  }

  lemma CollapseExtend(codes: seq<Digit>, c: Digit)
    requires codes != []
    ensures Collapse(codes + [c]) ==
            if c == codes[|codes| - 1] then Collapse(codes) else Collapse(codes) + [c]
  {
    assert (codes + [c])[..|codes|] == codes;
  }

  lemma WithoutVowelsExtend(codes: seq<Digit>, c: Digit)
    ensures WithoutVowels(codes + [c]) == if c == 0 then WithoutVowels(codes) else WithoutVowels(codes) + [c]
  {
    assert (codes + [c])[..|codes|] == codes;
  }

  lemma KeptExtend(letters: string, r: char)
    requires letters != ""
    ensures Kept(letters + [r]) == if IsHW(r) then Kept(letters) else Kept(letters) + [r]
  {
    var more := (letters + [r])[1..];
    assert more[..|more| - 1] == letters[1..];
  }

  function LastCode(letters: string): Digit
    requires letters != ""
  {
    Code(Kept(letters)[|Kept(letters)| - 1])
  }

  /** One more letter changes the digits at most at their end. */
  lemma DigitsExtend(letters: string, r: char)
    requires letters != ""
    ensures Digits(letters + [r]) ==
            if IsHW(r) || Code(r) == 0 || Code(r) == LastCode(letters) then Digits(letters)
            else Digits(letters) + [Code(r)]
    ensures LastCode(letters + [r]) == if IsHW(r) then LastCode(letters) else Code(r)
  {
    hide Kept, Collapse, WithoutVowels, Code, IsHW;
    KeptExtend(letters, r);
    if !IsHW(r) {
      CodesExtend(Kept(letters), r);
      TailExtends(Codes(Kept(letters)), Code(r));
    }
  }

  lemma CodesExtend(letters: string, r: char)
    ensures Codes(letters + [r]) == Codes(letters) + [Code(r)]
  {
    hide Code;
  }

  /** One more code, behind the first. */
  lemma TailExtends(codes: seq<Digit>, c: Digit)
    requires codes != []
    ensures WithoutVowels(Collapse(codes + [c])[1..]) ==
            if c == 0 || c == codes[|codes| - 1] then WithoutVowels(Collapse(codes)[1..])
            else WithoutVowels(Collapse(codes)[1..]) + [c]
  {
    hide WithoutVowels, Collapse;
    CollapseExtend(codes, c);
    var collapsed := Collapse(codes);
    if c != codes[|codes| - 1] {
      BehindTheFirst(collapsed, c);
      WithoutVowelsExtend(collapsed[1..], c);
    }
  }

  lemma BehindTheFirst(codes: seq<Digit>, c: Digit)
    requires codes != []
    ensures (codes + [c])[1..] == codes[1..] + [c]
  {}

  lemma WrittenExtend(first: char, digits: seq<Digit>, d: Digit)
    ensures Written(first, digits + [d]) ==
            if |digits| < 3 then Written(first, digits) + [DigitChar(d)] else Written(first, digits)
    ensures |Written(first, digits)| < 4 <==> |digits| < 3
  {}

  method Soundex(u: Unicode, s: string) returns (out: string)
    ensures out == AmericanSoundex(u, s)
  {
    var letters := SelectLetters(u, s);
    if |letters| == 0 {
      return "";
    }
    var b := [letters[0]];
    var prev := Code(letters[0]);
    assert letters[..1] == [letters[0]];
    for k := 1 to |letters|
      invariant b == Written(letters[0], Digits(letters[..k]))
      invariant prev == LastCode(letters[..k])
    {
      var r := letters[k];
      assert letters[..k + 1] == letters[..k] + [r];
      DigitsExtend(letters[..k], r);
      WrittenExtend(letters[0], Digits(letters[..k]), Code(r));
      if IsHW(r) {
        continue;
      }
      var c := Code(r);
      if c == 0 {
        prev := 0;
      } else {
        if c != prev && |b| < 4 {
          b := b + [DigitChar(c)];
        }
        prev := c;
      }
    }
    assert letters[..|letters|] == letters;
    out := PadWithZeros(b, Digits(letters), letters[0]);
  }

  /** The padding loop and the final cut to four characters. */
  method PadWithZeros(b: string, ghost digits: seq<Digit>, ghost first: char) returns (out: string)
    requires b == Written(first, digits)
    ensures out == [first] + ThreeDigits(digits)
  {
    out := b;
    while |out| < 4
      invariant |b| <= |out| <= 4
      invariant forall i :: 0 <= i < |out| ==> out[i] == if i < |b| then b[i] else '0'
    {
      out := out + "0";
    }
    out := out[..4];
  }

  // ----- What the code means -----

  /** Empty exactly when there is no letter; otherwise a letter and three digits. */
  lemma CodeShape(u: Unicode, s: string)
    ensures AmericanSoundex(u, s) == "" <==> forall c <- s :: !('A' <= u.upper(c) <= 'Z')
    ensures var r := AmericanSoundex(u, s);
            r != "" ==> |r| == 4 && 'A' <= r[0] <= 'Z' && forall i :: 1 <= i < 4 ==> '0' <= r[i] <= '6'
  {
    LettersEmpty(u, s);
    var letters := Letters(u, s);
    assert letters != "" ==> letters[0] in letters;
  }

  lemma {:induction false} LettersEmpty(u: Unicode, s: string)
    ensures Letters(u, s) == "" <==> forall c <- s :: !('A' <= u.upper(c) <= 'Z')
  {
    if s != "" {
      LettersEmpty(u, s[..|s| - 1]);
      assert s == s[..|s| - 1] + [s[|s| - 1]];
    }
  }

  lemma {:induction false} LettersConcat(u: Unicode, s: string, t: string)
    ensures Letters(u, s + t) == Letters(u, s) + Letters(u, t)
    decreases |t|
  {
    if t == "" {
      assert s + t == s;
    } else {
      LettersConcat(u, s, t[..|t| - 1]);
      assert (s + t)[..|s + t| - 1] == s + t[..|t| - 1];
    }
  }

  lemma {:induction false} WithoutHWConcat(s: string, t: string)
    ensures WithoutHW(s + t) == WithoutHW(s) + WithoutHW(t)
    decreases |t|
  {
    if t == "" {
      assert s + t == s;
    } else {
      WithoutHWConcat(s, t[..|t| - 1]);
      assert (s + t)[..|s + t| - 1] == s + t[..|t| - 1];
    }
  }

  lemma LettersOfOne(u: Unicode, c: char)
    ensures Letters(u, [c]) == if 'A' <= u.upper(c) <= 'Z' then [u.upper(c)] else ""
  {
    assert [c][..0] == "";
  }

  /** The text with one character inserted at position `i`. */
  function Insert(s: string, i: nat, c: char): string
    requires i <= |s|
  {
    s[..i] + [c] + s[i..]
  }

  lemma LettersOfInsert(u: Unicode, s: string, i: nat, c: char)
    requires i <= |s|
    ensures Letters(u, s) == Letters(u, s[..i]) + Letters(u, s[i..])
    ensures Letters(u, Insert(s, i, c)) == Letters(u, s[..i]) + Letters(u, [c]) + Letters(u, s[i..])
  {
    assert s[..i] + s[i..] == s;
    LettersConcat(u, s[..i], s[i..]);
    LettersConcat(u, s[..i] + [c], s[i..]);
    LettersConcat(u, s[..i], [c]);
  }

  /** A character that is not a letter may stand anywhere. */
  lemma NonLettersIgnored(u: Unicode, s: string, i: nat, c: char)
    requires i <= |s| && !('A' <= u.upper(c) <= 'Z')
    ensures AmericanSoundex(u, Insert(s, i, c)) == AmericanSoundex(u, s)
  {
    LettersOfInsert(u, s, i, c);
    LettersOfOne(u, c);
    assert Letters(u, s[..i]) + "" == Letters(u, s[..i]);
  }

  lemma KeptIgnoresHW(l: string, h: char, m: string)
    requires l != "" && IsHW(h)
    ensures Kept(l + [h] + m) == Kept(l + m)
  {
    assert (l + [h] + m)[1..] == (l[1..] + [h]) + m;
    assert (l + m)[1..] == l[1..] + m;
    WithoutHWConcat(l[1..] + [h], m);
    WithoutHWConcat(l[1..], m);
    assert (l[1..] + [h])[..|l[1..]|] == l[1..];
    assert WithoutHW(l[1..] + [h]) == WithoutHW(l[1..]);
  }

  /** H or W, in either case, may be inserted anywhere after the first letter. */
  lemma LaterHWIgnored(u: Unicode, s: string, i: nat, c: char)
    requires i <= |s| && Letters(u, s[..i]) != "" && IsHW(u.upper(c))
    ensures AmericanSoundex(u, Insert(s, i, c)) == AmericanSoundex(u, s)
  {
    LettersOfInsert(u, s, i, c);
    LettersOfOne(u, c);
    KeptIgnoresHW(Letters(u, s[..i]), u.upper(c), Letters(u, s[i..]));
  }

  lemma CaseIgnored(u: Unicode, s: string, t: string)
    requires ToUpper(u, s) == ToUpper(u, t)
    ensures AmericanSoundex(u, s) == AmericanSoundex(u, t)
  {
    LettersOfUpper(u, s, t);
  }

  lemma {:induction false} LettersOfUpper(u: Unicode, s: string, t: string)
    requires ToUpper(u, s) == ToUpper(u, t)
    ensures Letters(u, s) == Letters(u, t)
    decreases |s|
  {
    assert |s| == |t|;
    if s != "" {
      assert ToUpper(u, s)[|s| - 1] == ToUpper(u, t)[|t| - 1];
      forall i | 0 <= i < |s| - 1 ensures u.upper(s[i]) == u.upper(t[i]) {
        assert ToUpper(u, s)[i] == ToUpper(u, t)[i];
      }
      LettersOfUpper(u, s[..|s| - 1], t[..|t| - 1]);
    }
  }

  // ----- The letter groups -----

  /** A letter has the digit of its group, and those in no group have none. */
  lemma LetterGroups(c: char)
    requires 'A' <= c <= 'Z'
    ensures Code(c) == 1 <==> c in "BFPV"
    ensures Code(c) == 2 <==> c in "CGJKQSXZ"
    ensures Code(c) == 3 <==> c in "DT"
    ensures Code(c) == 4 <==> c in "L"
    ensures Code(c) == 5 <==> c in "MN"
    ensures Code(c) == 6 <==> c in "R"
    ensures Code(c) == 0 <==> c in "AEIOUYHW"
  {}

  /** In no group both, or in the same one. */
  predicate SameGroup(c: char, d: char) {
    && (c in "BFPV" <==> d in "BFPV") && (c in "CGJKQSXZ" <==> d in "CGJKQSXZ") && (c in "DT" <==> d in "DT")
    && (c in "L" <==> d in "L") && (c in "MN" <==> d in "MN") && (c in "R" <==> d in "R")
    && (c in "HW" <==> d in "HW")
  }

  predicate AreLetters(s: string) {
    forall i :: 0 <= i < |s| ==> 'A' <= s[i] <= 'Z'
  }

  /** After a common first letter only the groups count. */
  lemma SameGroupsSameCode(l: string, m: string)
    requires AreLetters(l) && AreLetters(m)
    requires |l| == |m| && l != "" && l[0] == m[0] && forall i :: 0 <= i < |l| ==> SameGroup(l[i], m[i])
    ensures Encode(l) == Encode(m)
  {
    SameGroupsSameDigits(l, m, |l|);
    assert l[..|l|] == l && m[..|m|] == m;
  }

  lemma {:induction false} SameGroupsSameDigits(l: string, m: string, n: nat)
    requires AreLetters(l) && AreLetters(m)
    requires 1 <= n <= |l| == |m| && l[0] == m[0] && forall i :: 0 <= i < |l| ==> SameGroup(l[i], m[i])
    ensures Digits(l[..n]) == Digits(m[..n]) && LastCode(l[..n]) == LastCode(m[..n])
  {
    hide SameGroup, Code, Digits, LastCode, IsHW;
    if n == 1 {
      assert l[..1] == m[..1];
    } else {
      SameGroupsSameDigits(l, m, n - 1);
      SameGroupSameCode(l[n - 1], m[n - 1]);
      assert l[..n] == l[..n - 1] + [l[n - 1]] && m[..n] == m[..n - 1] + [m[n - 1]];
      DigitsExtend(l[..n - 1], l[n - 1]);
      DigitsExtend(m[..n - 1], m[n - 1]);
    }
  }

  lemma SameGroupSameCode(c: char, d: char)
    requires 'A' <= c <= 'Z' && 'A' <= d <= 'Z' && SameGroup(c, d)
    ensures Code(c) == Code(d) && IsHW(c) == IsHW(d)
  {
    LetterGroups(c);
    LetterGroups(d);
    assert IsHW(c) <==> c in "HW";
    assert IsHW(d) <==> d in "HW";
    hide Code, IsHW;
  }

  /** Upper-casing is that of the Latin alphabet on its letters. */
  ghost predicate UppersLatin(u: Unicode) {
    && (forall c :: 'A' <= c <= 'Z' ==> u.upper(c) == c)
    && (forall c :: 'a' <= c <= 'z' ==> u.upper(c) == 'A' + (c - 'a'))
  }

  lemma {:induction false} CapitalsAreLetters(u: Unicode, s: string)
    requires UppersLatin(u) && AreLetters(s)
    ensures Letters(u, s) == s
  {
    if s != "" {
      assert s == s[..|s| - 1] + [s[|s| - 1]];
      CapitalsAreLetters(u, s[..|s| - 1]);
    }
  }

  /** The digits of the first `k + 1` letters, from those of the first `k`. */
  lemma OneLetterMore(s: string, k: nat)
    requires 1 <= k < |s|
    ensures var r, digits, last := s[k], Digits(s[..k]), LastCode(s[..k]);
            && Digits(s[..k + 1]) == (if IsHW(r) || Code(r) == 0 || Code(r) == last then digits else digits + [Code(r)])
            && LastCode(s[..k + 1]) == if IsHW(r) then last else Code(r)
  {
    assert s[..k + 1] == s[..k] + [s[k]];
    DigitsExtend(s[..k], s[k]);
  }

  lemma FirstLetter(s: string)
    requires s != ""
    ensures Digits(s[..1]) == [] && LastCode(s[..1]) == Code(s[0]) && s[..|s|] == s
  {
    assert s[..1][1..] == "";
  }

  /** The codes of two well-known names: an H between letters of one group does not part them,
      and a vowel does. */
  lemma KnownCodes(u: Unicode)
    requires UppersLatin(u)
    ensures AmericanSoundex(u, "Ashcraft") == "A261" && AmericanSoundex(u, "Tymczak") == "T522"
  {
    AshcraftIs(u);
    TymczakIs(u);
    assert ToUpper(u, "Ashcraft") == ToUpper(u, "ASHCRAFT") && ToUpper(u, "Tymczak") == ToUpper(u, "TYMCZAK");
    CaseIgnored(u, "Ashcraft", "ASHCRAFT");
    CaseIgnored(u, "Tymczak", "TYMCZAK");
  }

  lemma AshcraftIs(u: Unicode)
    requires UppersLatin(u)
    ensures AmericanSoundex(u, "ASHCRAFT") == "A261"
  {
    hide Digits, LastCode, Letters;
    var s := "ASHCRAFT";
    CapitalsAreLetters(u, s);
    FirstLetter(s);
    OneLetterMore(s, 1);
    OneLetterMore(s, 2);
    OneLetterMore(s, 3);
    OneLetterMore(s, 4);
    OneLetterMore(s, 5);
    OneLetterMore(s, 6);
    OneLetterMore(s, 7);
    assert Digits(s) == [2, 6, 1, 3];
  }

  lemma TymczakIs(u: Unicode)
    requires UppersLatin(u)
    ensures AmericanSoundex(u, "TYMCZAK") == "T522"
  {
    hide Digits, LastCode, Letters;
    var s := "TYMCZAK";
    CapitalsAreLetters(u, s);
    FirstLetter(s);
    OneLetterMore(s, 1);
    OneLetterMore(s, 2);
    OneLetterMore(s, 3);
    OneLetterMore(s, 4);
    OneLetterMore(s, 5);
    OneLetterMore(s, 6);
    assert Digits(s) == [5, 2, 2];
  }
}
