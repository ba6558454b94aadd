/** `db.urlToKV`: a PostgreSQL URL taken apart by hand and written as a keyword/value
    connection string, proved against the reader of section 34.1.1.1 of the PostgreSQL
    documentation. */
module Dsn {
  import opened Wrappers

  datatype Field = Field(key: string, value: string)

  // ----- strings.Index, strings.LastIndex, strings.Split, strings.Join -----

  /** The first position of `c`, or -1. */
  function Index(s: string, c: char): (i: int)
    ensures -1 <= i < |s|
  {
    if s == "" then -1
    else if s[0] == c then 0
    else
      var i := Index(s[1..], c);
      if i < 0 then -1 else i + 1
  }

  /** The last position of `c`, or -1. */
  function LastIndex(s: string, c: char): (i: int)
    ensures -1 <= i < |s|
  {
    if s == "" then -1
    else if s[|s| - 1] == c then |s| - 1
    else LastIndex(s[..|s| - 1], c)
  }

  function Split(s: string, c: char): (parts: seq<string>)
    ensures parts != []
    decreases |s|
  {
    var i := Index(s, c);
    if i < 0 then [s] else [s[..i]] + Split(s[i + 1..], c)
  }

  function Join(parts: seq<string>, sep: string): string {
    if parts == [] then ""
    else if |parts| == 1 then parts[0]
    else parts[0] + sep + Join(parts[1..], sep)
  }

  // ----- Taking the URL apart -----

  /** What the URL names; an absent part is empty. */
  datatype Parts = Parts(host: string, port: string, user: string, password: string, dbname: string, query: string)

  function TrimScheme(raw: string): string {
    if "postgresql://" <= raw then raw[13..]
    else if "postgres://" <= raw then raw[11..]
    else raw
  }

  function SplitHost(rest: string): (string, string) {
    var c := LastIndex(rest, ':');
    if c >= 0 then (rest[..c], rest[c + 1..]) else (rest, "")
  }

  function SplitUser(userinfo: string): (string, string) {
    var c := Index(userinfo, ':');
    if c >= 0 then (userinfo[..c], userinfo[c + 1..]) else (userinfo, "")
  }

  /** The text up to the first `/` after the last `@`, and the database name behind it. */
  function SplitPath(rest: string): (string, string) {
    var hostStart := LastIndex(rest, '@') + 1;
    var slash := Index(rest[hostStart..], '/');
    if slash >= 0 then (rest[..hostStart + slash], rest[hostStart + slash + 1..]) else (rest, "")
  }

  function DecomposeLogin(rest: string, dbname: string, query: string): Parts {
    var at := LastIndex(rest, '@');
    var (user, password) := if at >= 0 then SplitUser(rest[..at]) else ("", "");
    var (host, port) := SplitHost(rest[at + 1..]);
    Parts(host, port, user, password, dbname, query)
  }

  function DecomposeAuthority(rest: string, query: string): Parts {
    var (login, dbname) := SplitPath(rest);
    DecomposeLogin(login, dbname, query)
  }

  function Decompose(raw: string): Parts {
    var rest := TrimScheme(raw);
    var i := LastIndex(rest, '?');
    if i >= 0 then DecomposeAuthority(rest[..i], rest[i + 1..]) else DecomposeAuthority(rest, "")
  }

  method TakeApart(raw: string) returns (p: Parts)
    ensures p == Decompose(raw)
  {
    hide Index, LastIndex, DecomposeLogin, SplitPath;
    var rest := TrimScheme(raw);
    var rawQuery := "";
    var i := LastIndex(rest, '?');
    if i >= 0 {
      rawQuery := rest[i + 1..];
      rest := rest[..i];
    }
    var dbname;
    rest, dbname := TakePath(rest);
    p := TakeLogin(rest, dbname, rawQuery);
  }

  method TakePath(text: string) returns (rest: string, dbname: string)
    ensures (rest, dbname) == SplitPath(text)
  {
    hide Index, LastIndex;
    rest, dbname := text, "";
    var atIdx := LastIndex(rest, '@');
    var hostStart := 0;
    if atIdx >= 0 {
      hostStart := atIdx + 1;
    }
    var slash := Index(rest[hostStart..], '/');
    if slash >= 0 {
      dbname := rest[hostStart + slash + 1..];
      rest := rest[..hostStart + slash];
    }
  }

  method TakeLogin(text: string, dbname: string, rawQuery: string) returns (p: Parts)
    ensures p == DecomposeLogin(text, dbname, rawQuery)
  {
    hide Index, LastIndex;
    var rest := text;
    var user, password := "", "";
    var at := LastIndex(rest, '@');
    if at >= 0 {
      var userinfo := rest[..at];
      rest := rest[at + 1..];
      var c := Index(userinfo, ':');
      if c >= 0 {
        user, password := userinfo[..c], userinfo[c + 1..];
      } else {
        user := userinfo;
      }
    }
    assert rest == text[at + 1..];
    var host, port := rest, "";
    var c := LastIndex(rest, ':');
    if c >= 0 {
      host, port := rest[..c], rest[c + 1..];
    }
    p := Parts(host, port, user, password, dbname, rawQuery);
  }

  // ----- Writing it as keywords and values -----

  predicate NeedsQuotes(v: string) {
    ' ' in v || '\'' in v || '\\' in v
  }

  function Escape(v: string): string {
    if v == "" then ""
    else Escape(v[..|v| - 1]) + (if v[|v| - 1] == '\'' || v[|v| - 1] == '\\' then "\\" else "") + [v[|v| - 1]]
  }

  function Quote(v: string): string {
    if NeedsQuotes(v) then "'" + Escape(v) + "'" else v
  }

  method QuoteKVValue(v: string) returns (q: string)
    ensures q == Quote(v)
  {
    if !NeedsQuotes(v) {
      return v;
    }
    var b := "'";
    for i := 0 to |v|
      invariant b == "'" + Escape(v[..i])
    {
      assert v[..i + 1][..i] == v[..i];
      var c := v[i];
      if c == '\'' || c == '\\' {
        b := b + "\\";
      }
      b := b + [c];
    }
    assert v[..|v|] == v;
    return b + "'";
  }

  /** `url.QueryUnescape`, or the text itself where that fails. */
  function Decoded(unescape: string -> Option<string>, v: string): string {
    match unescape(v)
    case Some(d) => d
    case None => v
  }

  /** The fields of one query parameter: none without `=` or with an empty value. */
  function QueryField(unescape: string -> Option<string>, kv: string): seq<Field> {
    var eq := Index(kv, '=');
    if eq < 0 then [] else NonEmpty(kv[..eq], Decoded(unescape, kv[eq + 1..]))
  }

  function QueryFields(unescape: string -> Option<string>, kvs: seq<string>): seq<Field> {
    if kvs == [] then [] else QueryFields(unescape, kvs[..|kvs| - 1]) + QueryField(unescape, kvs[|kvs| - 1])
  }

  function NonEmpty(key: string, value: string): seq<Field> {
    if value == "" then [] else [Field(key, value)]
  }

  /** The fields a connection names, in the order they are written. */
  function FieldsOf(p: Parts, unescape: string -> Option<string>): seq<Field> {
    NonEmpty("host", p.host) + NonEmpty("port", p.port) + NonEmpty("user", p.user)
    + NonEmpty("password", p.password) + NonEmpty("dbname", p.dbname)
    + if p.query == "" then [] else QueryFields(unescape, Split(p.query, '&'))
  }

  function WriteField(f: Field): string {
    f.key + "=" + Quote(f.value)
  }

  function WriteAll(fields: seq<Field>): seq<string> {
    seq(|fields|, i requires 0 <= i < |fields| => WriteField(fields[i]))
  }

  method AddField(parts: seq<string>, key: string, value: string) returns (parts': seq<string>)
    ensures parts' == parts + WriteAll(NonEmpty(key, value))
  {
    if value == "" {
      return parts;
    }
    var q := QuoteKVValue(value);
    return parts + [key + "=" + q];
  }

  lemma WriteAllConcat(a: seq<Field>, b: seq<Field>)
    ensures WriteAll(a + b) == WriteAll(a) + WriteAll(b)
  {
    hide WriteField;
  }

  lemma QueryFieldsExtend(unescape: string -> Option<string>, kvs: seq<string>, i: nat)
    requires i < |kvs|
    ensures QueryFields(unescape, kvs[..i + 1]) == QueryFields(unescape, kvs[..i]) + QueryField(unescape, kvs[i])
  {
    hide QueryField;
    assert kvs[..i + 1][..i] == kvs[..i];
  }

  method AddQuery(parts: seq<string>, rawQuery: string, unescape: string -> Option<string>)
    returns (parts': seq<string>)
    ensures parts' == parts + WriteAll(QueryFields(unescape, Split(rawQuery, '&')))
  {
    hide Split, Index, WriteAll, QueryFields, NonEmpty, Decoded;
    parts' := parts;
    var kvs := Split(rawQuery, '&');
    NothingWritten(unescape);
    for i := 0 to |kvs|
      invariant parts' == parts + WriteAll(QueryFields(unescape, kvs[..i]))
    {
      QueryFieldsExtend(unescape, kvs, i);
      var eq := Index(kvs[i], '=');
      WriteAllConcat(QueryFields(unescape, kvs[..i]), QueryField(unescape, kvs[i]));
      if eq < 0 {
        continue;
      }
      parts' := AddField(parts', kvs[i][..eq], Decoded(unescape, kvs[i][eq + 1..]));
    }
    assert kvs[..|kvs|] == kvs;
  }

  lemma NothingWritten(unescape: string -> Option<string>)
    ensures QueryFields(unescape, []) == [] && WriteAll([]) == []
  {}

  lemma FieldsWritten(p: Parts, unescape: string -> Option<string>)
    ensures WriteAll(FieldsOf(p, unescape)) ==
            WriteAll(NonEmpty("host", p.host)) + WriteAll(NonEmpty("port", p.port)) + WriteAll(NonEmpty("user", p.user))
            + WriteAll(NonEmpty("password", p.password)) + WriteAll(NonEmpty("dbname", p.dbname))
            + if p.query == "" then [] else WriteAll(QueryFields(unescape, Split(p.query, '&')))
  {
    hide NonEmpty, QueryFields, Split, WriteAll;
    var host, port, user := NonEmpty("host", p.host), NonEmpty("port", p.port), NonEmpty("user", p.user);
    var password, dbname := NonEmpty("password", p.password), NonEmpty("dbname", p.dbname);
    var query := if p.query == "" then [] else QueryFields(unescape, Split(p.query, '&'));
    NothingWritten(unescape);
    WriteAllConcat(host, port);
    WriteAllConcat(host + port, user);
    WriteAllConcat(host + port + user, password);
    WriteAllConcat(host + port + user + password, dbname);
    WriteAllConcat(host + port + user + password + dbname, query);
  }

  method UrlToKV(raw: string, unescape: string -> Option<string>) returns (kv: string)
    ensures kv == KVOf(raw, unescape)
  {
    hide Decompose, WriteAll, NonEmpty, QueryFields, Split, Join, FieldsOf;
    var p := TakeApart(raw);
    var parts := AddField([], "host", p.host);
    parts := AddField(parts, "port", p.port);
    parts := AddField(parts, "user", p.user);
    parts := AddField(parts, "password", p.password);
    parts := AddField(parts, "dbname", p.dbname);
    if p.query != "" {
      parts := AddQuery(parts, p.query, unescape);
    }
    FieldsWritten(p, unescape);
    assert parts == WriteAll(FieldsOf(p, unescape));
    kv := Join(parts, " ");
  }

  // ----- The reader of section 34.1.1.1 -----

  /** White space, as `isspace` has it. */
  predicate IsBlank(c: char) {
    c == ' ' || c == '\t' || c == '\n' || c == '\r' || c as int == 11 || c as int == 12
  }

  function SkipBlanks(s: string): (r: string)
    ensures |r| <= |s|
  {
    if s != "" && IsBlank(s[0]) then SkipBlanks(s[1..]) else s
  }

  /** A keyword: everything up to the `=` or white space; then the text after the `=`. */
  function ReadKey(s: string): (r: Option<(string, string)>)
    ensures r.Some? ==> |r.value.1| < |s|
  {
    if s == "" then None
    else if s[0] == '=' then Some(("", s[1..]))
    else if IsBlank(s[0]) then
      var after := SkipBlanks(s);
      if after != "" && after[0] == '=' then Some(("", after[1..])) else None
    else
      var r := ReadKey(s[1..]);
      if r.Some? then Some(([s[0]] + r.value.0, r.value.1)) else None
  }

  /** A value without quotes ends at white space; a backslash takes the next character as it is. */
  function ReadBare(s: string): (r: (string, string))
    ensures |r.1| <= |s|
  {
    if s == "" then ("", "")
    else if IsBlank(s[0]) then ("", s[1..])
    else if s[0] == '\\' then
      if |s| == 1 then ("", "")
      else var (v, rest) := ReadBare(s[2..]); ([s[1]] + v, rest)
    else var (v, rest) := ReadBare(s[1..]); ([s[0]] + v, rest)
  }

  /** A quoted value, after its opening quote; None when the quote is never closed. */
  function ReadQuoted(s: string): (r: Option<(string, string)>)
    ensures r.Some? ==> |r.value.1| < |s|
  {
    if s == "" then None
    else if s[0] == '\'' then Some(("", s[1..]))
    else if s[0] == '\\' then
      if |s| == 1 then None
      else
        var r := ReadQuoted(s[2..]);
        if r.Some? then Some(([s[1]] + r.value.0, r.value.1)) else None
    else
      var r := ReadQuoted(s[1..]);
      if r.Some? then Some(([s[0]] + r.value.0, r.value.1)) else None
  }

  function ReadValue(s: string): (r: Option<(string, string)>)
    ensures r.Some? ==> |r.value.1| <= |s|
  {
    if s != "" && s[0] == '\'' then ReadQuoted(s[1..]) else Some(ReadBare(s))
  }

  /** One field and the text after it. */
  function ReadField(s: string): (r: Option<(Field, string)>)
    ensures r.Some? ==> |r.value.1| < |s|
  {
    var k := ReadKey(s);
    if k.None? then None
    else
      var v := ReadValue(SkipBlanks(k.value.1));
      if v.None? then None else Some((Field(k.value.0, v.value.0), v.value.1))
  }

  /** The fields of a keyword/value string, in order; None when it is malformed. */
  function ReadKV(s: string): Option<seq<Field>>
    decreases |s|
  {
    var s' := SkipBlanks(s);
    if s' == "" then Some([])
    else
      var f := ReadField(s');
      if f.None? then None
      else
        var rest := ReadKV(f.value.1);
        if rest.None? then None else Some([f.value.0] + rest.value)
  }

  // ----- Reading back one value -----

  predicate HasBlank(v: string) {
    exists c <- v :: IsBlank(c)
  }

  /** Written unchanged, but the reader would stop inside it: it has white space and no
      space, quote or backslash that would have had it quoted. */
  predicate Unreadable(v: string) {
    HasBlank(v) && !NeedsQuotes(v)
  }

  predicate IsKeyword(k: string) {
    k != "" && !HasBlank(k) && '=' !in k && '\'' !in k && '\\' !in k
  }

  function EscapedChar(c: char): string {
    if c == '\'' || c == '\\' then ['\\', c] else [c]
  }

  lemma {:induction false} EscapePrepend(c: char, v: string)
    ensures Escape([c] + v) == EscapedChar(c) + Escape(v)
    decreases |v|
  {
    var w := [c] + v;
    if v == "" {
      assert w[..|w| - 1] == "";
    } else {
      assert w[..|w| - 1] == [c] + v[..|v| - 1];
      EscapePrepend(c, v[..|v| - 1]);
    }
  }

  /** The reader takes one escaped character at a time. */
  lemma EscapedCharReadsBack(c: char, rest: string)
    requires ReadQuoted(rest).Some?
    ensures ReadQuoted(EscapedChar(c) + rest) == Some(([c] + ReadQuoted(rest).value.0, ReadQuoted(rest).value.1))
  {
    var s := EscapedChar(c) + rest;
    assert s[|EscapedChar(c)|..] == rest;
  }

  lemma {:induction false} QuotedReadsBack(v: string, tail: string)
    ensures ReadQuoted(Escape(v) + "'" + tail) == Some((v, tail))
    decreases |v|
  {
    if v == "" {
      assert (Escape(v) + "'" + tail)[1..] == tail;
    } else {
      hide Escape, ReadQuoted, EscapedChar;
      var c, w := v[0], v[1..];
      var rest := Escape(w) + "'" + tail;
      assert v == [c] + w;
      EscapePrepend(c, w);
      Regroup(EscapedChar(c), Escape(w), "'", tail);
      QuotedReadsBack(w, tail);
      EscapedCharReadsBack(c, rest);
    }
  }

  lemma Regroup(a: string, b: string, c: string, d: string)
    ensures (a + b) + c + d == a + (b + c + d)
  {}

  /** The part of a text before its first white space. */
  function Unbroken(v: string): string {
    if v == "" || IsBlank(v[0]) then "" else [v[0]] + Unbroken(v[1..])
  }

  /** What follows that white space. */
  function AfterBreak(v: string): string {
    if v == "" then "" else if IsBlank(v[0]) then v[1..] else AfterBreak(v[1..])
  }

  lemma {:induction false} BareReadsUnbroken(v: string)
    requires '\\' !in Unbroken(v)
    ensures ReadBare(v) == (Unbroken(v), AfterBreak(v))
  {
    if v != "" && !IsBlank(v[0]) {
      assert Unbroken(v)[0] == v[0];
      assert forall c <- Unbroken(v[1..]) :: c in Unbroken(v);
      BareReadsUnbroken(v[1..]);
    }
  }

  lemma {:induction false} UnbrokenConcat(v: string, tail: string)
    requires tail != "" ==> IsBlank(tail[0])
    ensures Unbroken(v + tail) == Unbroken(v)
    ensures !HasBlank(v) ==> Unbroken(v) == v && AfterBreak(v + tail) == if tail == "" then "" else tail[1..]
    ensures forall c <- Unbroken(v) :: c in v && !IsBlank(c)
  {
    if v == "" {
      assert v + tail == tail;
    } else {
      assert (v + tail)[1..] == v[1..] + tail;
      assert [v[0]] + v[1..] == v;
      assert !HasBlank(v) ==> v[0] in v && !HasBlank(v[1..]);
      UnbrokenConcat(v[1..], tail);
    }
  }

  lemma {:induction false} KeyReadsBack(key: string, rest: string)
    requires !HasBlank(key) && '=' !in key
    ensures ReadKey(key + "=" + rest) == Some((key, rest))
  {
    var s := key + "=" + rest;
    if key == "" {
      assert s[1..] == rest;
    } else {
      assert key[0] in key && forall c <- key[1..] :: c in key;
      KeyReadsBack(key[1..], rest);
      assert s[1..] == key[1..] + "=" + rest;
      assert [key[0]] + key[1..] == key;
    }
  }

  /** What may follow a field: nothing, or a space and the first letter of a keyword. */
  predicate IsTail(tail: string) {
    tail == "" || (|tail| > 1 && tail[0] == ' ' && !IsBlank(tail[1]) && tail[1] != '\'' && tail[1] != '\\')
  }

  lemma ReadableValueReadsBack(v: string, tail: string)
    requires v != "" && IsTail(tail) && !Unreadable(v)
    ensures var s := Quote(v) + tail;
            && SkipBlanks(s) == s
            && ReadValue(s).Some? && ReadValue(s).value.0 == v
            && ReadKV(ReadValue(s).value.1) == ReadKV(tail)
  {
    hide ReadKV, Escape, ReadBare, ReadQuoted;
    if NeedsQuotes(v) {
      var s := Quote(v) + tail;
      assert s[1..] == Escape(v) + "'" + tail;
      QuotedReadsBack(v, tail);
    } else {
      UnbrokenConcat(v, tail);
      assert v[0] in v && (v + tail)[0] == v[0];
      assert forall c <- Unbroken(v + tail) :: c in v;
      BareReadsUnbroken(v + tail);
      SpaceChangesNothing(tail);
    }
  }

  lemma SpaceChangesNothing(tail: string)
    requires IsTail(tail)
    ensures ReadKV(if tail == "" then "" else tail[1..]) == ReadKV(tail)
  {}

  lemma {:induction false} SkipsInto(v: string, tail: string)
    requires IsTail(tail)
    ensures var s := SkipBlanks(v + tail);
            s != "" ==> !IsBlank(s[0]) && (s[0] in v || (tail != "" && s[0] == tail[1]))
  {
    if v == "" {
      assert v + tail == tail;
    } else if IsBlank(v[0]) {
      assert (v + tail)[1..] == v[1..] + tail;
      SkipsInto(v[1..], tail);
    }
  }

  lemma UnreadableValueIsMisread(v: string, tail: string)
    requires IsTail(tail) && Unreadable(v)
    ensures var r := ReadValue(SkipBlanks(Quote(v) + tail)); r.Some? && r.value.0 != v
  {
    hide ReadQuoted;
    var s := SkipBlanks(v + tail);
    if v[0] in v && !IsBlank(v[0]) {
      UnbrokenConcat(v, tail);
      BareReadsUnbroken(v + tail);
    } else {
      SkipsInto(v, tail);
    }
  }

  /** A field written and then read is the same field exactly when its value is readable. */
  lemma FieldReadsBack(f: Field, tail: string)
    requires IsKeyword(f.key) && f.value != "" && IsTail(tail)
    ensures var s := WriteField(f) + tail;
            && SkipBlanks(s) == s && s != ""
            && (if Unreadable(f.value) then ReadField(s).Some? && ReadField(s).value.0 != f
                else ReadField(s).Some? && ReadField(s).value.0 == f && ReadKV(ReadField(s).value.1) == ReadKV(tail))
  {
    hide ReadKV, Quote, ReadValue;
    var s := WriteField(f) + tail;
    assert f.key[0] in f.key && s[0] == f.key[0];
    assert s == f.key + "=" + (Quote(f.value) + tail);
    KeyReadsBack(f.key, Quote(f.value) + tail);
    if Unreadable(f.value) {
      UnreadableValueIsMisread(f.value, tail);
    } else {
      ReadableValueReadsBack(f.value, tail);
    }
  }

  /** The written string is read as the fields it was written from exactly when every
      value is readable. */
  lemma {:induction false} WrittenReadsBack(fields: seq<Field>)
    requires forall f <- fields :: IsKeyword(f.key) && f.value != ""
    ensures ReadKV(Join(WriteAll(fields), " ")) == Some(fields) <==> forall f <- fields :: !Unreadable(f.value)
  {
    hide ReadField, WriteField, Unreadable, IsKeyword;
    if fields != [] {
      var f, rest := fields[0], fields[1..];
      var tail := if rest == [] then "" else " " + Join(WriteAll(rest), " ");
      assert WriteAll(fields)[1..] == WriteAll(rest);
      assert Join(WriteAll(fields), " ") == WriteField(f) + tail;
      TailOfFields(rest);
      FieldReadsBack(f, tail);
      WrittenReadsBack(rest);
      assert tail != "" ==> tail[1..] == Join(WriteAll(rest), " ");
      SpaceChangesNothing(tail);
      assert ReadKV("") == Some([]);
      assert fields == [f] + rest;
    }
  }

  lemma TailOfFields(rest: seq<Field>)
    requires forall f <- rest :: IsKeyword(f.key) && f.value != ""
    ensures IsTail(if rest == [] then "" else " " + Join(WriteAll(rest), " "))
  {
    if rest != [] {
      var f := rest[0];
      assert f.key[0] in f.key;
      assert WriteAll(rest)[0] == WriteField(f) && WriteField(f)[0] == f.key[0];
      assert Join(WriteAll(rest), " ")[0] == f.key[0];
    }
  }

  // ----- From a URL to the fields it names -----

  /** A URL as it is put together; None for a part that is left out with its separator. */
  datatype Url = Url(
    short: bool, user: Option<string>, password: Option<string>, host: string, port: Option<string>,
    dbname: Option<string>, query: Option<string>)

  function After(sep: string, part: Option<string>): string {
    match part
    case None => ""
    case Some(s) => sep + s
  }

  function TextOf(part: Option<string>): string {
    match part
    case None => ""
    case Some(s) => s
  }

  function Login(l: Url): string {
    match l.user
    case None => ""
    case Some(user) => user + After(":", l.password) + "@"
  }

  function AssembledAuthority(l: Url): string {
    Login(l) + (l.host + After(":", l.port)) + After("/", l.dbname)
  }

  function Assemble(l: Url): string {
    SchemeOf(l.short) + AssembledAuthority(l) + After("?", l.query)
  }

  /** No part holds the separator it would be cut at: the user no colon; host and port no
      `/` or `@`, the port no colon, nor the host without a port; the database name no `@`.
      A `?` may stand anywhere before a query, as long as there is one and it has none.
      The password is any text at all. */
  predicate WellFormed(l: Url) {
    && (l.user.None? ==> l.password.None?)
    && ':' !in TextOf(l.user)
    && '/' !in l.host && '@' !in l.host && (l.port.None? ==> ':' !in l.host)
    && '/' !in TextOf(l.port) && '@' !in TextOf(l.port) && ':' !in TextOf(l.port)
    && '@' !in TextOf(l.dbname)
    && (if l.query.Some? then '?' !in l.query.value else '?' !in AssembledAuthority(l))
  }

  function PartsOf(l: Url): Parts {
    Parts(l.host, TextOf(l.port), TextOf(l.user), TextOf(l.password), TextOf(l.dbname), TextOf(l.query))
  }

  lemma {:induction false} IndexOf(a: string, c: char, b: string)
    requires c !in a
    ensures Index(a + [c] + b, c) == |a|
  {
    var s := a + [c] + b;
    if a != "" {
      assert a[0] in a && forall x <- a[1..] :: x in a;
      assert s[1..] == a[1..] + [c] + b;
      IndexOf(a[1..], c, b);
    }
  }

  lemma {:induction false} LastIndexOf(a: string, c: char, b: string)
    requires c !in b
    ensures LastIndex(a + [c] + b, c) == |a|
    decreases |b|
  {
    var s := a + [c] + b;
    if b != "" {
      assert b[|b| - 1] in b && forall x <- b[..|b| - 1] :: x in b;
      assert s[..|s| - 1] == a + [c] + b[..|b| - 1];
      LastIndexOf(a, c, b[..|b| - 1]);
    }
  }

  lemma {:induction false} NoIndex(s: string, c: char)
    requires c !in s
    ensures Index(s, c) == -1 && LastIndex(s, c) == -1
  {
    if s != "" {
      assert s[0] in s && s[|s| - 1] in s;
      assert forall x <- s[1..] :: x in s;
      assert forall x <- s[..|s| - 1] :: x in s;
      NoIndex(s[1..], c);
      NoIndex(s[..|s| - 1], c);
    }
  }

  lemma HostSplits(l: Url)
    requires WellFormed(l)
    ensures SplitHost(l.host + After(":", l.port)) == (l.host, TextOf(l.port))
  {
    hide LastIndex;
    if l.port.Some? {
      assert l.host + (":" + l.port.value) == l.host + [':'] + l.port.value;
      LastIndexOf(l.host, ':', l.port.value);
    } else {
      assert l.host + "" == l.host;
      NoIndex(l.host, ':');
    }
  }

  lemma UserSplits(user: string, password: Option<string>)
    requires ':' !in user
    ensures SplitUser(user + After(":", password)) == (user, TextOf(password))
  {
    hide Index;
    if password.Some? {
      assert user + (":" + password.value) == user + [':'] + password.value;
      IndexOf(user, ':', password.value);
    } else {
      assert user + "" == user;
      NoIndex(user, ':');
    }
  }

  lemma LoginSplits(l: Url)
    requires WellFormed(l)
    ensures DecomposeLogin(Login(l) + (l.host + After(":", l.port)), TextOf(l.dbname), TextOf(l.query)) == PartsOf(l)
  {
    hide Index, LastIndex, SplitHost, SplitUser;
    var hostport := l.host + After(":", l.port);
    var rest := Login(l) + hostport;
    HostSplits(l);
    assert '@' !in hostport;
    if l.user.Some? {
      var userinfo := l.user.value + After(":", l.password);
      assert rest == userinfo + ['@'] + hostport;
      LastIndexOf(userinfo, '@', hostport);
      UserSplits(l.user.value, l.password);
      assert rest[..|userinfo|] == userinfo && rest[|userinfo| + 1..] == hostport;
    } else {
      assert rest == hostport;
      NoIndex(rest, '@');
    }
  }

  lemma Slices(a: string, b: string, c: string)
    ensures (a + b + c)[|a|..] == b + c
    ensures |a + b| == |a| + |b| && (a + b + c)[..|a| + |b|] == a + b
    ensures c != "" ==> (a + b + c)[|a| + |b| + 1..] == c[1..]
  {}

  /** Cut behind the last `@`, at the first `/`. */
  lemma PathSplitsAt(login: string, hostport: string, dbname: Option<string>)
    requires LastIndex(login + hostport + After("/", dbname), '@') + 1 == |login| && '/' !in hostport
    ensures SplitPath(login + hostport + After("/", dbname)) == (login + hostport, TextOf(dbname))
  {
    hide Index, LastIndex;
    var tail := After("/", dbname);
    Slices(login, hostport, tail);
    SlashAt(hostport, dbname);
    if dbname.None? {
      assert login + hostport + "" == login + hostport;
    }
  }

  lemma SlashAt(hostport: string, dbname: Option<string>)
    requires '/' !in hostport
    ensures Index(hostport + After("/", dbname), '/') == if dbname.Some? then |hostport| else -1
    ensures dbname.Some? ==> After("/", dbname) != "" && After("/", dbname)[1..] == dbname.value
  {
    hide Index;
    if dbname.Some? {
      assert hostport + ("/" + dbname.value) == hostport + ['/'] + dbname.value;
      IndexOf(hostport, '/', dbname.value);
    } else {
      assert hostport + "" == hostport;
      NoIndex(hostport, '/');
    }
  }

  lemma PathSplits(l: Url)
    requires WellFormed(l)
    ensures SplitPath(AssembledAuthority(l)) == (Login(l) + (l.host + After(":", l.port)), TextOf(l.dbname))
  {
    hide LastIndex, SplitPath, Login;
    var hostport := l.host + After(":", l.port);
    assert '/' !in hostport;
    LastAtOfAuthority(l);
    PathSplitsAt(Login(l), hostport, l.dbname);
  }

  lemma LastAtOfAuthority(l: Url)
    requires WellFormed(l)
    ensures LastIndex(AssembledAuthority(l), '@') + 1 == |Login(l)|
  {
    hide LastIndex;
    var behind := l.host + After(":", l.port) + After("/", l.dbname);
    assert '@' !in behind;
    if l.user.Some? {
      var userinfo := l.user.value + After(":", l.password);
      assert AssembledAuthority(l) == userinfo + ['@'] + behind;
      LastIndexOf(userinfo, '@', behind);
    } else {
      assert AssembledAuthority(l) == behind;
      NoIndex(behind, '@');
    }
  }

  /** Taking an assembled URL apart gives back its parts. */
  lemma DecomposeAssembled(l: Url)
    requires WellFormed(l)
    ensures Decompose(Assemble(l)) == PartsOf(l)
  {
    hide Index, LastIndex, SplitPath, DecomposeLogin, AssembledAuthority, WellFormed, TrimScheme, PartsOf, Login, After;
    var authority := AssembledAuthority(l);
    SchemeIsTrimmed(l.short, authority + After("?", l.query));
    assert Assemble(l) == SchemeOf(l.short) + (authority + After("?", l.query));
    QuestionMarks(l);
    QuerySplitsAt(authority, l.query);
    PathSplits(l);
    LoginSplits(l);
  }

  function SchemeOf(short: bool): string {
    if short then "postgres://" else "postgresql://"
  }

  lemma SchemeIsTrimmed(short: bool, rest: string)
    ensures TrimScheme(SchemeOf(short) + rest) == rest
  {
    var raw := SchemeOf(short) + rest;
    if short {
      assert raw[8] == ':';
      assert raw[11..] == rest;
    } else {
      assert raw[13..] == rest;
    }
  }

  /** Cut at the last `?`. */
  lemma QuerySplitsAt(text: string, query: Option<string>)
    requires if query.Some? then '?' !in query.value else '?' !in text
    ensures var rest := text + After("?", query);
            var i := LastIndex(rest, '?');
            if query.Some? then i >= 0 && rest[..i] == text && rest[i + 1..] == query.value else i < 0 && rest == text
  {
    hide LastIndex;
    var rest := text + After("?", query);
    if query.Some? {
      assert rest == text + ['?'] + query.value;
      LastIndexOf(text, '?', query.value);
    } else {
      assert rest == text;
      NoIndex(rest, '?');
    }
  }

  lemma QuestionMarks(l: Url)
    requires WellFormed(l)
    ensures if l.query.Some? then '?' !in l.query.value else '?' !in AssembledAuthority(l)
  {}

  /** The text of a URL's keyword/value form, as `UrlToKV` returns it. */
  function KVOf(raw: string, unescape: string -> Option<string>): string {
    Join(WriteAll(FieldsOf(Decompose(raw), unescape)), " ")
  }

  /** A well-formed URL, rewritten and then read, gives back its own non-empty fields in
      order exactly when none of them has unquotable white space in it. */
  lemma UrlReadsBack(l: Url, unescape: string -> Option<string>)
    requires WellFormed(l)
    requires forall f <- FieldsOf(PartsOf(l), unescape) :: IsKeyword(f.key)
    ensures var fields := FieldsOf(PartsOf(l), unescape);
            ReadKV(KVOf(Assemble(l), unescape)) == Some(fields) <==> forall f <- fields :: !Unreadable(f.value)
  {
    hide ReadKV, Join, Decompose, Unreadable, IsKeyword, PartsOf;
    DecomposeAssembled(l);
    FieldsAreNonEmpty(PartsOf(l), unescape);
    WrittenReadsBack(FieldsOf(PartsOf(l), unescape));
  }

  lemma FieldsAreNonEmpty(p: Parts, unescape: string -> Option<string>)
    ensures forall f <- FieldsOf(p, unescape) :: f.value != ""
  {
    QueryFieldsAreNonEmpty(unescape, Split(p.query, '&'));
  }

  lemma {:induction false} QueryFieldsAreNonEmpty(unescape: string -> Option<string>, kvs: seq<string>)
    ensures forall f <- QueryFields(unescape, kvs) :: f.value != ""
  {
    if kvs != [] {
      QueryFieldsAreNonEmpty(unescape, kvs[..|kvs| - 1]);
    }
  }

  // ----- From a list of parameters to the fields it gives -----

  /** A query parameter; None for one without `=`. */
  datatype Param = Param(key: string, value: Option<string>)

  predicate ParamsFit(params: seq<Param>) {
    forall p <- params :: '=' !in p.key && '&' !in p.key && '&' !in TextOf(p.value)
  }

  /** The query string that lists the parameters. */
  function QueryOf(params: seq<Param>): string {
    if params == [] then ""
    else
      var first := params[0].key + After("=", params[0].value);
      if |params| == 1 then first else first + "&" + QueryOf(params[1..])
  }

  /** The named values that are not empty, in order. */
  function Kept(named: seq<(string, string)>): seq<Field> {
    if named == [] then []
    else if named[0].1 == "" then Kept(named[1..])
    else [Field(named[0].0, named[0].1)] + Kept(named[1..])
  }

  /** Each parameter that has a value, under its key, decoded if it decodes. */
  function Given(unescape: string -> Option<string>, params: seq<Param>): seq<(string, string)> {
    if params == [] then [] else GivenBy(unescape, params[0]) + Given(unescape, params[1..])
  }

  function GivenBy(unescape: string -> Option<string>, p: Param): seq<(string, string)> {
    match p.value
    case None => []
    case Some(v) => [(p.key, if unescape(v).Some? then unescape(v).value else v)]
  }

  lemma SplitsOff(a: string, c: char, rest: string)
    requires c !in a
    ensures Split(a + [c] + rest, c) == [a] + Split(rest, c) && Split(a, c) == [a]
  {
    hide Index;
    IndexOf(a, c, rest);
    NoIndex(a, c);
    var s := a + [c] + rest;
    assert s[..|a|] == a && s[|a| + 1..] == rest;
  }

  lemma {:induction false} QueryFieldsPrepend(unescape: string -> Option<string>, kv: string, kvs: seq<string>)
    ensures QueryFields(unescape, [kv] + kvs) == QueryField(unescape, kv) + QueryFields(unescape, kvs)
    decreases |kvs|
  {
    hide QueryField;
    var all := [kv] + kvs;
    if kvs == [] {
      assert all[..0] == [];
    } else {
      var n := |kvs| - 1;
      assert all[..|all| - 1] == [kv] + kvs[..n];
      QueryFieldsPrepend(unescape, kv, kvs[..n]);
    }
  }

  lemma ParamGives(unescape: string -> Option<string>, p: Param)
    requires '=' !in p.key
    ensures QueryField(unescape, p.key + After("=", p.value)) == Kept(GivenBy(unescape, p))
  {
    hide Index;
    match p.value {
      case None =>
        assert p.key + "" == p.key;
        NoIndex(p.key, '=');
      case Some(v) =>
        assert p.key + ("=" + v) == p.key + ['='] + v;
        IndexOf(p.key, '=', v);
        var kv := p.key + ['='] + v;
        assert kv[..|p.key|] == p.key && kv[|p.key| + 1..] == v;
        assert GivenBy(unescape, p) == [(p.key, Decoded(unescape, v))];
    }
  }

  lemma {:induction false} KeptConcat(a: seq<(string, string)>, b: seq<(string, string)>)
    ensures Kept(a + b) == Kept(a) + Kept(b)
  {
    if a == [] {
      assert a + b == b;
    } else {
      assert (a + b)[1..] == a[1..] + b;
      KeptConcat(a[1..], b);
    }
  }

  /** A query string put together from parameters gives their fields. */
  lemma {:induction false} QueryGives(unescape: string -> Option<string>, params: seq<Param>)
    requires params != [] && ParamsFit(params)
    ensures QueryFields(unescape, Split(QueryOf(params), '&')) == Kept(Given(unescape, params))
  {
    hide QueryField, Split, Given, GivenBy, Kept, QueryFields;
    var p, rest := params[0], params[1..];
    var first := p.key + After("=", p.value);
    ParamGives(unescape, p);
    if rest == [] {
      SplitsOff(first, '&', "");
      GivenIs(unescape, params);
      NothingGiven(unescape);
      assert GivenBy(unescape, p) + [] == GivenBy(unescape, p);
      OneQueryField(unescape, first);
    } else {
      QueryGives(unescape, rest);
      assert QueryOf(params) == first + ['&'] + QueryOf(rest);
      SplitsOff(first, '&', QueryOf(rest));
      QueryFieldsPrepend(unescape, first, Split(QueryOf(rest), '&'));
      GivenIs(unescape, params);
      KeptConcat(GivenBy(unescape, p), Given(unescape, rest));
    }
  }

  lemma GivenIs(unescape: string -> Option<string>, params: seq<Param>)
    requires params != []
    ensures Given(unescape, params) == GivenBy(unescape, params[0]) + Given(unescape, params[1..])
  {}

  lemma OneQueryField(unescape: string -> Option<string>, kv: string)
    ensures QueryFields(unescape, [kv]) == QueryField(unescape, kv)
  {
    hide QueryField;
    assert [kv][..0] == [];
  }

  /** The connection a URL names, listed: its parts under their libpq keywords, then its
      parameters. */
  function Listed(l: Url, unescape: string -> Option<string>, params: seq<Param>): seq<(string, string)> {
    [("host", l.host), ("port", TextOf(l.port)), ("user", TextOf(l.user)), ("password", TextOf(l.password)),
     ("dbname", TextOf(l.dbname))] + Given(unescape, params)
  }

  lemma BaseFields(p: Parts)
    ensures NonEmpty("host", p.host) + NonEmpty("port", p.port) + NonEmpty("user", p.user)
            + NonEmpty("password", p.password) + NonEmpty("dbname", p.dbname)
         == Kept([("host", p.host), ("port", p.port), ("user", p.user), ("password", p.password), ("dbname", p.dbname)])
  {
    var dbname := [("dbname", p.dbname)];
    var password := [("password", p.password)] + dbname;
    var user := [("user", p.user)] + password;
    var port := [("port", p.port)] + user;
    var host := [("host", p.host)] + port;
    assert dbname[1..] == [] && password[1..] == dbname && user[1..] == password && port[1..] == user;
    assert host[1..] == port;
    hide Kept;
    KeptPrepend("host", p.host, port);
    KeptPrepend("port", p.port, user);
    KeptPrepend("user", p.user, password);
    KeptPrepend("password", p.password, dbname);
    KeptPrepend("dbname", p.dbname, []);
    hide NonEmpty;
    assert dbname == dbname + [];
    assert host == [("host", p.host), ("port", p.port), ("user", p.user), ("password", p.password),
                    ("dbname", p.dbname)];
    var a, b, c := NonEmpty("host", p.host), NonEmpty("port", p.port), NonEmpty("user", p.user);
    var d, e := NonEmpty("password", p.password), NonEmpty("dbname", p.dbname);
    assert Kept(host) == a + (b + (c + (d + (e + []))));
    assert a + (b + (c + (d + (e + [])))) == a + b + c + d + e;
  }

  lemma KeptPrepend(key: string, value: string, rest: seq<(string, string)>)
    ensures Kept([(key, value)] + rest) == NonEmpty(key, value) + Kept(rest) && Kept([]) == []
  {
    assert ([(key, value)] + rest)[1..] == rest;
  }

  lemma FieldsAreListed(l: Url, unescape: string -> Option<string>, params: seq<Param>)
    requires ParamsFit(params) && l.query == if params == [] then None else Some(QueryOf(params))
    requires params != [] ==> QueryOf(params) != ""
    ensures FieldsOf(PartsOf(l), unescape) == Kept(Listed(l, unescape, params))
  {
    hide NonEmpty, QueryFields, Split, Kept, Given, QueryOf;
    var p := PartsOf(l);
    BaseFields(p);
    var base := [("host", p.host), ("port", p.port), ("user", p.user), ("password", p.password), ("dbname", p.dbname)];
    KeptConcat(base, Given(unescape, params));
    if params == [] {
      NothingGiven(unescape);
    } else {
      QueryGives(unescape, params);
    }
  }

  lemma NothingGiven(unescape: string -> Option<string>)
    ensures Given(unescape, []) == [] && Kept(Given(unescape, [])) == []
  {}

  /** A URL put together from its parts and a list of parameters, rewritten and then read,
      gives each part that is not empty under its keyword, then each parameter under its
      key with its decoded value, exactly when none of them has unquotable white space. */
  lemma ParametersReadBack(l: Url, unescape: string -> Option<string>, params: seq<Param>)
    requires WellFormed(l) && ParamsFit(params) && forall p <- params :: IsKeyword(p.key)
    requires l.query == if params == [] then None else Some(QueryOf(params))
    ensures var fields := Kept(Listed(l, unescape, params));
            ReadKV(KVOf(Assemble(l), unescape)) == Some(fields) <==> forall f <- fields :: !Unreadable(f.value)
  {
    hide ReadKV, KVOf, Assemble, WellFormed, Unreadable, FieldsOf, PartsOf, Kept, Listed, IsKeyword;
    QueryIsThere(params);
    FieldsAreListed(l, unescape, params);
    KeywordsKept(l, unescape, params);
    UrlReadsBack(l, unescape);
  }

  lemma QueryIsThere(params: seq<Param>)
    requires forall p <- params :: IsKeyword(p.key)
    ensures params != [] ==> QueryOf(params) != ""
  {
    if params != [] {
      assert params[0].key != "";
    }
  }

  lemma {:induction false} KeptKeywords(named: seq<(string, string)>)
    requires forall n <- named :: IsKeyword(n.0)
    ensures forall f <- Kept(named) :: IsKeyword(f.key)
  {
    hide IsKeyword;
    if named != [] {
      KeptKeywords(named[1..]);
      assert named[0] in named;
    }
  }

  lemma {:induction false} GivenKeywords(unescape: string -> Option<string>, params: seq<Param>)
    requires forall p <- params :: IsKeyword(p.key)
    ensures forall n <- Given(unescape, params) :: IsKeyword(n.0)
  {
    hide IsKeyword;
    if params != [] {
      GivenKeywords(unescape, params[1..]);
    }
  }

  lemma KeywordsKept(l: Url, unescape: string -> Option<string>, params: seq<Param>)
    requires forall p <- params :: IsKeyword(p.key)
    ensures forall f <- Kept(Listed(l, unescape, params)) :: IsKeyword(f.key)
  {
    Keywords();
    hide IsKeyword, Kept, Given;
    GivenKeywords(unescape, params);
    KeptKeywords(Listed(l, unescape, params));
  }

  const TAB_PASSWORD := Url(true, Some("u"), Some("\t"), "h", None, None, None)

  lemma TabFields(unescape: string -> Option<string>)
    ensures FieldsOf(PartsOf(TAB_PASSWORD), unescape) ==
            [Field("host", "h"), Field("user", "u"), Field("password", "\t")]
  {
    hide Split, QueryFields;
    var p := PartsOf(TAB_PASSWORD);
    assert p == Parts("h", "", "u", "\t", "", "");
    assert NonEmpty("port", "") == [] && NonEmpty("dbname", "") == [];
    assert NonEmpty("host", "h") == [Field("host", "h")] && NonEmpty("user", "u") == [Field("user", "u")];
    assert NonEmpty("password", "\t") == [Field("password", "\t")];
  }

  lemma TabIsWellFormed()
    ensures WellFormed(TAB_PASSWORD) && Unreadable("\t")
  {
    assert AssembledAuthority(TAB_PASSWORD) == "u:\t@h";
    assert "\t"[0] == '\t' && IsBlank('\t');
  }

  lemma Keywords()
    ensures IsKeyword("host") && IsKeyword("user") && IsKeyword("password") && IsKeyword("port") && IsKeyword("dbname")
  {}

  /** A password that is a tab is written as it stands, and the reader takes it for white
      space: the fields do not come back. */
  lemma TabPasswordIsMisread(unescape: string -> Option<string>)
    ensures WellFormed(TAB_PASSWORD)
    ensures ReadKV(KVOf(Assemble(TAB_PASSWORD), unescape)) != Some(FieldsOf(PartsOf(TAB_PASSWORD), unescape))
  {
    TabFields(unescape);
    TabIsWellFormed();
    Keywords();
    hide WellFormed, Unreadable, IsKeyword, ReadKV, KVOf, Assemble, FieldsOf, PartsOf;
    var fields := FieldsOf(PartsOf(TAB_PASSWORD), unescape);
    assert fields[2] in fields;
    UrlReadsBack(TAB_PASSWORD, unescape);
  }
}
