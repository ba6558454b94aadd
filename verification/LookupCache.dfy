/** The account lookup of the webhook: a resolver over HTTP with a positive cache, alone and
    with any number of lookups interleaved. */
module LookupCache {
  import opened Wrappers

  const TTL := 60

  datatype Entry = Entry(account: string, expires: int)

  type Cache = map<string, Entry>

  datatype LookupError = NotFound | Transient

  /** The authority's response: none, or a status with a body, which may not decode. */
  datatype Response = NoResponse | Response(status: int, accountId: Option<string>)

  function CacheKey(platform: string, identifier: string): string {
    platform + ['\0'] + identifier
  }

  predicate NulFree(s: string) {
    '\0' !in s
  }

  /** Keys of NUL-free platforms do not collide. */
  lemma KeysDoNotCollide(platform: string, identifier: string, platform': string, identifier': string)
    requires NulFree(platform) && NulFree(platform')
    requires CacheKey(platform, identifier) == CacheKey(platform', identifier')
    ensures platform == platform' && identifier == identifier'
  {
    var key, key' := CacheKey(platform, identifier), CacheKey(platform', identifier');
    assert key[|platform|] == '\0' && key'[|platform'|] == '\0';
    assert forall i :: 0 <= i < |platform| ==> key[i] == platform[i] && key[i] != '\0';
    assert forall i :: 0 <= i < |platform'| ==> key'[i] == platform'[i] && key'[i] != '\0';
    assert |platform| == |platform'|;
    assert platform == key[..|platform|] && identifier == key[|platform| + 1..];
    assert platform' == key'[..|platform'|] && identifier' == key'[|platform'| + 1..];
  }

  /** A NUL in a platform can make two different lookups share a key. */
  lemma NulCollides()
    ensures CacheKey("a\0b", "c") == CacheKey("a", "b\0c") && "a\0b" != "a"
  {}

  // ----- The steps on the cache -----

  /** A hit: an entry whose expiry the clock has not passed. */
  function Cached(cache: Cache, key: string, now: int): Option<string> {
    if key in cache && now <= cache[key].expires then Some(cache[key].account) else None
  }

  function Stored(cache: Cache, key: string, account: string, now: int): Cache {
    cache[key := Entry(account, now + TTL)]
  }

  /** What a response means to the caller. */
  function Answer(r: Response): Result<string, LookupError> {
    match r
    case NoResponse => Err(Transient)
    case Response(status, accountId) =>
      if status == 404 then Err(NotFound)
      else if 200 <= status < 300 then
        if accountId.None? then Err(Transient)
        else if accountId.value == "" then Err(NotFound)
        else Ok(accountId.value)
      else Err(Transient)
  }

  /** Found exactly on a 2xx that names an account; not found on a 404, or a 2xx that names
      none; anything else may be tried again. */
  lemma AnswerMeans(r: Response)
    ensures forall account :: Answer(r) == Ok(account) <==>
              r.Response? && r.status / 100 == 2 && r.accountId == Some(account) && account != ""
    ensures Answer(r) == Err(NotFound) <==>
              r.Response? && (r.status == 404 || (r.status / 100 == 2 && r.accountId == Some("")))
    ensures Answer(r) == Err(Transient) <==>
              r.NoResponse? || (r.status != 404 && (r.status / 100 != 2 || r.accountId == None))
  {}

  class HTTPResolver {
    var cache: Cache

    constructor ()
      ensures cache == map[]
    {
      cache := map[];
    }

    method LookUpCached(key: string, now: int) returns (hit: Option<string>)
      ensures hit == Cached(cache, key, now)
    {
      if key !in cache || now > cache[key].expires {
        return None;
      }
      return Some(cache[key].account);
    }

    method Store(key: string, account: string, now: int)
      modifies this
      ensures cache == Stored(old(cache), key, account, now)
    {
      cache := cache[key := Entry(account, now + TTL)];
    }

    /** `now` is read to look in the cache, and `later` to store what the authority answers.
        A hit asks nobody and changes nothing; only an account that was found is stored. */
    method Resolve(platform: string, identifier: string, now: int, response: Response, later: int)
      returns (r: Result<string, LookupError>)
      modifies this
      ensures var key := CacheKey(platform, identifier);
              var hit := Cached(old(cache), key, now);
              && r == (if hit.Some? then Ok(hit.value) else Answer(response))
              && cache == if hit.None? && r.Ok? then Stored(old(cache), key, r.value, later) else old(cache)
      ensures var key := CacheKey(platform, identifier);
              (key in old(cache) && now <= old(cache)[key].expires ==> r == Ok(old(cache)[key].account))
              && (cache != old(cache) ==>
                    r.Ok? && cache == old(cache)[key := Entry(r.value, later + TTL)])
    {
      var key := CacheKey(platform, identifier);
      var hit := LookUpCached(key, now);
      if hit.Some? {
        return Ok(hit.value);
      }
      if response.NoResponse? {
        return Err(Transient);
      }
      if response.status == 404 {
        return Err(NotFound);
      }
      if 200 <= response.status < 300 {
        if response.accountId.None? {
          return Err(Transient);
        }
        if response.accountId.value == "" {
          return Err(NotFound);
        }
        Store(key, response.accountId.value, later);
        return Ok(response.accountId.value);
      }
      return Err(Transient);
    }
  }

  // ----- Any interleaving of lookups, with a changing authority -----

  /** The authority said `account` for this lookup at time `at`. */
  datatype Said = Said(platform: string, identifier: string, account: string, at: int)

  /** A lookup was given `account` from the cache at time `at`. */
  datatype Served = Served(platform: string, identifier: string, account: string, at: int)

  datatype State = State(cache: Cache, clock: int, said: seq<Said>, stores: seq<Said>, served: seq<Served>)

  const INITIAL := State(map[], 0, [], [], [])

  /** The clock moves on; the authority answers one request, with anything at all; a request
      stores the answer it was given, however late; a request finds the cache. */
  datatype Step =
    | Tick(seconds: nat)
    | AuthorityAnswers(platform: string, identifier: string, response: Response)
    | StoreAnswer(given: nat)
    | Serve(platform: string, identifier: string)

  predicate Enabled(s: State, step: Step) {
    match step
    case Tick(_) => true
    case AuthorityAnswers(platform, _, _) => NulFree(platform)
    case StoreAnswer(given) => given < |s.said|
    case Serve(platform, identifier) =>
      NulFree(platform) && Cached(s.cache, CacheKey(platform, identifier), s.clock).Some?
  }

  function Apply(s: State, step: Step): State
    requires Enabled(s, step)
  {
    match step
    case Tick(seconds) => s.(clock := s.clock + seconds)
    case AuthorityAnswers(platform, identifier, response) =>
      if Answer(response).Ok? then s.(said := s.said + [Said(platform, identifier, Answer(response).value, s.clock)])
      else s
    case StoreAnswer(given) =>
      var a := s.said[given];
      s.(cache := Stored(s.cache, CacheKey(a.platform, a.identifier), a.account, s.clock),
         stores := s.stores + [a.(at := s.clock)])
    case Serve(platform, identifier) =>
      var account := Cached(s.cache, CacheKey(platform, identifier), s.clock).value;
      s.(served := s.served + [Served(platform, identifier, account, s.clock)])
  }

  ghost predicate IsRun(run: seq<State>, steps: seq<Step>) {
    && |run| == |steps| + 1 && run[0] == INITIAL
    && forall i :: 0 <= i < |steps| ==> Enabled(run[i], steps[i]) && run[i + 1] == Apply(run[i], steps[i])
  }

  /** The authority gave this very account for this very lookup, no later than `until`. */
  ghost predicate WasSaid(s: State, platform: string, identifier: string, account: string, until: int) {
    exists i :: 0 <= i < |s.said| && s.said[i].platform == platform && s.said[i].identifier == identifier
                && s.said[i].account == account && s.said[i].at <= until
  }

  /** It was stored for this very lookup at a time `now` is at most one TTL after. */
  ghost predicate StoredWithinTTL(s: State, platform: string, identifier: string, account: string, now: int) {
    exists i :: 0 <= i < |s.stores|
      && s.stores[i] == Said(platform, identifier, account, s.stores[i].at)
      && s.stores[i].at <= now <= s.stores[i].at + TTL
      && WasSaid(s, platform, identifier, account, s.stores[i].at)
  }

  /** Every entry is one of the stores, under its key and with its expiry. */
  ghost predicate EntriesBacked(s: State) {
    forall key :: key in s.cache ==> exists i :: 0 <= i < |s.stores| && Backs(s, s.stores[i], key)
  }

  ghost predicate Backs(s: State, a: Said, key: string) {
    && key in s.cache && key == CacheKey(a.platform, a.identifier)
    && s.cache[key] == Entry(a.account, a.at + TTL)
  }

  ghost predicate SaidSound(s: State) {
    forall i :: 0 <= i < |s.said| ==> s.said[i].at <= s.clock && NulFree(s.said[i].platform)
  }

  ghost predicate StoreSound(s: State, a: Said) {
    a.at <= s.clock && NulFree(a.platform) && WasSaid(s, a.platform, a.identifier, a.account, a.at)
  }

  ghost predicate StoresSound(s: State) {
    forall i :: 0 <= i < |s.stores| ==> StoreSound(s, s.stores[i])
  }

  ghost predicate ServedSound(s: State) {
    forall i :: 0 <= i < |s.served| ==>
      StoredWithinTTL(s, s.served[i].platform, s.served[i].identifier, s.served[i].account, s.served[i].at)
  }

  ghost predicate Inv(s: State) {
    EntriesBacked(s) && SaidSound(s) && StoresSound(s) && ServedSound(s)
  }

  lemma SaidGrows(s: State, s': State, platform: string, identifier: string, account: string, until: int)
    requires s.said <= s'.said && WasSaid(s, platform, identifier, account, until)
    ensures WasSaid(s', platform, identifier, account, until)
  {
    var i :| 0 <= i < |s.said| && s.said[i].platform == platform && s.said[i].identifier == identifier
             && s.said[i].account == account && s.said[i].at <= until;
    assert s'.said[i] == s.said[i];
  }

  lemma StoresGrow(s: State, s': State, platform: string, identifier: string, account: string, now: int)
    requires s.said <= s'.said && s.stores <= s'.stores && StoredWithinTTL(s, platform, identifier, account, now)
    ensures StoredWithinTTL(s', platform, identifier, account, now)
  {
    var i :| 0 <= i < |s.stores| && s.stores[i] == Said(platform, identifier, account, s.stores[i].at)
      && s.stores[i].at <= now <= s.stores[i].at + TTL
      && WasSaid(s, platform, identifier, account, s.stores[i].at);
    SaidGrows(s, s', platform, identifier, account, s.stores[i].at);
    assert s'.stores[i] == s.stores[i];
  }

  /** Time passing and answers arriving take nothing away. */
  lemma HistoryKept(s: State, s': State)
    requires Inv(s) && s.said <= s'.said && s.stores <= s'.stores && s.clock <= s'.clock
    ensures forall i :: 0 <= i < |s.stores| ==> StoreSound(s', s.stores[i])
    ensures forall i :: 0 <= i < |s.served| ==>
              StoredWithinTTL(s', s.served[i].platform, s.served[i].identifier, s.served[i].account, s.served[i].at)
  {
    hide WasSaid, StoredWithinTTL;
    forall i | 0 <= i < |s.stores| ensures StoreSound(s', s.stores[i]) {
      SaidGrows(s, s', s.stores[i].platform, s.stores[i].identifier, s.stores[i].account, s.stores[i].at);
    }
    forall i | 0 <= i < |s.served|
      ensures StoredWithinTTL(s', s.served[i].platform, s.served[i].identifier, s.served[i].account, s.served[i].at)
    {
      StoresGrow(s, s', s.served[i].platform, s.served[i].identifier, s.served[i].account, s.served[i].at);
    }
  }

  lemma EntriesKept(s: State, s': State)
    requires EntriesBacked(s) && s'.cache == s.cache && s'.stores == s.stores
    ensures EntriesBacked(s')
  {
    forall key | key in s'.cache ensures exists i :: 0 <= i < |s'.stores| && Backs(s', s'.stores[i], key) {
      var i :| 0 <= i < |s.stores| && Backs(s, s.stores[i], key);
      assert Backs(s', s'.stores[i], key);
    }
  }

  lemma StoreKeepsInv(s: State, given: nat)
    requires Inv(s) && given < |s.said|
    ensures Inv(Apply(s, StoreAnswer(given)))
  {
    var s' := Apply(s, StoreAnswer(given));
    var a := s'.stores[|s.stores|];
    HistoryKept(s, s');
    assert WasSaid(s', a.platform, a.identifier, a.account, a.at) by {
      assert s'.said[given] == s.said[given];
    }
    forall key | key in s'.cache ensures exists i :: 0 <= i < |s'.stores| && Backs(s', s'.stores[i], key) {
      if key == CacheKey(a.platform, a.identifier) {
        assert Backs(s', s'.stores[|s.stores|], key);
      } else {
        var i :| 0 <= i < |s.stores| && Backs(s, s.stores[i], key);
        assert s'.stores[i] == s.stores[i] && Backs(s', s'.stores[i], key);
      }
    }
  }

  /** What the cache holds for a lookup was stored for that lookup: the keys do not collide. */
  lemma HitWasStored(s: State, platform: string, identifier: string)
    requires Inv(s) && Enabled(s, Serve(platform, identifier))
    ensures StoredWithinTTL(s, platform, identifier, s.cache[CacheKey(platform, identifier)].account, s.clock)
  {
    hide WasSaid, CacheKey;
    var i :| 0 <= i < |s.stores| && Backs(s, s.stores[i], CacheKey(platform, identifier));
    var a := s.stores[i];
    assert StoreSound(s, a);
    KeysDoNotCollide(platform, identifier, a.platform, a.identifier);
  }

  /** Misses and errors are never cached: an answer without an account leaves everything as
      it was, and nothing but a store changes the cache. */
  lemma OnlyAccountsAreCached(s: State, step: Step)
    requires Enabled(s, step)
    ensures step.AuthorityAnswers? && Answer(step.response).Err? ==> Apply(s, step) == s
    ensures Apply(s, step).cache != s.cache ==> step.StoreAnswer?
  {}

  lemma StepKeepsInv(s: State, step: Step)
    requires Inv(s) && Enabled(s, step)
    ensures Inv(Apply(s, step))
  {
    hide WasSaid, StoredWithinTTL, Backs, CacheKey;
    var s' := Apply(s, step);
    if step.StoreAnswer? {
      StoreKeepsInv(s, step.given);
    } else {
      OnlyAccountsAreCached(s, step);
      HistoryKept(s, s');
      EntriesKept(s, s');
      if step.Serve? {
        HitWasStored(s, step.platform, step.identifier);
        var account := s.cache[CacheKey(step.platform, step.identifier)].account;
        StoresGrow(s, s', step.platform, step.identifier, account, s.clock);
      }
    }
  }

  lemma {:induction false} InvHolds(run: seq<State>, steps: seq<Step>, n: nat)
    requires IsRun(run, steps) && n < |run|
    ensures Inv(run[n])
  {
    if n > 0 {
      InvHolds(run, steps, n - 1);
      StepKeepsInv(run[n - 1], steps[n - 1]);
    }
  }

  /** Over any run, every account the cache serves is one the authority gave for that same
      platform and identifier, and was stored no more than one TTL before. */
  lemma CacheServesTheAuthority(run: seq<State>, steps: seq<Step>, n: nat, i: nat)
    requires IsRun(run, steps) && n < |run| && i < |run[n].served|
    ensures var v := run[n].served[i]; StoredWithinTTL(run[n], v.platform, v.identifier, v.account, v.at)
  {
    InvHolds(run, steps, n);
  }
}
