/** Client registration, login and bearer tokens: the session cache and the auth service over an
    all-or-nothing key store, against a reference that reads the history of successful calls. */
module Auth {
  import opened Wrappers

  /** Client IDs and tokens are numbers; 0 stands for the empty string. */
  type ClientId = int
  type Token = int

  datatype Key = Key(length: nat, secret: int)

  const MIN_KEY_LEN := 32
  const NANOS_PER_MINUTE := 60_000_000_000

  datatype CachedSession = CachedSession(client: ClientId, expires: int)

  type SessionMap = map<Token, CachedSession>

  /** What the outside world does in one call: store reads and writes, the rate limiter, the hash and
      the random source may each fail. */
  datatype Env = Env(readOk: bool, writeOk: bool, limiterOk: bool, hashOk: bool, randomOk: bool)

  ghost predicate OneTokenEach(m: SessionMap) {
    forall t, u | t in m && u in m && m[t].client == m[u].client :: t == u
  }

  function Without(m: SessionMap, client: ClientId): SessionMap {
    map t | t in m && m[t].client != client :: m[t]
  }

  /** One way to range over the map: Go picks the order, so every order is an input here. */
  ghost predicate IsOrder(order: seq<Token>, m: SessionMap) {
    forall t :: t in order <==> t in m
  }

  /** Why the early return is complete. */
  lemma FirstHitIsAll(m: SessionMap, token: Token)
    requires OneTokenEach(m) && token in m
    ensures m - {token} == Without(m, m[token].client)
  {
    var rest, kept := m - {token}, Without(m, m[token].client);
    forall t ensures t in rest <==> t in kept {
      if t in m && m[t].client == m[token].client { assert t == token; }
    }
  }

  function PutSpec(m: SessionMap, client: ClientId, token: Token, expires: int): SessionMap {
    if client == 0 || token == 0 || token in m then m
    else Without(m, client)[token := CachedSession(client, expires)]
  }

  function GetSpec(m: SessionMap, token: Token, now: int): (SessionMap, Result<CachedSession>) {
    if token !in m then (m, Err)
    else if now > m[token].expires then (m - {token}, Err)
    else (m, Ok(m[token]))
  }

  class SessionCache {
    const expirationMinutes: int
    var sessionMap: SessionMap

    constructor (minutes: int)
      requires minutes > 0
      ensures sessionMap == map[] && expirationMinutes == minutes
    {
      expirationMinutes := minutes;
      sessionMap := map[];
    }

    method Get(token: Token, now: int) returns (r: Result<CachedSession>)
      modifies this
      ensures (sessionMap, r) == GetSpec(old(sessionMap), token, now)
    {
      if token !in sessionMap {
        return Err;
      }
      var session := sessionMap[token];
      if now > session.expires {
        sessionMap := sessionMap - {token};
        return Err;
      }
      r := Ok(session);
    }

    /** delete: the tokens are visited in any order and the search stops at the first hit. With at most
        one token per client that one hit is all there is. */
    method DeleteFirst(client: ClientId, order: seq<Token>)
      requires IsOrder(order, sessionMap)
      modifies this
      ensures if forall t | t in old(sessionMap) :: old(sessionMap)[t].client != client
              then sessionMap == old(sessionMap)
              else exists t ::
                     t in old(sessionMap) && old(sessionMap)[t].client == client && sessionMap == old(sessionMap) - {t}
      ensures OneTokenEach(old(sessionMap)) ==> sessionMap == Without(old(sessionMap), client)
    {
      for i := 0 to |order|
        invariant sessionMap == old(sessionMap)
        invariant forall j | 0 <= j < i :: order[j] in sessionMap && sessionMap[order[j]].client != client
      {
        var token := order[i];
        if sessionMap[token].client == client {
          if OneTokenEach(sessionMap) { FirstHitIsAll(sessionMap, token); }
          sessionMap := sessionMap - {token};
          return;
        }
      }
    }

    method Put(client: ClientId, token: Token, now: int, order: seq<Token>) returns (ok: bool)
      requires OneTokenEach(sessionMap) && IsOrder(order, sessionMap)
      modifies this
      ensures ok <==> client != 0 && token != 0 && token !in old(sessionMap)
      ensures sessionMap == PutSpec(old(sessionMap), client, token, now + expirationMinutes * NANOS_PER_MINUTE)
      ensures OneTokenEach(sessionMap)
    {
      if client == 0 || token == 0 || token in sessionMap {
        return false;
      }
      DeleteFirst(client, order);
      sessionMap := sessionMap[token := CachedSession(client, now + expirationMinutes * NANOS_PER_MINUTE)];
      ok := true;
    }
  }

  /** A cache needs a positive time to live. */
  method NewSessionCache(minutes: int) returns (c: Option<SessionCache>)
    ensures c.Some? <==> minutes > 0
    ensures c.Some? ==> fresh(c.value) && c.value.sessionMap == map[] && c.value.expirationMinutes == minutes
  {
    if minutes <= 0 {
      return None;
    }
    var cache := new SessionCache(minutes);
    c := Some(cache);
  }

  // ----- the service

  datatype State = State(store: map<ClientId, Key>, sessions: SessionMap)

  predicate Readable(s: State, id: ClientId, env: Env) {
    id != 0 && env.readOk && id in s.store
  }

  predicate RegisterOk(s: State, id: ClientId, key: Key, env: Env) {
    key.length >= MIN_KEY_LEN && id != 0 && env.readOk && id !in s.store && env.limiterOk && env.hashOk && env.writeOk
  }

  function RegisterSpec(s: State, id: ClientId, key: Key, env: Env): State {
    if RegisterOk(s, id, key, env) then s.(store := s.store[id := key]) else s
  }

  predicate UnregisterOk(s: State, id: ClientId, env: Env) {
    Readable(s, id, env) && env.writeOk
  }

  function UnregisterSpec(s: State, id: ClientId, env: Env): State {
    if UnregisterOk(s, id, env) then State(s.store - {id}, Without(s.sessions, id)) else s
  }

  predicate LoginOk(s: State, id: ClientId, key: Key, token: Token, env: Env) {
    Readable(s, id, env) && env.limiterOk && s.store[id] == key && env.randomOk && token != 0 && token !in s.sessions
  }

  function LoginSpec(s: State, id: ClientId, key: Key, token: Token, expires: int, env: Env): State {
    if LoginOk(s, id, key, token, env) then s.(sessions := PutSpec(s.sessions, id, token, expires)) else s
  }

  class Service {
    const cache: SessionCache
    var store: map<ClientId, Key>   // the hash of a key is modelled by the key itself

    ghost function Model(): State
      reads this, cache
    {
      State(store, cache.sessionMap)
    }

    constructor (sessionCache: SessionCache)
      ensures cache == sessionCache && store == map[]
    {
      cache := sessionCache;
      store := map[];
    }

    method Authenticate(id: ClientId, key: Key, env: Env) returns (ok: bool)
      ensures ok <==> Readable(Model(), id, env) && env.limiterOk && store[id] == key
    {
      if id == 0 || !env.readOk || id !in store {
        return false;
      }
      var hash := store[id];
      if !env.limiterOk {
        return false;
      }
      ok := hash == key;
    }

    method Register(id: ClientId, key: Key, env: Env) returns (ok: bool)
      modifies this
      ensures Model() == RegisterSpec(old(Model()), id, key, env) && (ok <==> RegisterOk(old(Model()), id, key, env))
    {
      if key.length < MIN_KEY_LEN {
        return false;
      }
      if id == 0 || !env.readOk || id in store {
        return false;
      }
      if !env.limiterOk || !env.hashOk || !env.writeOk {
        return false;
      }
      store := store[id := key];
      ok := true;
    }

    method Unregister(id: ClientId, env: Env, order: seq<Token>) returns (ok: bool)
      requires OneTokenEach(cache.sessionMap) && IsOrder(order, cache.sessionMap)
      modifies this, cache
      ensures Model() == UnregisterSpec(old(Model()), id, env) && (ok <==> UnregisterOk(old(Model()), id, env))
    {
      if id == 0 || !env.readOk || id !in store {
        return false;
      }
      if !env.writeOk {
        return false;
      }
      store := store - {id};
      cache.DeleteFirst(id, order);
      ok := true;
    }

    method Login(id: ClientId, key: Key, token: Token, now: int, env: Env, order: seq<Token>) returns (ok: bool)
      requires OneTokenEach(cache.sessionMap) && IsOrder(order, cache.sessionMap)
      modifies cache
      ensures Model() == LoginSpec(old(Model()), id, key, token, now + cache.expirationMinutes * NANOS_PER_MINUTE, env)
      ensures ok <==> LoginOk(old(Model()), id, key, token, env)
    {
      ok := Authenticate(id, key, env);
      if !ok || !env.randomOk {
        return false;
      }
      ok := cache.Put(id, token, now, order);
    }
  }

  /** A service needs a store and a session cache. */
  method NewService(hasStore: bool, sessionCache: Option<SessionCache>) returns (s: Option<Service>)
    ensures s.Some? <==> hasStore && sessionCache.Some?
    ensures s.Some? ==> fresh(s.value) && s.value.cache == sessionCache.value && s.value.store == map[]
  {
    if !hasStore || sessionCache.None? {
      return None;
    }
    var service := new Service(sessionCache.value);
    s := Some(service);
  }

  // ----- a login in two halves

  /** What caching a login does once its authentication lies behind it: the cache stays right exactly if the
      client is still registered then. */
  lemma CachingKeepsInvIff(s: State, id: ClientId, token: Token, expires: int)
    requires CacheInv(s) && id != 0 && token != 0 && token !in s.sessions
    ensures CacheInv(s.(sessions := PutSpec(s.sessions, id, token, expires))) <==> id in s.store
  {
    var t := s.(sessions := PutSpec(s.sessions, id, token, expires));
    assert token in t.sessions && t.sessions[token].client == id;
  }

  /** An Unregister between the two halves: the token stays valid with nobody registered, and then for a new
      registration that never logged in. */
  lemma SplitLoginOutlivesClient(s: State, id: ClientId, token: Token, expires: int, now: int, key: Key,
                                 env: Env, env': Env)
    requires CacheInv(s) && UnregisterOk(s, id, env) && token != 0 && token !in s.sessions && now <= expires
    requires RegisterOk(UnregisterSpec(s, id, env), id, key, env')
    ensures var gone := UnregisterSpec(s, id, env);
            var late := gone.(sessions := PutSpec(gone.sessions, id, token, expires));
            && !CacheInv(late)
            && GetSpec(RegisterSpec(late, id, key, env').sessions, token, now).1 == Ok(CachedSession(id, expires))
  {
    var gone := UnregisterSpec(s, id, env);
    CachingKeepsInvIff(gone, id, token, expires);
  }

  // ----- whole runs

  datatype Op =
    | Register(id: ClientId, key: Key, env: Env)
    | Unregister(id: ClientId, env: Env)
    | Login(id: ClientId, key: Key, token: Token, now: int, env: Env)
    | Lookup(token: Token, now: int)

  const START := State(map[], map[])

  function Apply(s: State, op: Op, ttl: int): State {
    match op
    case Register(id, key, env) => RegisterSpec(s, id, key, env)
    case Unregister(id, env) => UnregisterSpec(s, id, env)
    case Login(id, key, token, now, env) => LoginSpec(s, id, key, token, now + ttl, env)
    case Lookup(token, now) => s.(sessions := GetSpec(s.sessions, token, now).0)
  }

  function Run(ops: seq<Op>, ttl: int): State {
    if ops == [] then START else Apply(Run(ops[..|ops| - 1], ttl), ops[|ops| - 1], ttl)
  }

  // ----- what the history says

  /** A client's key: that of its latest accepted registration, unless the client was unregistered since. */
  function KeyOf(ops: seq<Op>, client: ClientId): Option<Key> {
    if ops == [] then None else
    var before, op := ops[..|ops| - 1], ops[|ops| - 1];
    if op.Register? && op.id == client && client != 0 && op.key.length >= MIN_KEY_LEN && KeyOf(before, client).None?
      && op.env.readOk && op.env.limiterOk && op.env.hashOk && op.env.writeOk
    then Some(op.key)
    else if op.Unregister? && op.id == client && op.env.readOk && op.env.writeOk then None
    else KeyOf(before, client)
  }

  /** The login is with the client's key, nothing fails, and the token is a new one. */
  predicate LogsIn(ops: seq<Op>, ttl: int, op: Op) {
    && op.Login? && KeyOf(ops, op.id) == Some(op.key) && op.token != 0 && op.token !in Run(ops, ttl).sessions
    && op.env.readOk && op.env.limiterOk && op.env.randomOk
  }

  datatype Grant = Grant(token: Token, at: int)

  /** A client's latest successful login, unless the client was unregistered since. */
  function GrantOf(ops: seq<Op>, ttl: int, client: ClientId): Option<Grant> {
    if ops == [] then None else
    var before, op := ops[..|ops| - 1], ops[|ops| - 1];
    if LogsIn(before, ttl, op) && op.id == client then Some(Grant(op.token, op.now))
    else if op.Unregister? && op.id == client && op.env.readOk && op.env.writeOk then None
    else GrantOf(before, ttl, client)
  }

  /** The store holds exactly the keys that the history says. */
  lemma {:induction false} StoreMatchesHistory(ops: seq<Op>, ttl: int, client: ClientId)
    ensures var store := Run(ops, ttl).store;
            KeyOf(ops, client) == if client in store then Some(store[client]) else None
    ensures 0 !in Run(ops, ttl).store
  {
    if ops != [] {
      StoreMatchesHistory(ops[..|ops| - 1], ttl, client);
    }
  }

  /** A login over every run, from the history and its inputs: with the right key and no failure the token is
      cached for the client in place of its old one, and nothing else changes; otherwise nothing changes. */
  lemma LoginFollows(ops: seq<Op>, ttl: int, op: Op)
    requires op.Login?
    ensures var s, t := Run(ops, ttl), Run(ops + [op], ttl);
            if !LogsIn(ops, ttl, op) then t == s
            else
              && t.store == s.store
              && (forall u :: u in t.sessions <==>
                    u == op.token || (u in s.sessions && s.sessions[u].client != op.id))
              && (forall u | u in t.sessions ::
                    t.sessions[u] == if u == op.token then CachedSession(op.id, op.now + ttl) else s.sessions[u])
  {
    assert (ops + [op])[..|ops|] == ops;
    StoreMatchesHistory(ops, ttl, op.id);
  }

  /** With any other key than the one registered a login changes nothing. */
  lemma WrongKeyIsRefused(ops: seq<Op>, ttl: int, op: Op)
    requires op.Login? && (op.id !in Run(ops, ttl).store || Run(ops, ttl).store[op.id] != op.key)
    ensures Run(ops + [op], ttl) == Run(ops, ttl)
  {
    StoreMatchesHistory(ops, ttl, op.id);
    LoginFollows(ops, ttl, op);
  }

  function ClockOf(op: Op): Option<int> {
    match op
    case Login(_, _, _, now, _) => Some(now)
    case Lookup(_, now) => Some(now)
    case _ => None
  }

  /** No timed call happens after `now`. */
  ghost predicate Before(ops: seq<Op>, now: int) {
    forall i | 0 <= i < |ops| && ClockOf(ops[i]).Some? :: ClockOf(ops[i]).value <= now
  }

  /** The clock does not run backwards. */
  ghost predicate Monotone(ops: seq<Op>) {
    forall i, j | 0 <= i < j < |ops| && ClockOf(ops[i]).Some? && ClockOf(ops[j]).Some? ::
      ClockOf(ops[i]).value <= ClockOf(ops[j]).value
  }

  ghost predicate CacheInv(s: State) {
    && OneTokenEach(s.sessions)
    && forall t | t in s.sessions :: s.sessions[t].client in s.store && t != 0
  }

  lemma {:induction false} RunCacheInv(ops: seq<Op>, ttl: int)
    ensures CacheInv(Run(ops, ttl))
  {
    if ops != [] {
      RunCacheInv(ops[..|ops| - 1], ttl);
    }
  }

  /** Whatever is cached is its client's current grant. */
  lemma {:induction false} CachedIsGranted(ops: seq<Op>, ttl: int, token: Token)
    requires token in Run(ops, ttl).sessions
    ensures var c := Run(ops, ttl).sessions[token];
            GrantOf(ops, ttl, c.client) == Some(Grant(token, c.expires - ttl))
  {
    var before, op := ops[..|ops| - 1], ops[|ops| - 1];
    var s := Run(before, ttl);
    RunCacheInv(before, ttl);
    if op.Login? || op.Unregister? {
      StoreMatchesHistory(before, ttl, op.id);
    }
    if token in s.sessions {
      CachedIsGranted(before, ttl, token);
    }
  }

  /** A grant that is not cached any more has expired. */
  lemma {:induction false} GrantedIsCached(ops: seq<Op>, ttl: int, client: ClientId, now: int)
    requires Monotone(ops) && Before(ops, now) && GrantOf(ops, ttl, client).Some?
    ensures var g := GrantOf(ops, ttl, client).value; var m := Run(ops, ttl).sessions;
            if g.token in m && m[g.token].client == client then m[g.token].expires == g.at + ttl else now > g.at + ttl
  {
    var before, op := ops[..|ops| - 1], ops[|ops| - 1];
    var s := Run(before, ttl);
    RunCacheInv(before, ttl);
    if op.Login? || op.Unregister? {
      StoreMatchesHistory(before, ttl, op.id);
    }
    if GrantOf(before, ttl, client).Some? && GrantOf(before, ttl, client) == GrantOf(ops, ttl, client) {
      var g := GrantOf(before, ttl, client).value;
      var earlier := if ClockOf(op).Some? then ClockOf(op).value else now;
      assert Before(before, earlier);
      GrantedIsCached(before, ttl, client, earlier);
    }
  }

  /** The guarantee, in both directions: a lookup returns a client exactly when the token is the one
      from that client's latest login, the client was not unregistered since, and it has not expired. */
  lemma LookupMatchesHistory(ops: seq<Op>, ttl: int, token: Token, now: int, client: ClientId)
    requires Monotone(ops) && Before(ops, now)
    ensures var r := GetSpec(Run(ops, ttl).sessions, token, now).1;
            (r.Ok? && r.value.client == client) <==>
            (exists at :: GrantOf(ops, ttl, client) == Some(Grant(token, at)) && now <= at + ttl)
  {
    if token in Run(ops, ttl).sessions {
      CachedIsGranted(ops, ttl, token);
    }
    if GrantOf(ops, ttl, client).Some? {
      GrantedIsCached(ops, ttl, client, now);
    }
  }

  lemma {:induction false} GrantedIsRegistered(ops: seq<Op>, ttl: int, client: ClientId)
    requires GrantOf(ops, ttl, client).Some?
    ensures client in Run(ops, ttl).store
  {
    StoreMatchesHistory(ops[..|ops| - 1], ttl, client);
    if GrantOf(ops[..|ops| - 1], ttl, client).Some? {
      GrantedIsRegistered(ops[..|ops| - 1], ttl, client);
    }
  }

  /** A fresh registration starts without any grant, so every grant is younger than it. */
  lemma RegistrationStartsClean(ops: seq<Op>, ttl: int, op: Op, client: ClientId)
    requires KeyOf(ops, client).None? && KeyOf(ops + [op], client).Some?
    ensures GrantOf(ops + [op], ttl, client) == None
  {
    assert (ops + [op])[..|ops|] == ops;
    if GrantOf(ops, ttl, client).Some? {
      GrantedIsRegistered(ops, ttl, client);
      StoreMatchesHistory(ops, ttl, client);
    }
  }
}
