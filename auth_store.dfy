/**
 * The session store of src/stores/auth.ts: an in-memory token and username,
 * mirrored into the browser's durable key-value storage (`localStorage`).
 *
 * The store is modelled twice over, in the usual way: `SessionState` is the
 * value the store holds, and the functions on it (`Hydrate`, `LoggedIn`,
 * `LoggedOut`) say what each operation does; class `Session` is the mutable
 * store itself, whose methods are proved to change their fields exactly as
 * those functions say.
 */
module AuthStore {
  import opened Wrappers

  /** The two storage keys the store reads and writes. */
  const TokenKey: string := "token"
  const UsernameKey: string := "username"

  /** `localStorage.getItem(key)`: the stored string, or null when the key is absent. */
  function GetItem(storage: map<string, string>, key: string): (r: Option<string>)
  {
    if key in storage then Some(storage[key]) else None
  }

  /** JavaScript truthiness of a `string | null`: null and the empty string are falsy. */
  predicate Truthy(s: Option<string>)
  {
    s.Some? && s.value != ""
  }

  /** The whole state of the store: the two reactive fields and the durable storage. */
  datatype SessionState = SessionState(token: Option<string>, username: Option<string>, storage: map<string, string>)
  {
    /** The computed `isAuthenticated` flag, `!!token`. */
    predicate Authenticated()
    {
      Truthy(token)
    }

    /** The in-memory fields agree with the durable entries. */
    predicate Synced()
    {
      token == GetItem(storage, TokenKey) && username == GetItem(storage, UsernameKey)
    }

    /** Token and username are set together or cleared together. */
    predicate Paired()
    {
      token.Some? <==> username.Some?
    }
  }

  /** Two storages that agree everywhere except possibly on the store's own keys. */
  ghost predicate SameOtherKeys(s: map<string, string>, t: map<string, string>)
  {
    forall k :: k != TokenKey && k != UsernameKey ==> GetItem(s, k) == GetItem(t, k)
  }

  /**
   * The state at start-up: each field is read from storage on its own, so the
   * fields agree with storage, but nothing makes them paired (see
   * `HydrateMayBeUnpaired`).
   */
  function Hydrate(stored: map<string, string>): (st: SessionState)
    ensures st.storage == stored && st.Synced()
  {
    SessionState(GetItem(stored, TokenKey), GetItem(stored, UsernameKey), stored)
  }

  /** The state after `login(newToken, user)`: both fields written to memory and to storage. */
  function LoggedIn(st: SessionState, newToken: string, user: string): (r: SessionState)
    ensures r.token == Some(newToken) && r.username == Some(user)
    ensures TokenKey in r.storage && r.storage[TokenKey] == newToken
    ensures UsernameKey in r.storage && r.storage[UsernameKey] == user
    ensures r.Synced() && r.Paired()
    ensures r.Authenticated() <==> newToken != ""
    ensures SameOtherKeys(r.storage, st.storage)
  {
    SessionState(Some(newToken), Some(user), st.storage[TokenKey := newToken][UsernameKey := user])
  }

  /** The state after `logout()`: both fields null and both keys removed from storage. */
  function LoggedOut(st: SessionState): (r: SessionState)
    ensures r.token == None && r.username == None
    ensures TokenKey !in r.storage && UsernameKey !in r.storage
    ensures r.Synced() && r.Paired() && !r.Authenticated()
    ensures SameOtherKeys(r.storage, st.storage)
  {
    SessionState(None, None, st.storage - {TokenKey, UsernameKey})
  }

  /** Logging out twice leaves the same state as logging out once. */
  lemma LogoutIdempotent(st: SessionState)
    ensures LoggedOut(LoggedOut(st)) == LoggedOut(st)
  {
  }

  /** `login("", u)` writes the empty token to storage, yet leaves the session unauthenticated. */
  lemma EmptyTokenLoginIsLoggedOut(st: SessionState, user: string)
    ensures LoggedIn(st, "", user).storage[TokenKey] == ""
    ensures !LoggedIn(st, "", user).Authenticated()
  {
  }

  /** Storage determines the state exactly when memory agrees with it: reloading the page reproduces a synced state. */
  lemma HydrateRoundTrip(st: SessionState)
    ensures st.Synced() <==> Hydrate(st.storage) == st
  {
  }

  /** Start-up does not establish pairing: a storage holding a token but no username. */
  lemma HydrateMayBeUnpaired()
    ensures !Hydrate(map[TokenKey := "t"]).Paired()
  {
  }

  /** The two mutators, as a value, so that histories of calls can be stated. */
  datatype Op = LoginOp(newToken: string, user: string) | LogoutOp

  function Apply(st: SessionState, op: Op): (r: SessionState)
  {
    match op
    case LoginOp(t, u) => LoggedIn(st, t, u)
    case LogoutOp => LoggedOut(st)
  }

  /** The state after performing `ops` in order, starting from `st`. */
  function Run(st: SessionState, ops: seq<Op>): (r: SessionState)
    decreases |ops|
  {
    if ops == [] then st else Run(Apply(st, ops[0]), ops[1..])
  }

  /** Each mutator overwrites everything an earlier one wrote: only the later call is visible. */
  lemma ApplyAbsorbs(st: SessionState, a: Op, b: Op)
    ensures Apply(Apply(st, a), b) == Apply(st, b)
  {
  }

  /** After any non-empty history of calls, the state is what the last call alone makes of the start state. */
  lemma {:induction false} RunIsLastOp(st: SessionState, ops: seq<Op>)
    requires ops != []
    ensures Run(st, ops) == Apply(st, ops[|ops| - 1])
    decreases |ops|
  {
    if |ops| > 1 {
      RunIsLastOp(Apply(st, ops[0]), ops[1..]);
      ApplyAbsorbs(st, ops[0], ops[|ops| - 1]);
    }
  }

  /**
   * After any non-empty history of login and logout calls, memory agrees with
   * storage, the two fields are paired, the other storage keys are as they
   * were, and the session is authenticated exactly when the last call was a
   * login with a non-empty token.
   */
  lemma RunEstablishesInvariant(st: SessionState, ops: seq<Op>)
    requires ops != []
    ensures Run(st, ops).Synced() && Run(st, ops).Paired()
    ensures SameOtherKeys(Run(st, ops).storage, st.storage)
    ensures Run(st, ops).Authenticated() <==> ops[|ops| - 1].LoginOp? && ops[|ops| - 1].newToken != ""
  {
    RunIsLastOp(st, ops);
  }

  /** The store object: its reactive fields and the durable storage it writes through to. */
  class Session {
    var token: Option<string>
    var username: Option<string>
    var storage: map<string, string>
    /** How many times `Logout` has run, so that callers can state "exactly one logout". */
    ghost var logoutCalls: nat

    function State(): SessionState
      reads this
    {
      SessionState(token, username, storage)
    }

    /** Store creation: each field is hydrated from storage independently. */
    constructor (stored: map<string, string>)
      ensures State() == Hydrate(stored) && logoutCalls == 0
    {
      token := GetItem(stored, TokenKey);
      username := GetItem(stored, UsernameKey);
      storage := stored;
      logoutCalls := 0;
    }

    /** `isAuthenticated`: the token is present and not the empty string. */
    function IsAuthenticated(): (b: bool)
      reads this
      ensures b <==> token.Some? && token.value != ""
    {
      State().Authenticated()
    }

    /** `getToken()`: the in-memory token, with nothing changed (no modifies clause). */
    method GetToken() returns (t: Option<string>)
      ensures t == token
      ensures Truthy(t) <==> IsAuthenticated()
    {
      t := token;
    }

    method Login(newToken: string, user: string)
      modifies this
      ensures State() == LoggedIn(old(State()), newToken, user)
      ensures logoutCalls == old(logoutCalls)
    {
      token := Some(newToken);
      username := Some(user);
      storage := storage[TokenKey := newToken];
      storage := storage[UsernameKey := user];
    }

    method Logout()
      modifies this
      ensures State() == LoggedOut(old(State()))
      ensures logoutCalls == old(logoutCalls) + 1
    {
      token := None;
      username := None;
      storage := storage - {TokenKey};
      storage := storage - {UsernameKey};
      logoutCalls := logoutCalls + 1;
      assert storage == old(storage) - {TokenKey, UsernameKey};
    }
  }
}
