/** The persisted session store: a record of the signed-in user, the bearer
    token and whether the persisted snapshot has been loaded, with its three
    transitions and the rehydration callback. Every transition is a pure
    function from the old record to the new one. */
module AuthStore {
  import opened Js

  datatype User = User(id: string, userName: string)

  /** `user` is `null` when absent, `token` is `undefined` when absent. */
  datatype AuthState = AuthState(user: Option<User>, token: Option<string>, isHydrated: bool)

  /** The state the store is created with, before any snapshot is loaded. */
  function Initial(): (s: AuthState)
    ensures s.user.None? && s.token.None?
    ensures !s.isHydrated
  {
    AuthState(None, None, false)
  }

  /** `setCredentials({user, token})`: an unconditional overwrite of both
      fields; an omitted token overwrites the old one with `undefined`. */
  function SetCredentials(s: AuthState, user: User, token: Option<string>): (r: AuthState)
    ensures r.user == Some(user) && r.token == token
    ensures r.isHydrated == s.isHydrated
  {
    s.(user := Some(user), token := token)
  }

  /** `logout()`: clears user and token, keeps the hydration flag. */
  function Logout(s: AuthState): (r: AuthState)
    ensures r.user.None? && r.token.None?
    ensures r.isHydrated == s.isHydrated
  {
    s.(user := None, token := None)
  }

  /** `setHydrated(b)`: changes the hydration flag only. */
  function SetHydrated(s: AuthState, b: bool): (r: AuthState)
    ensures r.isHydrated == b
    ensures r.user == s.user && r.token == s.token
  {
    s.(isHydrated := b)
  }

  /** The `onRehydrateStorage` callback. The storage layer hands it the
      state merged with the loaded snapshot, or nothing when loading failed;
      `state?.setHydrated(true)` marks only a delivered state hydrated. */
  function OnRehydrate(current: AuthState, delivered: Option<AuthState>): (r: AuthState)
    ensures delivered.Some? ==> r.isHydrated
    ensures delivered.Some? ==> r.user == delivered.value.user && r.token == delivered.value.token
    ensures delivered.None? ==> r == current
  {
    match delivered
    case None => current
    case Some(merged) => SetHydrated(merged, true)
  }

  // Algebraic laws of the transitions.

  /** Logging out twice is the same as logging out once. */
  lemma LogoutIdempotent(s: AuthState)
    ensures Logout(Logout(s)) == Logout(s)
  {
  }

  /** A logout undoes any earlier login completely. */
  lemma LogoutAfterSetCredentials(s: AuthState, user: User, token: Option<string>)
    ensures Logout(SetCredentials(s, user, token)) == Logout(s)
  {
  }

  /** `setCredentials` ignores the previous session: the last write wins. */
  lemma SetCredentialsOverwrites(s: AuthState, t: AuthState, user: User, token: Option<string>)
    requires s.isHydrated == t.isHydrated
    ensures SetCredentials(s, user, token) == SetCredentials(t, user, token)
  {
  }

  /** The hydration flag is independent of the session fields: setting it
      commutes with both session transitions. */
  lemma SetHydratedCommutes(s: AuthState, b: bool, user: User, token: Option<string>)
    ensures SetHydrated(Logout(s), b) == Logout(SetHydrated(s, b))
    ensures SetHydrated(SetCredentials(s, user, token), b) == SetCredentials(SetHydrated(s, b), user, token)
  {
  }

  /** The store does not keep user and token together: a login without a
      token leaves a user with no token. */
  lemma UserWithoutToken(user: User)
    ensures var s := SetCredentials(Initial(), user, None); s.user.Some? && s.token.None?
  {
  }

  // Runs of store actions.

  /** A call into the store. */
  datatype Action =
    | CallSetCredentials(user: User, token: Option<string>)
    | CallLogout
    | CallSetHydrated(hydrated: bool)
    | Rehydration(delivered: Option<AuthState>)

  function Apply(s: AuthState, a: Action): AuthState {
    match a
    case CallSetCredentials(u, t) => SetCredentials(s, u, t)
    case CallLogout => Logout(s)
    case CallSetHydrated(b) => SetHydrated(s, b)
    case Rehydration(d) => OnRehydrate(s, d)
  }

  /** The state after applying `acts` in order, starting from `s`. */
  function Run(s: AuthState, acts: seq<Action>): AuthState
    decreases |acts|
  {
    if |acts| == 0 then s else Run(Apply(s, acts[0]), acts[1..])
  }

  /** Reference definition of the hydration flag after `acts`: the value set
      by the last `setHydrated` call or delivered rehydration, or `init` when
      there is none. */
  function LastHydration(acts: seq<Action>, init: bool): bool
    decreases |acts|
  {
    if |acts| == 0 then init
    else
      match acts[|acts| - 1]
      case CallSetHydrated(b) => b
      case Rehydration(Some(_)) => true
      case _ => LastHydration(acts[..|acts| - 1], init)
  }

  lemma {:induction false} RunSnoc(s: AuthState, acts: seq<Action>, a: Action)
    ensures Run(s, acts + [a]) == Apply(Run(s, acts), a)
    decreases |acts|
  {
    if |acts| == 0 {
      assert acts + [a] == [a];
    } else {
      assert (acts + [a])[1..] == acts[1..] + [a];
      RunSnoc(Apply(s, acts[0]), acts[1..], a);
    }
  }

  /** Only `setHydrated` and a delivered rehydration change the hydration
      flag; it holds the value the last of them set. */
  lemma {:induction false} HydrationIsLastSet(s: AuthState, acts: seq<Action>)
    ensures Run(s, acts).isHydrated == LastHydration(acts, s.isHydrated)
    decreases |acts|
  {
    if |acts| > 0 {
      var front := acts[..|acts| - 1];
      var a := acts[|acts| - 1];
      assert acts == front + [a];
      RunSnoc(s, front, a);
      HydrationIsLastSet(s, front);
    }
  }

  /** A token is never held without a user: `setCredentials` always sets a
      user, and `logout` clears both. */
  predicate TokenHasUser(s: AuthState) {
    s.token.Some? ==> s.user.Some?
  }

  /** Every merged state handed to the rehydration callback keeps a token
      only together with a user. The merge overlays the loaded snapshot on
      the current state, so this is an assumption about what was loaded, not
      a consequence of the store's own transitions. */
  predicate WellFormedRehydrations(acts: seq<Action>) {
    forall i :: 0 <= i < |acts| && acts[i].Rehydration? && acts[i].delivered.Some? ==>
      TokenHasUser(acts[i].delivered.value)
  }

  lemma {:induction false} TokenHasUserInvariant(s: AuthState, acts: seq<Action>)
    requires TokenHasUser(s)
    requires WellFormedRehydrations(acts)
    ensures TokenHasUser(Run(s, acts))
    decreases |acts|
  {
    if |acts| > 0 {
      assert WellFormedRehydrations(acts[1..]) by {
        forall i | 0 <= i < |acts[1..]| && acts[1..][i].Rehydration? && acts[1..][i].delivered.Some?
          ensures TokenHasUser(acts[1..][i].delivered.value)
        {
          assert acts[1..][i] == acts[i + 1];
        }
      }
      TokenHasUserInvariant(Apply(s, acts[0]), acts[1..]);
    }
  }
}
