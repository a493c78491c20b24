/** How the store, the pipeline and the routing decisions fit together over a
    run of events: store calls made by screens, and requests completing
    through the pipeline's response stages. */
module SessionFlow {
  import opened Js
  import opened AuthStore
  import opened Routing
  import opened Http

  /** Something that changes, or may change, the session. */
  datatype Event =
    | Store(action: Action)
    | RequestFailed(error: AxiosError)
    | RequestSucceeded(response: Response)

  function Step(s: AuthState, e: Event): AuthState {
    match e
    case Store(a) => AuthStore.Apply(s, a)
    case RequestFailed(err) => OnError(s, err).store
    case RequestSucceeded(_) => s
  }

  function Replay(s: AuthState, evs: seq<Event>): AuthState
    decreases |evs|
  {
    if |evs| == 0 then s else Replay(Step(s, evs[0]), evs[1..])
  }

  /** The store calls among `evs`, in order. */
  function StoreActions(evs: seq<Event>): seq<Action>
    decreases |evs|
  {
    if |evs| == 0 then []
    else ActionOf(evs[0]) + StoreActions(evs[1..])
  }

  function ActionOf(e: Event): seq<Action> {
    if e.Store? then [e.action] else []
  }

  lemma {:induction false} ReplayAppend(s: AuthState, xs: seq<Event>, ys: seq<Event>)
    ensures Replay(s, xs + ys) == Replay(Replay(s, xs), ys)
    decreases |xs|
  {
    if |xs| == 0 {
      assert xs + ys == ys;
    } else {
      assert (xs + ys)[1..] == xs[1..] + ys;
      ReplayAppend(Step(s, xs[0]), xs[1..], ys);
    }
  }

  lemma {:induction false} StoreActionsAppend(xs: seq<Event>, ys: seq<Event>)
    ensures StoreActions(xs + ys) == StoreActions(xs) + StoreActions(ys)
    decreases |xs|
  {
    if |xs| == 0 {
      assert xs + ys == ys;
    } else {
      assert (xs + ys)[0] == xs[0];
      assert (xs + ys)[1..] == xs[1..] + ys;
      StoreActionsAppend(xs[1..], ys);
      calc {
        StoreActions(xs + ys);
        ActionOf(xs[0]) + StoreActions(xs[1..] + ys);
        ActionOf(xs[0]) + (StoreActions(xs[1..]) + StoreActions(ys));
        (ActionOf(xs[0]) + StoreActions(xs[1..])) + StoreActions(ys);
      }
    }
  }

  /** Requests never touch the hydration flag: after any run of events it
      holds the value the last `setHydrated` call or delivered rehydration
      among the store calls set. */
  lemma {:induction false} HydrationOnlyFromStore(s: AuthState, evs: seq<Event>)
    ensures Replay(s, evs).isHydrated == LastHydration(StoreActions(evs), s.isHydrated)
    decreases |evs|
  {
    if |evs| > 0 {
      var front := evs[..|evs| - 1];
      var e := evs[|evs| - 1];
      assert evs == front + [e];
      ReplayAppend(s, front, [e]);
      StoreActionsAppend(front, [e]);
      assert [e][1..] == [];
      HydrationOnlyFromStore(s, front);
      if e.Store? {
        assert StoreActions(evs) == StoreActions(front) + [e.action];
        assert StoreActions(evs)[..|StoreActions(evs)| - 1] == StoreActions(front);
      } else {
        assert StoreActions(evs) == StoreActions(front);
      }
    }
  }

  /** No event of `evs` can give the session a token: none is a login and
      none is a delivered rehydration. */
  predicate NoSignIn(evs: seq<Event>) {
    forall i :: 0 <= i < |evs| && evs[i].Store? ==>
      !evs[i].action.CallSetCredentials? && !(evs[i].action.Rehydration? && evs[i].action.delivered.Some?)
  }

  lemma {:induction false} TokenStaysAbsent(s: AuthState, evs: seq<Event>)
    requires s.token.None?
    requires NoSignIn(evs)
    ensures Replay(s, evs).token.None?
    decreases |evs|
  {
    if |evs| > 0 {
      assert NoSignIn(evs[1..]) by {
        forall i | 0 <= i < |evs[1..]| && evs[1..][i].Store?
          ensures !evs[1..][i].action.CallSetCredentials?
          ensures !(evs[1..][i].action.Rehydration? && evs[1..][i].action.delivered.Some?)
        {
          assert evs[1..][i] == evs[i + 1];
        }
      }
      TokenStaysAbsent(Step(s, evs[0]), evs[1..]);
    }
  }

  /** A 401 ends the session until the next sign-in, whatever other
      requests complete in between: the token stays absent and, once
      hydrated, the gate sends every route outside `(auth)` to the login
      screen and the next request goes out without a token. */
  lemma {:induction false} UnauthorizedEndsSession(s: AuthState, before: seq<Event>, err: AxiosError,
                                                   after: seq<Event>, segments: seq<string>,
                                                   next: RequestConfig)
    requires StatusOf(err) == Some(Unauthorized)
    requires NoSignIn(after)
    requires CarriedToken(next).None?
    ensures Replay(s, before + [RequestFailed(err)] + after).token.None?
    ensures var t := Replay(s, before + [RequestFailed(err)] + after);
      t.isHydrated && !InAuth(segments) ==> AuthGate(t.isHydrated, t.token, segments) == Some(LoginPage)
    ensures var t := Replay(s, before + [RequestFailed(err)] + after);
      t.isHydrated ==> Index(t.isHydrated, t.token) == Some(LoginPage)
    ensures OnRequest(Replay(s, before + [RequestFailed(err)] + after), next) == next
  {
    var mid := Replay(s, before + [RequestFailed(err)]);
    ReplayAppend(s, before + [RequestFailed(err)], after);
    ReplayAppend(s, before, [RequestFailed(err)]);
    assert [RequestFailed(err)][1..] == [];
    assert mid.token.None?;
    TokenStaysAbsent(mid, after);
  }

  /** Signing in from the login screen: the session holds the new token,
      the gate sends the user home, and requests carry the token. */
  lemma SignInScenario(s: AuthState, user: User, next: RequestConfig)
    requires s.isHydrated
    ensures var t := SetCredentials(s, user, Some("abc"));
      && t.token == Some("abc")
      && AuthGate(t.isHydrated, t.token, Segments(LoginPage)) == Some(HomePage)
      && Index(t.isHydrated, t.token) == Some(HomePage)
      && CarriedToken(OnRequest(t, next)) == Some("abc")
  {
  }

  /** A request from the transactions screen is rejected with 401: the
      session ends and the gate moves the user to the login screen. */
  lemma TransactionsUnauthorizedScenario(s: AuthState, config: RequestConfig, transport: RequestConfig -> Reply)
    requires s.isHydrated
    requires forall c :: transport(c).Failed? && StatusOf(transport(c).error) == Some(Unauthorized)
    ensures var d := Dispatch(s, config, transport);
      && d.result.Rejected?
      && d.result.rejection.status == Some(401)
      && d.store.token.None?
      && AuthGate(d.store.isHydrated, d.store.token, ["(app)", "transactions"]) == Some(LoginPage)
  {
  }

  /** Before hydration no routing decision is made, whatever the session
      holds and wherever the user is. */
  lemma NoDecisionBeforeHydration(s: AuthState, evs: seq<Event>, segments: seq<string>)
    requires LastHydration(StoreActions(evs), s.isHydrated) == false
    ensures AuthGate(Replay(s, evs).isHydrated, Replay(s, evs).token, segments).None?
    ensures Index(Replay(s, evs).isHydrated, Replay(s, evs).token).None?
  {
    HydrationOnlyFromStore(s, evs);
  }
}
