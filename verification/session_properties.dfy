/** What the session model promises over one run of `main` and over any
    sequence of runs: initialisation, login and logout, page gating, the
    metering of each page, and that the counter never goes negative. */
module SessionProperties {
  import opened Opt
  import opened Credentials
  import opened SessionModel

  function LoginRequest(username: string, password: string): Request
  {
    Request(false, AuthForm(LogInTab, username, password, true))
  }

  predicate LoggedIn(s: SessionState)
  {
    s.loggedIn == Some(true)
  }

  // ---- Initialisation ------------------------------------------------------

  /** Defaults are written only into a session without `logged_in`; a session
      that has the key is left as it is, so initialising twice is initialising
      once. */
  lemma InitOnlyFillsMissingKeys(s: SessionState)
    ensures s.loggedIn.None? ==>
              InitDefaults(s) == SessionState(Some(false), s.username, Some(0))
    ensures s.loggedIn.Some? ==> InitDefaults(s) == s
    ensures InitDefaults(InitDefaults(s)) == InitDefaults(s)
  {
  }

  /** The first run of a new browser session starts logged out with no uses:
      whatever the user does, it either logs in (and then holds exactly the
      grant) or ends logged out with a counter of 0. */
  lemma FirstRunOfFreshSession(users: UserTable, req: Request)
    ensures var r := Rerun(World(Fresh, users), req);
            if r.outcome == LoginSucceeded then
              r.world.session.loggedIn == Some(true) && r.world.session.remainingUses == Some(LoginGrant)
            else
              r.world.session == SessionState(Some(false), None, Some(0))
  {
  }

  // ---- Login and logout ----------------------------------------------------

  /** A login with credentials in the table sets the flag, the name and a
      counter of 10, whatever the counter was before. */
  lemma LoginGrantsTen(w: World, username: string, password: string)
    requires Consistent(w.session) && !LoggedIn(w.session)
    requires UserRow(username, password) in Rows(w.users)
    ensures Rerun(w, LoginRequest(username, password))
            == Next(World(SessionState(Some(true), Some(username), Some(10)), w.users), LoginSucceeded)
  {
  }

  /** A login whose credentials match no row changes no session field. */
  lemma LoginRejectedChangesNothing(w: World, username: string, password: string)
    requires Consistent(w.session) && !LoggedIn(w.session)
    requires UserRow(username, password) !in Rows(w.users)
    ensures Rerun(w, LoginRequest(username, password))
            == Next(w.(session := InitDefaults(w.session)), LoginFailed)
  {
  }

  /** The logout button resets all three keys, whatever page was picked. */
  lemma LogoutResets(w: World, a: Action)
    requires Consistent(w.session) && LoggedIn(w.session)
    ensures Rerun(w, Request(true, a))
            == Next(World(SessionState(Some(false), Some(""), Some(0)), w.users), LoggedOut)
  {
  }

  /** Logging out and back in gives the counter (and the flag) a fresh login
      gives; with valid credentials the whole session is the same. */
  lemma LogoutThenLoginIsFreshLogin(w: World, a: Action, username: string, password: string)
    requires Consistent(w.session) && LoggedIn(w.session)
    ensures var out := Rerun(w, Request(true, a)).world;
            var again := Rerun(out, LoginRequest(username, password)).world;
            var first := Rerun(World(Fresh, w.users), LoginRequest(username, password)).world;
            && again.session.loggedIn == first.session.loggedIn
            && again.session.remainingUses == first.session.remainingUses
            && (UserRow(username, password) in Rows(w.users) ==> again == first)
  {
  }

  // ---- Signup ----------------------------------------------------------------

  /** A signup run never touches the session, and adds the row exactly when
      the username was free; a taken username leaves the table as it was. */
  lemma SignupOnlyAddsNewUsers(w: World, username: string, password: string)
    requires Consistent(w.session) && !LoggedIn(w.session)
    ensures var r := Rerun(w, Request(false, AuthForm(SignUpTab, username, password, true)));
            && r.world.session == InitDefaults(w.session)
            && (username !in w.users ==>
                  r.outcome == SignedUp && Rows(r.world.users) == Rows(w.users) + {UserRow(username, password)})
            && (username in w.users ==> r.outcome == UsernameTaken && r.world.users == w.users)
  {
    if username in w.users {
      assert UserRow(username, w.users[username]) in Rows(w.users);
    }
  }

  // ---- Page gating -----------------------------------------------------------

  /** A logged-out session reaches only the login/signup page: no run of it
      meters, recharges or logs out. A logged-in one never reaches that page. */
  lemma PagesFollowLogin(w: World, req: Request)
    requires Consistent(w.session)
    ensures var r := Rerun(w, req);
            if LoggedIn(w.session) then
              r.outcome !in {LoginSucceeded, LoginFailed, SignedUp, UsernameTaken}
            else
              r.outcome in {Quiet, LoginSucceeded, LoginFailed, SignedUp, UsernameTaken}
  {
  }

  // ---- Metering ----------------------------------------------------------------

  /** The actions of the four metered pages. */
  predicate IsMetered(a: Action)
  {
    a.ImageUpload? || a.VideoPlay? || a.Llama2Prompt? || a.ChatGptPrompt?
  }

  /** With no uses left, each metered page shows the warning and changes nothing. */
  lemma ExhaustedPagesChangeNothing(w: World, a: Action)
    requires Consistent(w.session) && LoggedIn(w.session)
    requires IsMetered(a) && w.session.remainingUses.value <= 0
    ensures Rerun(w, Request(false, a)) == Next(w, OutOfCredit)
  {
  }

  /** The counter moves only in four ways: a login sets it to 10, a logout to
      0, a metered action takes exactly 1 from a positive counter, a recharge
      adds 10, 100 or 1000. Every other run leaves the session as initialised. */
  lemma CounterMovesOnlyThrough(w: World, req: Request)
    requires Consistent(w.session)
    ensures var s := InitDefaults(w.session);
            var r := Rerun(w, req);
            var after := r.world.session;
            match r.outcome
            case LoginSucceeded => after.remainingUses == Some(10)
            case LoggedOut => after.remainingUses == Some(0)
            case Charged =>
              && s.remainingUses.value > 0
              && after == s.(remainingUses := Some(s.remainingUses.value - 1))
              && r.world.users == w.users
            case Recharged(n) =>
              && (n == 10 || n == 100 || n == 1000)
              && after == s.(remainingUses := Some(s.remainingUses.value + n))
            case _ => after == s
  {
  }

  /** The scenario of a last use: play a video with one use left, then try
      again; the second try is refused and the counter stays at 0. */
  lemma LastUseThenRefused(w: World)
    requires Consistent(w.session) && LoggedIn(w.session) && w.session.remainingUses == Some(1)
    ensures var t := Run(w, [Request(false, VideoPlay(true)), Request(false, VideoPlay(true))]);
            t.outcomes == [Charged, OutOfCredit] && t.final.session.remainingUses == Some(0)
  {
    var first := Rerun(w, Request(false, VideoPlay(true)));
    assert first.world.session.remainingUses == Some(0);
    var second := Rerun(first.world, Request(false, VideoPlay(true)));
    assert second.outcome == OutOfCredit;
    assert [Request(false, VideoPlay(true)), Request(false, VideoPlay(true))][1..] == [Request(false, VideoPlay(true))];
  }

  // ---- The counter over a sequence of runs ---------------------------------------

  /** From a new session, the counter is never negative after any number of
      runs: the gate is checked before every debit and every debit is 1. */
  lemma NeverNegative(users: UserTable, reqs: seq<Request>, k: nat)
    requires k <= |reqs|
    ensures var s := Run(World(Fresh, users), reqs[..k]).final.session;
            s.remainingUses.Some? ==> s.remainingUses.value >= 0
  {
  }

  /** The counter, reading a missing key as 0. */
  function Uses(s: SessionState): int
  {
    if s.remainingUses.Some? then s.remainingUses.value else 0
  }

  /** Uses taken by the runs that produced `outs`. */
  function Spent(outs: seq<Outcome>): nat
  {
    if outs == [] then 0 else (if outs[0] == Charged then 1 else 0) + Spent(outs[1..])
  }

  /** Uses granted by the runs that produced `outs`: logins and recharges. */
  function Granted(outs: seq<Outcome>): nat
  {
    if outs == [] then 0
    else
      (match outs[0]
       case LoginSucceeded => 10
       case Recharged(n) => n
       case _ => 0) + Granted(outs[1..])
  }

  /** Neither a login nor a logout among `outs`: the counter is only metered
      and recharged. */
  predicate StaysLoggedIn(outs: seq<Outcome>)
  {
    forall i :: 0 <= i < |outs| ==> outs[i] != LoginSucceeded && outs[i] != LoggedOut
  }

  lemma StepAccounting(w: World, req: Request)
    requires Consistent(w.session) && NonNegative(w.session)
    ensures var r := Rerun(w, req);
            Spent([r.outcome]) + Uses(r.world.session) <= Uses(w.session) + Granted([r.outcome])
    ensures var r := Rerun(w, req);
            r.outcome != LoginSucceeded && r.outcome != LoggedOut ==>
              Spent([r.outcome]) + Uses(r.world.session) == Uses(w.session) + Granted([r.outcome])
  {
    CounterMovesOnlyThrough(w, req);
  }

  /** Over any sequence of runs, uses taken plus uses left never exceed uses
      held at the start plus uses granted: no action is ever served on credit
      that was not granted. */
  lemma {:induction false} SpentWithinGranted(w: World, reqs: seq<Request>)
    requires Consistent(w.session) && NonNegative(w.session)
    ensures var t := Run(w, reqs);
            Spent(t.outcomes) + Uses(t.final.session) <= Uses(w.session) + Granted(t.outcomes)
    decreases |reqs|
  {
    if reqs != [] {
      var n := Rerun(w, reqs[0]);
      StepAccounting(w, reqs[0]);
      SpentWithinGranted(n.world, reqs[1..]);
      var rest := Run(n.world, reqs[1..]);
      assert ([n.outcome] + rest.outcomes)[1..] == rest.outcomes;
    }
  }

  /** While nobody logs in or out, the counter is exactly the starting counter
      plus what was recharged minus what was taken. */
  lemma {:induction false} BalanceWhileLoggedIn(w: World, reqs: seq<Request>)
    requires Consistent(w.session) && NonNegative(w.session)
    requires StaysLoggedIn(Run(w, reqs).outcomes)
    ensures var t := Run(w, reqs);
            Uses(t.final.session) == Uses(w.session) + Granted(t.outcomes) - Spent(t.outcomes)
    decreases |reqs|
  {
    if reqs != [] {
      var n := Rerun(w, reqs[0]);
      var rest := Run(n.world, reqs[1..]);
      var outs := [n.outcome] + rest.outcomes;
      assert outs == Run(w, reqs).outcomes;
      assert outs[0] == n.outcome && outs[1..] == rest.outcomes;
      StepAccounting(w, reqs[0]);
      assert StaysLoggedIn(rest.outcomes) by {
        forall i | 0 <= i < |rest.outcomes|
          ensures rest.outcomes[i] != LoginSucceeded && rest.outcomes[i] != LoggedOut
        {
          assert rest.outcomes[i] == outs[i + 1];
        }
      }
      BalanceWhileLoggedIn(n.world, reqs[1..]);
    }
  }

  /** A new session never takes more uses than it was granted. */
  lemma FreshSessionSpendsOnlyGrants(users: UserTable, reqs: seq<Request>)
    ensures var t := Run(World(Fresh, users), reqs);
            Spent(t.outcomes) <= Granted(t.outcomes)
  {
    SpentWithinGranted(World(Fresh, users), reqs);
  }
}
