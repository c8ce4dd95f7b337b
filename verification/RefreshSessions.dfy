/**
 * Refresh sessions: login, refresh and logout over the session table, each request taken as one step. The
 * user that a login name denotes and the verdict on the password are part of a request. Tokens are fresh.
 */
module RefreshSessions {
  import opened Prelude

  datatype Session = Session(userId: nat, ip: string, createdAt: int, expiresIn: int)

  /** sessions: the rows by refresh token. */
  datatype State = State(sessions: map<nat, Session>, nextToken: nat, now: int)

  datatype Config = Config(maxSessions: int, expiresIn: int)

  datatype Request =
    | Login(user: Option<nat>, passwordFits: bool, ip: string)
    | Refresh(token: nat, ip: string)
    | Logout(token: nat, ip: string)
    | Wait(time: nat)

  datatype Response = Issued(userId: nat, token: nat) | Denied(message: string) | NotFound | Expired | Done

  ghost function OfUser(sessions: map<nat, Session>, userId: nat): (tokens: set<nat>)
    ensures forall t :: t in tokens <==> t in sessions && sessions[t].userId == userId
  {
    set t | t in sessions && sessions[t].userId == userId
  }

  ghost predicate HasIp(sessions: map<nat, Session>, userId: nat, ip: string) {
    exists t :: t in sessions && sessions[t].userId == userId && sessions[t].ip == ip
  }

  // The program

  class RefreshSessionDao {
    var sessions: map<nat, Session>

    constructor ()
      ensures sessions == map[]
    {
      sessions := map[];
    }

    method FindByIp(userId: nat, ip: string) returns (found: bool)
      ensures found <==> HasIp(sessions, userId, ip)
    {
      found := exists t :: t in sessions && sessions[t].userId == userId && sessions[t].ip == ip;
    }

    method FindByUser(userId: nat) returns (tokens: set<nat>)
      ensures tokens == OfUser(sessions, userId)
    {
      tokens := set t | t in sessions && sessions[t].userId == userId;
    }

    method DeleteByUser(userId: nat)
      modifies this
      ensures sessions == old(sessions) - OfUser(old(sessions), userId)
    {
      sessions := map t | t in sessions && sessions[t].userId != userId :: sessions[t];
    }

    method DeleteByTokenAndGet(token: nat) returns (session: Option<Session>)
      modifies this
      ensures sessions == old(sessions) - {token}
      ensures session == if token in old(sessions) then Some(old(sessions)[token]) else None
    {
      session := None;
      if token in sessions {
        session := Some(sessions[token]);
        sessions := sessions - {token};
      }
    }

    method Add(token: nat, session: Session)
      modifies this
      ensures sessions == old(sessions)[token := session]
    {
      sessions := sessions[token := session];
    }
  }

  class AuthenticationService {
    const config: Config
    const dao: RefreshSessionDao
    var nextToken: nat
    var now: int

    constructor (config: Config)
      ensures this.config == config && fresh(dao) && View() == START
    {
      this.config := config;
      dao := new RefreshSessionDao();
      nextToken, now := 0, 0;
    }

    ghost function View(): State
      reads this, dao
    {
      State(dao.sessions, nextToken, now)
    }

    method Login(user: Option<nat>, passwordFits: bool, ip: string) returns (response: Response)
      modifies this, dao
      ensures (View(), response) == Step(config, old(View()), Request.Login(user, passwordFits, ip))
    {
      if user.None? {
        return Denied("Incorrect login");
      }
      var loggedIn := dao.FindByIp(user.value, ip);
      if loggedIn {
        return Denied("Already logged in");
      }
      if !passwordFits {
        return Denied("Incorrect password");
      }
      response := AddRefreshSession(user.value, ip);
    }

    method RefreshTokens(token: nat, ip: string) returns (response: Response)
      modifies this, dao
      ensures (View(), response) == Step(config, old(View()), Refresh(token, ip))
    {
      var session := dao.DeleteByTokenAndGet(token);
      if session.None? || session.value.ip != ip {
        return NotFound;
      }
      if session.value.createdAt + session.value.expiresIn < now {
        return Expired;
      }
      response := AddRefreshSession(session.value.userId, ip);
    }

    method Logout(token: nat, ip: string) returns (response: Response)
      modifies this, dao
      ensures (View(), response) == Step(config, old(View()), Request.Logout(token, ip))
    {
      var session := dao.DeleteByTokenAndGet(token);
      response := if session.None? || session.value.ip != ip then NotFound else Done;
    }

    method AddRefreshSession(userId: nat, ip: string) returns (response: Response)
      modifies this, dao
      ensures (View(), response) == Added(config, old(View()), userId, ip)
    {
      var token := nextToken;
      nextToken := nextToken + 1;
      var sessions := dao.FindByUser(userId);
      if |sessions| >= config.maxSessions {
        dao.DeleteByUser(userId);
      }
      dao.Add(token, Session(userId, ip, now, config.expiresIn));
      response := Issued(userId, token);
    }
  }

  // The steps

  const START: State := State(map[], 0, 0)

  ghost function Added(config: Config, s: State, userId: nat, ip: string): (State, Response) {
    var mine := OfUser(s.sessions, userId);
    var kept := if |mine| >= config.maxSessions then s.sessions - mine else s.sessions;
    (State(kept[s.nextToken := Session(userId, ip, s.now, config.expiresIn)], s.nextToken + 1, s.now),
     Issued(userId, s.nextToken))
  }

  ghost function Step(config: Config, s: State, request: Request): (State, Response) {
    match request
    case Login(user, passwordFits, ip) =>
      if user.None? then (s, Denied("Incorrect login"))
      else if HasIp(s.sessions, user.value, ip) then (s, Denied("Already logged in"))
      else if !passwordFits then (s, Denied("Incorrect password"))
      else Added(config, s, user.value, ip)
    case Refresh(token, ip) =>
      var rest := s.(sessions := s.sessions - {token});
      if token !in s.sessions || s.sessions[token].ip != ip then (rest, NotFound)
      else if s.sessions[token].createdAt + s.sessions[token].expiresIn < s.now then (rest, Expired)
      else Added(config, rest, s.sessions[token].userId, ip)
    case Logout(token, ip) =>
      (s.(sessions := s.sessions - {token}),
       if token !in s.sessions || s.sessions[token].ip != ip then NotFound else Done)
    case Wait(time) => (s.(now := s.now + time), Done)
  }

  ghost function After(config: Config, requests: seq<Request>): State {
    if requests == [] then START
    else Step(config, After(config, requests[..|requests| - 1]), requests[|requests| - 1]).0
  }

  /** The response to request i of a run. */
  ghost function ResponseTo(config: Config, requests: seq<Request>, i: nat): Response
    requires i < |requests|
  {
    Step(config, After(config, requests[..i]), requests[i]).1
  }

  // What every run keeps

  ghost predicate Capped(config: Config, s: State) {
    forall u :: |OfUser(s.sessions, u)| <= Max(1, config.maxSessions)
  }

  ghost predicate OnePerIp(s: State) {
    forall t, r :: t in s.sessions && r in s.sessions && t != r && s.sessions[t].userId == s.sessions[r].userId
      ==> s.sessions[t].ip != s.sessions[r].ip
  }

  ghost predicate Inv(config: Config, s: State) {
    && Capped(config, s)
    && OnePerIp(s)
    && (forall t :: t in s.sessions ==> t < s.nextToken && s.sessions[t].createdAt <= s.now
                                        && s.sessions[t].expiresIn == config.expiresIn)
  }

  lemma RemovingKeepsInv(config: Config, s: State, r: State)
    requires Inv(config, s) && r.nextToken >= s.nextToken && r.now >= s.now
    requires forall t :: t in r.sessions ==> t in s.sessions && r.sessions[t] == s.sessions[t]
    ensures Inv(config, r)
  {
    forall u ensures |OfUser(r.sessions, u)| <= Max(1, config.maxSessions) {
      SubsetSize(OfUser(r.sessions, u), OfUser(s.sessions, u));
    }
  }

  /** The sessions of every user after one is added. */
  lemma AddedSessions(config: Config, s: State, userId: nat, ip: string, u: nat)
    requires forall t :: t in s.sessions ==> t < s.nextToken
    ensures var mine, r := OfUser(s.sessions, userId), Added(config, s, userId, ip).0;
            OfUser(r.sessions, u) ==
              if u != userId then OfUser(s.sessions, u)
              else if |mine| >= config.maxSessions then {s.nextToken}
              else mine + {s.nextToken}
  {
  }

  lemma AddedKeepsInv(config: Config, s: State, userId: nat, ip: string)
    requires Inv(config, s) && !HasIp(s.sessions, userId, ip)
    ensures Inv(config, Added(config, s, userId, ip).0)
  {
    var r := Added(config, s, userId, ip).0;
    forall u ensures |OfUser(r.sessions, u)| <= Max(1, config.maxSessions) {
      AddedSessions(config, s, userId, ip, u);
    }
  }

  lemma StepKeepsInv(config: Config, s: State, request: Request)
    requires Inv(config, s)
    ensures Inv(config, Step(config, s, request).0)
  {
    match request
    case Login(user, passwordFits, ip) =>
      if user.Some? && !HasIp(s.sessions, user.value, ip) {
        AddedKeepsInv(config, s, user.value, ip);
      }
    case Refresh(token, ip) =>
      var rest := s.(sessions := s.sessions - {token});
      RemovingKeepsInv(config, s, rest);
      if token in s.sessions && s.sessions[token].ip == ip {
        assert !HasIp(rest.sessions, s.sessions[token].userId, ip);
        AddedKeepsInv(config, rest, s.sessions[token].userId, ip);
      }
    case Logout(token, ip) =>
      RemovingKeepsInv(config, s, s.(sessions := s.sessions - {token}));
    case Wait(time) =>
      RemovingKeepsInv(config, s, s.(now := s.now + time));
  }

  /** In every run a user has at most maxSessions sessions (or one), and at most one for an address. */
  lemma {:induction false} InvAlways(config: Config, requests: seq<Request>)
    ensures Inv(config, After(config, requests))
  {
    if requests == [] {
      assert forall u :: OfUser(START.sessions, u) == {};
    } else {
      var n := |requests| - 1;
      InvAlways(config, requests[..n]);
      StepKeepsInv(config, After(config, requests[..n]), requests[n]);
    }
  }

  // Tokens

  ghost predicate Presents(request: Request, token: nat) {
    (request.Refresh? || request.Logout?) && request.token == token
  }

  ghost predicate LogsIn(config: Config, s: State, request: Request, userId: nat) {
    request.Login? && Step(config, s, request).1 == Issued(userId, s.nextToken)
  }

  /**
   * A session is there after a step if and only if the step issued its token, or it was there, was not
   * presented, and its user did not log in at the cap.
   */
  lemma {:induction false} AliveIff(config: Config, s: State, request: Request, t: nat)
    requires Inv(config, s)
    ensures var (r, response) := Step(config, s, request);
            t in r.sessions <==>
            || (response.Issued? && response.token == t)
            || (t in s.sessions && !Presents(request, t)
                && !(LogsIn(config, s, request, s.sessions[t].userId)
                     && |OfUser(s.sessions, s.sessions[t].userId)| >= config.maxSessions))
    ensures var r := Step(config, s, request).0; t in r.sessions && t in s.sessions ==> r.sessions[t] == s.sessions[t]
  {
    if request.Refresh? && Step(config, s, request).1.Issued? {
      RefreshIsNotCapped(config, s, request.token);
    }
  }

  /** The old row is gone before the cap test, so a refresh never finds the user at the cap with others. */
  lemma {:induction false} RefreshIsNotCapped(config: Config, s: State, token: nat)
    requires Inv(config, s) && token in s.sessions
    ensures var rest, u := s.sessions - {token}, s.sessions[token].userId;
            |OfUser(rest, u)| >= config.maxSessions ==> OfUser(rest, u) == {}
  {
    var u := s.sessions[token].userId;
    var rest := OfUser(s.sessions - {token}, u);
    assert OfUser(s.sessions, u) == rest + {token};
    assert token !in rest;
    assert |rest| + 1 == |OfUser(s.sessions, u)|;
  }

  /** A successful refresh replaces the one session and keeps all others, of this user and of everyone. */
  lemma {:induction false} RefreshKeepsTheOthers(config: Config, s: State, token: nat, ip: string)
    requires Inv(config, s)
    ensures var (r, response) := Step(config, s, Refresh(token, ip));
            response.Issued? ==>
              && token in s.sessions && response.userId == s.sessions[token].userId
              && r.sessions == (s.sessions - {token})[s.nextToken :=
                                 Session(s.sessions[token].userId, ip, s.now, config.expiresIn)]
  {
    if token in s.sessions {
      RefreshIsNotCapped(config, s, token);
    }
  }

  /** A login below the cap adds a session; at the cap it leaves that session alone to the user. */
  lemma {:induction false} LoginAtTheCap(config: Config, s: State, userId: nat, passwordFits: bool, ip: string, u: nat)
    requires Inv(config, s)
    ensures var (r, response) := Step(config, s, Login(Some(userId), passwordFits, ip));
            && (response.Issued? <==> passwordFits && !HasIp(s.sessions, userId, ip))
            && (response.Issued? ==>
                  OfUser(r.sessions, u) ==
                    if u != userId then OfUser(s.sessions, u)
                    else if |OfUser(s.sessions, u)| >= config.maxSessions then {s.nextToken}
                    else OfUser(s.sessions, u) + {s.nextToken})
            && (!response.Issued? ==> r == s)
  {
    AddedSessions(config, s, userId, ip, u);
  }

  /** A presented token is no longer in the table, whether it was accepted or not, and never returns. */
  lemma {:induction false} PresentedTokenIsGone(config: Config, requests: seq<Request>, i: nat, token: nat)
    requires i < |requests| && Presents(requests[i], token)
    requires token < After(config, requests[..i]).nextToken
    ensures token !in After(config, requests).sessions && token < After(config, requests).nextToken
  {
    var n := |requests| - 1;
    InvAlways(config, requests[..n]);
    AliveIff(config, After(config, requests[..n]), requests[n], token);
    if i < n {
      assert requests[..n][..i] == requests[..i];
      PresentedTokenIsGone(config, requests[..n], i, token);
    }
  }

  ghost predicate Accepts(config: Config, requests: seq<Request>, i: nat, token: nat)
    requires i < |requests|
  {
    && Presents(requests[i], token)
    && (ResponseTo(config, requests, i).Issued? || ResponseTo(config, requests, i).Done?)
  }

  /** Every refresh token is accepted at most once in a run, by refresh and logout together. */
  lemma {:induction false} AcceptedAtMostOnce(config: Config, requests: seq<Request>, i: nat, k: nat, token: nat)
    requires i < k < |requests|
    ensures !(Accepts(config, requests, i, token) && Accepts(config, requests, k, token))
  {
    if Accepts(config, requests, i, token) && Accepts(config, requests, k, token) {
      InvAlways(config, requests[..i]);
      assert token in After(config, requests[..i]).sessions;
      assert requests[..k][..i] == requests[..i];
      PresentedTokenIsGone(config, requests[..k], i, token);
    }
  }

  /** What it takes to be accepted: an untouched session, its address, and a date that has not passed. */
  lemma {:induction false} RefreshAcceptedIff(config: Config, requests: seq<Request>, token: nat, ip: string)
    ensures var s := After(config, requests);
            ResponseTo(config, requests + [Refresh(token, ip)], |requests|).Issued? <==>
            token in s.sessions && s.sessions[token].ip == ip && s.now - s.sessions[token].createdAt <= config.expiresIn
  {
    InvAlways(config, requests);
    assert (requests + [Refresh(token, ip)])[..|requests|] == requests;
  }

  /** In every run: a logout is granted for a session of its own address alone, and takes the row either way. */
  lemma {:induction false} LogoutGrantedIff(config: Config, requests: seq<Request>, token: nat, ip: string)
    ensures var s := After(config, requests); var all := requests + [Request.Logout(token, ip)];
            && ResponseTo(config, all, |requests|) ==
               (if token in s.sessions && s.sessions[token].ip == ip then Done else NotFound)
            && After(config, all) == s.(sessions := s.sessions - {token})
  {
    assert (requests + [Request.Logout(token, ip)])[..|requests|] == requests;
  }

  /** In every run: what a refresh answers. A session of another address is lost without being told apart. */
  lemma {:induction false} RefreshAnswers(config: Config, requests: seq<Request>, token: nat, ip: string)
    ensures var s := After(config, requests); var all := requests + [Refresh(token, ip)];
            && ResponseTo(config, all, |requests|) ==
               (if token !in s.sessions || s.sessions[token].ip != ip then NotFound
                else if s.now - s.sessions[token].createdAt > config.expiresIn then Expired
                else Issued(s.sessions[token].userId, s.nextToken))
            && (!ResponseTo(config, all, |requests|).Issued? ==>
                  After(config, all) == s.(sessions := s.sessions - {token}))
  {
    InvAlways(config, requests);
    assert (requests + [Refresh(token, ip)])[..|requests|] == requests;
  }

  /** In every run: what a login answers. That the user is logged in is told before the password is looked at. */
  lemma {:induction false} LoginAnswers(config: Config, requests: seq<Request>, user: Option<nat>, fits: bool,
                                        ip: string)
    ensures var s := After(config, requests); var all := requests + [Request.Login(user, fits, ip)];
            && ResponseTo(config, all, |requests|) ==
               (if user.None? then Denied("Incorrect login")
                else if exists t :: t in s.sessions && s.sessions[t].userId == user.value && s.sessions[t].ip == ip
                then Denied("Already logged in")
                else if !fits then Denied("Incorrect password")
                else Issued(user.value, s.nextToken))
            && (ResponseTo(config, all, |requests|).Denied? ==> After(config, all) == s)
  {
    assert (requests + [Request.Login(user, fits, ip)])[..|requests|] == requests;
    assert user.Some? ==>
        (HasIp(After(config, requests).sessions, user.value, ip) <==>
         exists t :: t in After(config, requests).sessions && After(config, requests).sessions[t].userId == user.value
                     && After(config, requests).sessions[t].ip == ip);
  }

  /** Only waiting lets time pass, and it does nothing else. Every issued token is a new one. */
  lemma {:induction false} ClockAndTokens(config: Config, s: State, request: Request)
    ensures var (r, response) := Step(config, s, request);
            && r.now == (if request.Wait? then s.now + request.time else s.now)
            && (request.Wait? ==> r.sessions == s.sessions)
            && r.nextToken == (if response.Issued? then s.nextToken + 1 else s.nextToken)
            && (response.Issued? ==> response.token == s.nextToken)
  {
  }

  /** A session row is what its issuing request made it: user, address and time of issue. */
  lemma {:induction false} SessionHasIssuer(config: Config, requests: seq<Request>, token: nat) returns (i: nat)
    requires token in After(config, requests).sessions
    ensures i < |requests|
    ensures var session := After(config, requests).sessions[token];
            && ResponseTo(config, requests, i) == Issued(session.userId, token)
            && session.createdAt == After(config, requests[..i]).now
            && (requests[i].Login? || requests[i].Refresh?) && requests[i].ip == session.ip
            && forall k :: i < k < |requests| ==> !Presents(requests[k], token)
  {
    var n := |requests| - 1;
    var s := After(config, requests[..n]);
    InvAlways(config, requests[..n]);
    AliveIff(config, s, requests[n], token);
    if token in s.sessions {
      i := SessionHasIssuer(config, requests[..n], token);
      assert requests[..n][..i] == requests[..i];
    } else {
      i := n;
    }
  }
}
