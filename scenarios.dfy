/**
 * Request sequences against one store, showing what a client can rely on from
 * the handlers' contracts alone: a refresh token is honoured once, a logout or
 * a newer login ends the session it belonged to, and what a refresh response
 * lets the client do next.
 */
module Scenarios {
  import opened Wrappers
  import opened ApiErrors
  import opened Text
  import opened Accounts
  import opened Sessions

  /** Re-presenting a refresh token after it has been used once is refused. */
  method ReplayAfterRotation(s: Store, t: Token) returns (first: Result<RefreshResult>, replay: Result<RefreshResult>)
    requires s.Valid() && RefreshGuard(s.users, Some(t), true).Ok?
    modifies s
    ensures s.Valid()
    ensures first.Ok? && replay == Err(Unauthorized)
  {
    first := s.RefreshAccessToken(Some(t), None, true);
    replay := s.RefreshAccessToken(None, Some(t), true);
  }

  /** After logout no token of that user is accepted. */
  method RefreshAfterLogout(s: Store, id: UserId, t: Token) returns (out: Result<()>, refreshed: Result<RefreshResult>)
    requires s.Valid() && t.subject == id
    modifies s
    ensures s.Valid()
    ensures out.Ok? && refreshed == Err(Unauthorized)
  {
    out := s.LogoutUser(id);
    refreshed := s.RefreshAccessToken(Some(t), None, true);
  }

  /** A second login overwrites the slot, so the first login's refresh token is refused. */
  method SecondLoginEndsFirstSession(s: Store, username: string, password: string)
    returns (first: Result<LoginResult>, second: Result<LoginResult>, refreshed: Result<RefreshResult>)
    requires s.Valid()
    modifies s
    ensures s.Valid()
    ensures first.Ok? ==> second.Ok? && refreshed == Err(Unauthorized)
  {
    ghost var before := s.users;
    first := s.LoginUser(Some(username), None, Some(password));
    if first.Ok? {
      var id := first.value.user.id;
      FindIgnoresOtherFields(before, id, s.users[id], s.nextId, Some(username), None);
    }
    second := s.LoginUser(Some(username), None, Some(password));
    if first.Ok? {
      refreshed := s.RefreshAccessToken(Some(first.value.refreshToken), None, true);
    } else {
      refreshed := Err(Unauthorized);
    }
  }

  /**
   * A user who registered can log in with the lower-cased username and the
   * same password, and the login answers with the registered user.
   */
  method RegisterThenLogin(s: Store, avatarPath: string, avatarUrl: string, fullName: string, email: string, username: string, password: string)
    returns (registered: Result<PublicUser>, login: Result<LoginResult>)
    requires s.Valid()
    modifies s
    ensures s.Valid()
    ensures registered.Ok? ==> login.Ok? && login.value.user.id == registered.value.id && login.value.user.username == Lower(username)
  {
    registered := s.RegisterUser(Some(avatarPath), None, Some(fullName), Some(email), Some(username), Some(password), Some(avatarUrl), None);
    if registered.Ok? {
      login := s.LoginUser(Some(Lower(username)), None, Some(password));
    } else {
      login := Err(NotFound);
    }
  }

  /** A token from login is accepted by refresh until it is used. */
  method LoginThenRefresh(s: Store, username: string, password: string)
    returns (login: Result<LoginResult>, refreshed: Result<RefreshResult>)
    requires s.Valid()
    modifies s
    ensures s.Valid()
    ensures login.Ok? ==> refreshed.Ok? && refreshed.value.accessToken.subject == login.value.user.id
  {
    login := s.LoginUser(Some(username), None, Some(password));
    if login.Ok? {
      refreshed := s.RefreshAccessToken(Some(login.value.refreshToken), None, true);
    } else {
      refreshed := Err(Unauthorized);
    }
  }

  /**
   * As written, a refresh answers with no refresh token, so a client that
   * presents what it was given next is refused, although the store did rotate.
   */
  method RefreshChainAsWritten(s: Store, t: Token) returns (first: Result<RefreshResult>, second: Result<RefreshResult>)
    requires s.Valid() && RefreshGuard(s.users, Some(t), true).Ok?
    modifies s
    ensures s.Valid()
    ensures first.Ok? && first.value.refreshToken == None
    ensures second == Err(Unauthorized)
  {
    first := s.RefreshAccessToken(Some(t), None, true);
    second := s.RefreshAccessToken(first.value.refreshToken, None, true);
  }

  /**
   * With the corrected response, the token returned by one refresh is accepted
   * by the next, and the original token stays refused.
   */
  method RefreshChainCorrected(s: Store, t: Token)
    returns (first: Result<RefreshResult>, second: Result<RefreshResult>, replay: Result<RefreshResult>)
    requires s.Valid() && RefreshGuard(s.users, Some(t), true).Ok?
    modifies s
    ensures s.Valid()
    ensures first.Ok? && second.Ok? && replay == Err(Unauthorized)
  {
    first := s.RefreshAccessTokenCorrected(Some(t), None, true);
    second := s.RefreshAccessTokenCorrected(first.value.refreshToken, None, true);
    replay := s.RefreshAccessTokenCorrected(Some(t), None, true);
  }
}
