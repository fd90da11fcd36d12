/**
 * The account and session handlers. The store holds the user collection and
 * the subscriptions collection; every handler is a method that either returns
 * a response value or fails with the status of the `ApiError` it throws.
 *
 * The session state of a user is the single `refreshToken` slot of its
 * document: login fills it, logout empties it, and a refresh accepts a token
 * only when it equals the slot and then overwrites the slot with a new token.
 */
module Sessions {
  import opened Wrappers
  import opened ApiErrors
  import opened Text
  import opened Accounts
  import opened Aggregation

  /** What `generateAccessAndRefreshToken` resolves to. */
  datatype TokenPair = TokenPair(accessToken: Token, refreshToken: Token)

  /** The body of a successful login. */
  datatype LoginResult = LoginResult(user: PublicUser, accessToken: Token, refreshToken: Token)

  /** The body of a successful refresh; `refreshToken` is absent when the handler does not send one. */
  datatype RefreshResult = RefreshResult(accessToken: Token, refreshToken: Option<Token>)

  /** A filled slot of user `id` holds a refresh token about `id`. */
  predicate SlotHoldsOwnToken(id: UserId, slot: Option<Token>) {
    slot.Some? ==> slot.value.kind == Refresh && slot.value.subject == id
  }

  /** What every handler keeps true of the collection. */
  ghost predicate Consistent(users: map<UserId, User>, nextId: nat) {
    && Bounded(users, nextId)
    && UniqueKeys(users)
    && (forall id :: id in users ==> Lower(users[id].username) == users[id].username)
    && (forall id :: id in users ==> SlotHoldsOwnToken(id, users[id].refreshToken))
  }

  /** Creating a document with a fresh id and untaken, lower-cased keys keeps the collection consistent. */
  lemma CreateKeepsConsistent(users: map<UserId, User>, nextId: nat, user: User)
    requires Consistent(users, nextId)
    requires !KeyTaken(users, user.username, user.email)
    requires Lower(user.username) == user.username && user.refreshToken == None
    ensures Consistent(users[nextId := user], nextId + 1)
  {
  }

  /** Rewriting one document without touching its username or email keeps the collection consistent. */
  lemma UpdateKeepsConsistent(users: map<UserId, User>, nextId: nat, id: UserId, user: User)
    requires Consistent(users, nextId) && id in users
    requires user.username == users[id].username
    requires user.email == users[id].email || !EmailTakenByOther(users, id, user.email)
    requires SlotHoldsOwnToken(id, user.refreshToken)
    ensures Consistent(users[id := user], nextId)
  {
  }

  /** `req.cookies.refreshToken || req.body.refreshToken`. */
  function Presented(cookie: Option<Token>, body: Option<Token>): Option<Token> {
    if cookie.Some? then cookie else body
  }

  /**
   * The checks `refreshAccessToken` makes before it issues new tokens: a token
   * is present, `jwt.verify` with the refresh secret accepts it (it was signed
   * as a refresh token and has not expired), the user in its payload exists,
   * and it is exactly the token stored in that user's slot. Every failure is a 401.
   */
  function RefreshGuard(users: map<UserId, User>, presented: Option<Token>, unexpired: bool): (r: Result<UserId>)
    ensures r.Err? ==> r.status == Unauthorized
    ensures r.Ok? <==>
      presented.Some? && unexpired && presented.value.kind == Refresh &&
      presented.value.subject in users && users[presented.value.subject].refreshToken == presented
    ensures r.Ok? ==> r.value == presented.value.subject
  {
    if presented.None? then Err(Unauthorized)
    else
      var t := presented.value;
      if !unexpired || t.kind != Refresh then Err(Unauthorized)
      else if t.subject !in users then Err(Unauthorized)
      else if users[t.subject].refreshToken != presented then Err(Unauthorized)
      else Ok(t.subject)
  }

  /**
   * Once a user's slot holds anything other than `t` (a newer token after a
   * rotation or login, or nothing after logout), `t` is refused with 401.
   */
  lemma ReplacedTokenRejected(users: map<UserId, User>, id: UserId, slot: Option<Token>, t: Token, unexpired: bool)
    requires id in users && t.subject == id && slot != Some(t)
    ensures RefreshGuard(users[id := users[id].(refreshToken := slot)], Some(t), unexpired) == Err(Unauthorized)
  {
  }

  /** Changing one user's slot does not change how tokens about other users are judged. */
  lemma OtherSessionsUnaffected(users: map<UserId, User>, id: UserId, slot: Option<Token>, t: Token, unexpired: bool)
    requires id in users && t.subject != id
    ensures RefreshGuard(users[id := users[id].(refreshToken := slot)], Some(t), unexpired) == RefreshGuard(users, Some(t), unexpired)
  {
  }

  /** The unique index would reject a new document with this username or email. */
  predicate KeyTaken(users: map<UserId, User>, username: string, email: string) {
    exists id :: id in users && (users[id].username == username || users[id].email == email)
  }

  /** The unique index would reject giving user `id` this email. */
  predicate EmailTakenByOther(users: map<UserId, User>, id: UserId, email: string) {
    exists other :: other in users && other != id && users[other].email == email
  }

  /** `[fullName, email, username, password].some(field => !field || field.trim() === "")`. */
  predicate AnyFieldMissing(fullName: Option<string>, email: Option<string>, username: Option<string>, password: Option<string>) {
    MissingField(fullName) || MissingField(email) || MissingField(username) || MissingField(password)
  }

  /** The document `User.create` stores for a registration that passed every check. */
  function NewUser(fullName: string, email: string, username: string, password: string, avatarUrl: string, coverUpload: Option<string>)
    : (u: User)
    ensures u.username == Lower(username) && u.email == email && u.fullName == fullName && u.avatar == avatarUrl
    ensures PasswordMatches(Some(password), u.password)
    ensures u.coverImage == "" <==> coverUpload.None? || coverUpload.value == ""
    ensures u.refreshToken == None && u.watchHistory == []
  {
    User(Lower(username), email, fullName, Hash(password), avatarUrl, coverUpload.GetOr(""), None, [])
  }

  class Store {
    /** The users collection, by `_id`. */
    var users: map<UserId, User>
    /** The subscriptions collection, in natural order; this core only reads it. */
    var subscriptions: seq<Subscription>
    /** The `_id` the next created document receives. */
    var nextId: nat
    /** The token signer's source of distinct tokens. */
    var nextSerial: nat
    /** Every token the signer has handed out. */
    ghost var issued: set<Token>
    /** Every `unlink` call on a staged upload path, in order. */
    ghost var unlinked: seq<Option<string>>

    ghost predicate Valid()
      reads this
    {
      && Consistent(users, nextId)
      && (forall t :: t in issued ==> t.serial < nextSerial)
      && (forall id :: id in users && users[id].refreshToken.Some? ==> users[id].refreshToken.value in issued)
    }

    constructor (subscriptions: seq<Subscription>)
      ensures Valid()
      ensures users == map[] && this.subscriptions == subscriptions && issued == {} && unlinked == []
    {
      users := map[];
      this.subscriptions := subscriptions;
      nextId := 0;
      nextSerial := 0;
      issued := {};
      unlinked := [];
    }

    /**
     * `generateAccessAndRefreshToken`: sign a refresh token and an access token
     * for the user and store the refresh token in its slot. A missing user makes
     * the body throw, which the catch turns into a 500.
     */
    method GenerateAccessAndRefreshToken(id: UserId) returns (r: Result<TokenPair>)
      requires Valid()
      modifies this
      ensures Valid()
      ensures subscriptions == old(subscriptions) && nextId == old(nextId) && unlinked == old(unlinked)
      ensures id !in old(users) ==> r == Err(ServerError) && users == old(users) && nextSerial == old(nextSerial) && issued == old(issued)
      ensures id in old(users) ==> r.Ok?
      ensures r.Ok? ==> r.value.refreshToken.kind == Refresh && r.value.refreshToken.subject == id
      ensures r.Ok? ==> r.value.accessToken.kind == Access && r.value.accessToken.subject == id
      ensures r.Ok? ==> r.value.refreshToken !in old(issued) && r.value.accessToken !in old(issued)
      ensures r.Ok? ==> issued == old(issued) + {r.value.refreshToken, r.value.accessToken}
      ensures r.Ok? ==> users == old(users)[id := old(users)[id].(refreshToken := Some(r.value.refreshToken))]
      ensures r.Ok? ==> nextSerial == old(nextSerial) + 2
    {
      if id !in users {
        return Err(ServerError);
      }
      var refreshToken := Token(Refresh, id, nextSerial);
      var accessToken := Token(Access, id, nextSerial + 1);
      nextSerial := nextSerial + 2;
      issued := issued + {refreshToken, accessToken};
      UpdateKeepsConsistent(users, nextId, id, users[id].(refreshToken := Some(refreshToken)));
      users := users[id := users[id].(refreshToken := Some(refreshToken))];
      r := Ok(TokenPair(accessToken, refreshToken));
    }

    /**
     * `registerUser`. `avatarUpload` and `coverUpload` are what the uploader
     * returned for the two staged files (the URL, or nothing when the upload
     * failed); for a cover that was not sent the uploader returns nothing.
     */
    method RegisterUser(
      avatarPath: Option<string>, coverPath: Option<string>,
      fullName: Option<string>, email: Option<string>, username: Option<string>, password: Option<string>,
      avatarUpload: Option<string>, coverUpload: Option<string>)
      returns (r: Result<PublicUser>)
      requires Valid()
      requires !Truthy(coverPath) ==> coverUpload.None?
      modifies this
      ensures Valid()
      ensures subscriptions == old(subscriptions) && nextSerial == old(nextSerial) && issued == old(issued)
      ensures r.Err? ==> users == old(users) && nextId == old(nextId)
      ensures !Truthy(avatarPath) ==> r == Err(BadRequest) && unlinked == old(unlinked)
      ensures Truthy(avatarPath) && AnyFieldMissing(fullName, email, username, password) ==>
        r == Err(BadRequest) && unlinked == old(unlinked) + [avatarPath, coverPath]
      ensures (Truthy(avatarPath) && !AnyFieldMissing(fullName, email, username, password) &&
               FindByUsernameOrEmail(old(users), old(nextId), username, email).Some?) ==>
        r == Err(Conflict) && unlinked == old(unlinked) + [avatarPath, coverPath]
      ensures (Truthy(avatarPath) && !AnyFieldMissing(fullName, email, username, password) &&
               FindByUsernameOrEmail(old(users), old(nextId), username, email).None?) ==>
        unlinked == old(unlinked) &&
        (avatarUpload.None? ==> r == Err(BadRequest)) &&
        (avatarUpload.Some? && KeyTaken(old(users), Lower(username.value), email.value) ==> r == Err(ServerError)) &&
        (avatarUpload.Some? && !KeyTaken(old(users), Lower(username.value), email.value) ==>
          && r.Ok? && r.value.id == old(nextId) && nextId == old(nextId) + 1
          && users == old(users)[r.value.id := NewUser(fullName.value, email.value, username.value, password.value, avatarUpload.value, coverUpload)]
          && r.value == Public(r.value.id, users[r.value.id]))
    {
      if !Truthy(avatarPath) {
        return Err(BadRequest);
      }
      if AnyFieldMissing(fullName, email, username, password) {
        unlinked := unlinked + [avatarPath, coverPath];
        return Err(BadRequest);
      }
      var existed := FindByUsernameOrEmail(users, nextId, username, email);
      if existed.Some? {
        unlinked := unlinked + [avatarPath, coverPath];
        return Err(Conflict);
      }
      if avatarUpload.None? {
        return Err(BadRequest);
      }
      if KeyTaken(users, Lower(username.value), email.value) {
        return Err(ServerError);
      }
      var id := nextId;
      var user := NewUser(fullName.value, email.value, username.value, password.value, avatarUpload.value, coverUpload);
      LowerIdempotent(username.value);
      CreateKeepsConsistent(users, nextId, user);
      users := users[id := user];
      nextId := nextId + 1;
      r := Ok(Public(id, user));
    }

    /**
     * `loginUser`: 403 without a username or email, 404 when no user matches
     * either, 401 on a wrong password; otherwise fresh tokens, the refresh token
     * stored in the user's slot, and the user without password or token.
     */
    method LoginUser(username: Option<string>, email: Option<string>, password: Option<string>) returns (r: Result<LoginResult>)
      requires Valid()
      modifies this
      ensures Valid()
      ensures subscriptions == old(subscriptions) && nextId == old(nextId) && unlinked == old(unlinked)
      ensures r.Err? ==> users == old(users) && nextSerial == old(nextSerial) && issued == old(issued)
      ensures !Truthy(username) && !Truthy(email) ==> r == Err(Forbidden)
      ensures (Truthy(username) || Truthy(email)) && FindByUsernameOrEmail(old(users), nextId, username, email).None? ==>
        r == Err(NotFound)
      ensures (Truthy(username) || Truthy(email)) && FindByUsernameOrEmail(old(users), nextId, username, email).Some? ==>
        var id := FindByUsernameOrEmail(old(users), nextId, username, email).value;
        && (!PasswordMatches(password, old(users)[id].password) ==> r == Err(Unauthorized))
        && (PasswordMatches(password, old(users)[id].password) ==>
          && r.Ok?
          && users == old(users)[id := old(users)[id].(refreshToken := Some(r.value.refreshToken))]
          && r.value.user == Public(id, users[id])
          && r.value.accessToken.kind == Access && r.value.accessToken.subject == id
          && RefreshGuard(users, Some(r.value.refreshToken), true) == Ok(id))
      ensures r.Ok? ==> r.value.refreshToken !in old(issued) && r.value.accessToken !in old(issued)
      ensures r.Ok? ==> issued == old(issued) + {r.value.refreshToken, r.value.accessToken}
    {
      if !(Truthy(username) || Truthy(email)) {
        return Err(Forbidden);
      }
      var found := FindByUsernameOrEmail(users, nextId, username, email);
      if found.None? {
        return Err(NotFound);
      }
      var id := found.value;
      if !PasswordMatches(password, users[id].password) {
        return Err(Unauthorized);
      }
      var tokens := GenerateAccessAndRefreshToken(id);
      match tokens {
        case Err(status) =>
          r := Err(status);
        case Ok(pair) =>
          var loggedUser := Public(id, users[id]);
          r := Ok(LoginResult(loggedUser, pair.accessToken, pair.refreshToken));
      }
    }

    /**
     * `logoutUser` for the authenticated user `id`: empty its slot. The update
     * matches nothing when the id is unknown, and the handler answers 200 either way.
     */
    method LogoutUser(id: UserId) returns (r: Result<()>)
      requires Valid()
      modifies this
      ensures Valid()
      ensures r == Ok(())
      ensures subscriptions == old(subscriptions) && nextId == old(nextId) && nextSerial == old(nextSerial)
      ensures issued == old(issued) && unlinked == old(unlinked)
      ensures users == if id in old(users) then old(users)[id := old(users)[id].(refreshToken := None)] else old(users)
      ensures forall t: Token, unexpired: bool :: t.subject == id ==> RefreshGuard(users, Some(t), unexpired) == Err(Unauthorized)
    {
      if id in users {
        UpdateKeepsConsistent(users, nextId, id, users[id].(refreshToken := None));
        users := users[id := users[id].(refreshToken := None)];
      }
      r := Ok(());
    }

    /**
     * `refreshAccessToken` as written: after the checks of `RefreshGuard` it
     * rotates the slot, but the response carries no refresh token, because the
     * handler reads a property the generator's result does not have.
     */
    method RefreshAccessToken(cookie: Option<Token>, body: Option<Token>, unexpired: bool) returns (r: Result<RefreshResult>)
      requires Valid()
      modifies this
      ensures Valid()
      ensures subscriptions == old(subscriptions) && nextId == old(nextId) && unlinked == old(unlinked)
      ensures RefreshGuard(old(users), Presented(cookie, body), unexpired).Err? ==>
        r == Err(Unauthorized) && users == old(users) && nextSerial == old(nextSerial) && issued == old(issued)
      ensures RefreshGuard(old(users), Presented(cookie, body), unexpired).Ok? ==>
        var id := Presented(cookie, body).value.subject;
        && r.Ok? && r.value.accessToken.kind == Access && r.value.accessToken.subject == id
        && r.value.refreshToken == None
        && id in users && users[id].refreshToken.Some?
        && users == old(users)[id := old(users)[id].(refreshToken := users[id].refreshToken)]
        && users[id].refreshToken.value !in old(issued) && r.value.accessToken !in old(issued)
        && issued == old(issued) + {users[id].refreshToken.value, r.value.accessToken}
      ensures r.Ok? ==> forall ok: bool :: RefreshGuard(users, Presented(cookie, body), ok) == Err(Unauthorized)
    {
      var guard := RefreshGuard(users, Presented(cookie, body), unexpired);
      if guard.Err? {
        return Err(Unauthorized);
      }
      var tokens := GenerateAccessAndRefreshToken(guard.value);
      match tokens {
        case Err(_) =>
          r := Err(Unauthorized);
        case Ok(pair) =>
          r := Ok(RefreshResult(pair.accessToken, None));
      }
    }

    /**
     * `refreshAccessToken` with the evidently intended response: the new
     * refresh token is returned, and it is the one now in the slot.
     */
    method RefreshAccessTokenCorrected(cookie: Option<Token>, body: Option<Token>, unexpired: bool) returns (r: Result<RefreshResult>)
      requires Valid()
      modifies this
      ensures Valid()
      ensures subscriptions == old(subscriptions) && nextId == old(nextId) && unlinked == old(unlinked)
      ensures RefreshGuard(old(users), Presented(cookie, body), unexpired).Err? ==>
        r == Err(Unauthorized) && users == old(users) && nextSerial == old(nextSerial) && issued == old(issued)
      ensures RefreshGuard(old(users), Presented(cookie, body), unexpired).Ok? ==>
        var id := Presented(cookie, body).value.subject;
        && r.Ok? && r.value.accessToken.kind == Access && r.value.accessToken.subject == id
        && r.value.refreshToken.Some?
        && users == old(users)[id := old(users)[id].(refreshToken := r.value.refreshToken)]
        && r.value.refreshToken.value !in old(issued) && r.value.accessToken !in old(issued)
        && issued == old(issued) + {r.value.refreshToken.value, r.value.accessToken}
        && RefreshGuard(users, r.value.refreshToken, true) == Ok(id)
      ensures r.Ok? ==> forall ok: bool :: RefreshGuard(users, Presented(cookie, body), ok) == Err(Unauthorized)
    {
      var guard := RefreshGuard(users, Presented(cookie, body), unexpired);
      if guard.Err? {
        return Err(Unauthorized);
      }
      var tokens := GenerateAccessAndRefreshToken(guard.value);
      match tokens {
        case Err(_) =>
          r := Err(Unauthorized);
        case Ok(pair) =>
          r := Ok(RefreshResult(pair.accessToken, Some(pair.refreshToken)));
      }
    }

    /**
     * `changeCurrentPassword` for the authenticated user `id`: 400 when the
     * current password is wrong, otherwise only the stored password changes.
     * An unknown id makes the handler throw on the missing document.
     */
    method ChangeCurrentPassword(id: UserId, currentPassword: Option<string>, newPassword: string) returns (r: Result<()>)
      requires Valid()
      modifies this
      ensures Valid()
      ensures subscriptions == old(subscriptions) && nextId == old(nextId) && nextSerial == old(nextSerial)
      ensures issued == old(issued) && unlinked == old(unlinked)
      ensures id !in old(users) ==> r == Err(ServerError) && users == old(users)
      ensures id in old(users) && !PasswordMatches(currentPassword, old(users)[id].password) ==>
        r == Err(BadRequest) && users == old(users)
      ensures id in old(users) && PasswordMatches(currentPassword, old(users)[id].password) ==>
        r == Ok(()) && users == old(users)[id := old(users)[id].(password := Hash(newPassword))]
      ensures r.Ok? ==> PasswordMatches(Some(newPassword), users[id].password)
    {
      if id !in users {
        return Err(ServerError);
      }
      if !PasswordMatches(currentPassword, users[id].password) {
        return Err(BadRequest);
      }
      UpdateKeepsConsistent(users, nextId, id, users[id].(password := Hash(newPassword)));
      users := users[id := users[id].(password := Hash(newPassword))];
      r := Ok(());
    }

    /**
     * `updateAccountEmail` for the authenticated user `id`: 400 without an
     * email; otherwise `$set` the email and answer with the updated user
     * (nothing when the id is unknown). The unique index refuses an email
     * another user has.
     */
    method UpdateAccountEmail(id: UserId, email: Option<string>) returns (r: Result<Option<PublicUser>>)
      requires Valid()
      modifies this
      ensures Valid()
      ensures subscriptions == old(subscriptions) && nextId == old(nextId) && nextSerial == old(nextSerial)
      ensures issued == old(issued) && unlinked == old(unlinked)
      ensures !Truthy(email) ==> r == Err(BadRequest) && users == old(users)
      ensures Truthy(email) && id !in old(users) ==> r == Ok(None) && users == old(users)
      ensures Truthy(email) && id in old(users) && EmailTakenByOther(old(users), id, email.value) ==>
        r == Err(ServerError) && users == old(users)
      ensures Truthy(email) && id in old(users) && !EmailTakenByOther(old(users), id, email.value) ==>
        users == old(users)[id := old(users)[id].(email := email.value)] && r == Ok(Some(Public(id, users[id])))
    {
      if !Truthy(email) {
        return Err(BadRequest);
      }
      if id !in users {
        return Ok(None);
      }
      if EmailTakenByOther(users, id, email.value) {
        return Err(ServerError);
      }
      UpdateKeepsConsistent(users, nextId, id, users[id].(email := email.value));
      users := users[id := users[id].(email := email.value)];
      r := Ok(Some(Public(id, users[id])));
    }

    /**
     * `updateAccountFullName` for the authenticated user `id`: 400 without a
     * name; otherwise `$set` the name and answer with the updated user
     * (nothing when the id is unknown).
     */
    method UpdateAccountFullName(id: UserId, fullName: Option<string>) returns (r: Result<Option<PublicUser>>)
      requires Valid()
      modifies this
      ensures Valid()
      ensures subscriptions == old(subscriptions) && nextId == old(nextId) && nextSerial == old(nextSerial)
      ensures issued == old(issued) && unlinked == old(unlinked)
      ensures !Truthy(fullName) ==> r == Err(BadRequest) && users == old(users)
      ensures Truthy(fullName) && id !in old(users) ==> r == Ok(None) && users == old(users)
      ensures Truthy(fullName) && id in old(users) ==>
        users == old(users)[id := old(users)[id].(fullName := fullName.value)] && r == Ok(Some(Public(id, users[id])))
    {
      if !Truthy(fullName) {
        return Err(BadRequest);
      }
      if id !in users {
        return Ok(None);
      }
      UpdateKeepsConsistent(users, nextId, id, users[id].(fullName := fullName.value));
      users := users[id := users[id].(fullName := fullName.value)];
      r := Ok(Some(Public(id, users[id])));
    }
  }
}
