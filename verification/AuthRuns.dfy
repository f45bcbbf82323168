/** `AuthService` and `UsersService`, one whole call at a time, and what holds over runs of them. */
module AuthRuns {
  import opened Wrappers
  import opened Uuids
  import opened Accounts
  import Tenants

  /** The database, the clock in milliseconds, and every token issued so far. */
  datatype Auth = Auth(db: Database, now: nat, issued: seq<Token>)

  function Fresh(now: nat): Auth {
    Auth(Database(map[], map[]), now, [])
  }

  // ---------------------------------------------------------------- the calls

  /** The common end of `register`, `login` and `refresh`: new tokens, and the hash of the new refresh
      token in the user's one slot. */
  function Reissue(s: Auth, user: User): (Auth, Tokens) {
    var tokens := GenerateTokens(user, s.now);
    (s.(db := SaveUser(s.db, user.(refreshTokenHash := Some(Hash(tokens.refresh)))),
        issued := s.issued + [tokens.access, tokens.refresh]), tokens)
  }

  ghost function Register(s: Auth, data: Owner, tenantId: Uuid, userId: Uuid,
      secret: string): (Auth, Result<Tokens, AuthError>)
  {
    if FindByEmail(s.db.users, data.email).Some? then (s, Err(EmailTaken))
    else
      match CreateTenantWithOwner(s.db, data, tenantId, userId, secret)
      case Err(e) => (s, Err(e))
      case Ok(db) => var (s', tokens) := Reissue(s.(db := db), OwnerRow(data, tenantId, userId)); (s', Ok(tokens))
  }

  ghost function Login(s: Auth, email: string, password: string): (Auth, Result<Tokens, AuthError>) {
    match FindByEmail(s.db.users, email)
    case None => (s, Err(BadCredentials))
    case Some(u) =>
      var user := s.db.users[u];
      if user.passwordHash != Hash(password) then (s, Err(BadCredentials))
      else var (s', tokens) := Reissue(s, user); (s', Ok(tokens))
  }

  function Refresh(s: Auth, bearer: Bearer): (Auth, Result<Tokens, AuthError>) {
    match VerifyRefresh(bearer, s.now)
    case None => (s, Err(BadToken))
    case Some(token) =>
      if token.sub !in s.db.users || !HashMatches(s.db.users[token.sub], token) then (s, Err(BadToken))
      else var (s', tokens) := Reissue(s, s.db.users[token.sub]); (s', Ok(tokens))
  }

  function Logout(s: Auth, userId: Uuid): Auth {
    if userId in s.db.users then s.(db := SaveUser(s.db, s.db.users[userId].(refreshTokenHash := None))) else s
  }

  function AgentRow(tenantId: Uuid, userId: Uuid, email: string, password: string): User {
    User(userId, tenantId, email, Hash(password), Agent, None)
  }

  ghost function CreateUser(s: Auth, tenantId: Uuid, userId: Uuid, email: string,
      password: string): (Auth, Result<User, AuthError>)
  {
    if FindByEmail(s.db.users, email).Some? then (s, Err(EmailTaken))
    else
      match InsertUser(s.db, AgentRow(tenantId, userId, email, password))
      case Err(e) => (s, Err(e))
      case Ok(db) => (s.(db := db), Ok(AgentRow(tenantId, userId, email, password)))
  }

  datatype Op =
    | OpRegister(data: Owner, tenantId: Uuid, userId: Uuid, secret: string)
    | OpLogin(email: string, password: string)
    | OpRefresh(bearer: Bearer)
    | OpLogout(userId: Uuid)
    | OpCreateUser(tenantId: Uuid, userId: Uuid, email: string, password: string)
    | OpTick(now: nat)

  ghost function Step(s: Auth, op: Op): (s': Auth) {
    match op
    case OpRegister(data, t, u, secret) => Register(s, data, t, u, secret).0
    case OpLogin(email, password) => Login(s, email, password).0
    case OpRefresh(bearer) => Refresh(s, bearer).0
    case OpLogout(u) => Logout(s, u)
    case OpCreateUser(t, u, email, password) => CreateUser(s, t, u, email, password).0
    case OpTick(now) => s.(now := if s.now <= now then now else s.now)
  }

  ghost function Run(s: Auth, ops: seq<Op>): Auth
    decreases |ops|
  {
    if ops == [] then s else Run(Step(s, ops[0]), ops[1..])
  }

  // ---------------------------------------------------------------- what always holds

  /** The token's claims are those of its user's row. */
  predicate ClaimsMatch(users: Users, token: Token) {
    && token.sub in users
    && token.tenantId == users[token.sub].tenantId && token.role == users[token.sub].role
  }

  /** Issued by now, for 15 minutes or for 7 days. */
  predicate Dated(token: Token, now: nat) {
    && token.iat <= Seconds(now)
    && token.exp == token.iat + if token.key == AccessKey then ACCESS_SECONDS else REFRESH_SECONDS
  }

  /** The stored hash, if there is one, is that of a refresh token of the user. */
  predicate SlotOk(users: Users, u: Uuid, now: nat)
    requires u in users
  {
    users[u].refreshTokenHash.Some? ==>
      var token := users[u].refreshTokenHash.value.of;
      token.sub == u && token.key == RefreshKey && ClaimsMatch(users, token) && Dated(token, now)
  }

  ghost predicate Good(s: Auth) {
    && Sound(s.db)
    && (forall u :: u in s.db.users ==> SlotOk(s.db.users, u, s.now))
    && (forall i :: 0 <= i < |s.issued| ==> ClaimsMatch(s.db.users, s.issued[i]) && Dated(s.issued[i], s.now))
  }

  /** Users never go away and never change anything but their slot. */
  ghost predicate UsersKept(users: Users, users': Users) {
    forall u :: u in users ==> SameUser(users', users[u])
  }

  lemma ReissueGood(s: Auth, user: User)
    requires Good(s) && SameUser(s.db.users, user)
    ensures Good(Reissue(s, user).0) && UsersKept(s.db.users, Reissue(s, user).0.db.users)
  {
    hide Sound;
    var (s', tokens) := Reissue(s, user);
    SaveSound(s.db, user.(refreshTokenHash := Some(Hash(tokens.refresh))));
    forall i | 0 <= i < |s'.issued|
      ensures ClaimsMatch(s'.db.users, s'.issued[i]) && Dated(s'.issued[i], s'.now)
    {
      assert i < |s.issued| ==> s'.issued[i] == s.issued[i];
    }
  }

  lemma InsertedGood(s: Auth, db: Database, user: User)
    requires Good(s) && Sound(db) && user.id !in s.db.users && user.refreshTokenHash.None?
    requires db.users == s.db.users[user.id := user]
    ensures Good(s.(db := db)) && UsersKept(s.db.users, db.users)
  {
    hide Sound;
  }

  lemma OwnerGood(s: Auth, data: Owner, tenantId: Uuid, userId: Uuid, secret: string)
    requires Good(s) && CreateTenantWithOwner(s.db, data, tenantId, userId, secret).Ok?
    ensures var db := CreateTenantWithOwner(s.db, data, tenantId, userId, secret).value;
            && Good(s.(db := db)) && UsersKept(s.db.users, db.users) && SameUser(db.users, OwnerRow(data, tenantId, userId))
  {
    hide Sound;
    OwnerSound(s.db, data, tenantId, userId, secret);
    InsertedGood(s, CreateTenantWithOwner(s.db, data, tenantId, userId, secret).value, OwnerRow(data, tenantId, userId));
  }

  lemma KeptTwice(a: Users, b: Users, c: Users)
    requires UsersKept(a, b) && UsersKept(b, c)
    ensures UsersKept(a, c)
  {
    forall u | u in a ensures SameUser(c, a[u]) {
      assert SameUser(b, a[u]) && SameUser(c, b[u]);
    }
  }

  lemma LogoutGood(s: Auth, u: Uuid)
    requires Good(s)
    ensures Good(Logout(s, u)) && UsersKept(s.db.users, Logout(s, u).db.users)
  {
    hide Sound, Dated;
    if u in s.db.users {
      SaveSound(s.db, s.db.users[u].(refreshTokenHash := None));
    }
  }

  /** Every call keeps the tables sound and every token's claims true, and no user's row changes but
      for its slot. */
  lemma StepGood(s: Auth, op: Op)
    requires Good(s)
    ensures Good(Step(s, op)) && UsersKept(s.db.users, Step(s, op).db.users)
  {
    hide Sound, Good, FindByEmail, CreateTenantWithOwner, Reissue, SlotOk, ClaimsMatch;
    match op
    case OpRegister(data, t, u, secret) =>
      if CreateTenantWithOwner(s.db, data, t, u, secret).Ok? {
        var db := CreateTenantWithOwner(s.db, data, t, u, secret).value;
        OwnerGood(s, data, t, u, secret);
        ReissueGood(s.(db := db), OwnerRow(data, t, u));
        KeptTwice(s.db.users, db.users, Reissue(s.(db := db), OwnerRow(data, t, u)).0.db.users);
      }
    case OpLogin(email, password) =>
      if FindByEmail(s.db.users, email).Some? { ReissueGood(s, s.db.users[FindByEmail(s.db.users, email).value]); }
    case OpRefresh(bearer) =>
      var token := VerifyRefresh(bearer, s.now);
      if token.Some? && token.value.sub in s.db.users { ReissueGood(s, s.db.users[token.value.sub]); }
    case OpLogout(u) => LogoutGood(s, u);
    case OpCreateUser(t, u, email, password) => AgentGood(s, AgentRow(t, u, email, password));
    case OpTick(now) => TickGood(s, Step(s, op).now);
  }

  lemma AgentGood(s: Auth, user: User)
    requires Good(s) && user.role == Agent && user.refreshTokenHash.None?
    ensures InsertUser(s.db, user).Ok? ==>
              Good(s.(db := InsertUser(s.db, user).value)) && UsersKept(s.db.users, InsertUser(s.db, user).value.users)
  {
    hide Sound;
    if InsertUser(s.db, user).Ok? {
      AgentSound(s.db, user);
      InsertedGood(s, InsertUser(s.db, user).value, user);
    }
  }

  lemma TickGood(s: Auth, now: nat)
    requires Good(s) && s.now <= now
    ensures Good(s.(now := now))
  {
    hide Sound;
  }

  /** In every run: emails and slugs stay unique, every tenant has exactly one ADMIN, and the claims of
      every token ever issued are those of its user's row. */
  lemma {:induction false} RunGood(s: Auth, ops: seq<Op>)
    requires Good(s)
    ensures Good(Run(s, ops)) && UsersKept(s.db.users, Run(s, ops).db.users)
    decreases |ops|
  {
    hide Good, Step;
    if ops != [] {
      StepGood(s, ops[0]);
      RunGood(Step(s, ops[0]), ops[1..]);
      KeptTwice(s.db.users, Step(s, ops[0]).db.users, Run(s, ops).db.users);
    }
  }

  lemma FreshGood(now: nat)
    ensures Good(Fresh(now))
  {
  }

  /** ... from the empty database on. */
  lemma RunsStayGood(now: nat, ops: seq<Op>)
    ensures Good(Run(Fresh(now), ops))
  {
    hide Good, Run;
    FreshGood(now);
    RunGood(Fresh(now), ops);
  }

  // ---------------------------------------------------------------- rotation

  /** Refreshing invalidates the token it was given exactly if the token is from an earlier second: a
      token issued within the same second has the same content, and stays accepted. */
  lemma RotationInvalidatesIff(s: Auth, token: Token)
    requires Good(s) && Refresh(s, Signed(token)).1.Ok?
    ensures !Accepted(Refresh(s, Signed(token)).0.db, s.now, token) <==> token.iat < s.now / 1000
  {
    hide Sound;
    var user := s.db.users[token.sub];
    assert SlotOk(s.db.users, token.sub, s.now);
    var renewed := GenerateTokens(user, s.now).refresh;
    assert renewed == token <==> token.iat == Seconds(s.now);
  }

  /** So a rotation can leave the old token alive: a refresh in the second of the registration. */
  lemma RotationCanFail(data: Owner, secret: string)
    ensures var (s1, r1) := Register(Fresh(5000), data, 1, 2, secret);
            && r1.Ok?
            && var (s2, r2) := Refresh(s1, Signed(r1.value.refresh));
               r2.Ok? && Accepted(s2.db, s2.now, r1.value.refresh)
  {
    hide Tenants.Slug;
    var s := Fresh(5000);
    assert FindByEmail(s.db.users, data.email).None?;
    assert CreateTenantWithOwner(s.db, data, 1, 2, secret).Ok?;
    var (s1, r1) := Register(s, data, 1, 2, secret);
    assert s1.db.users == map[2 := OwnerRow(data, 1, 2).(refreshTokenHash := Some(Hash(r1.value.refresh)))];
  }

  /** The user's slot holds no token from before the given second. */
  ghost predicate NothingBefore(s: Auth, u: Uuid, second: int) {
    && second <= Seconds(s.now)
    && (u in s.db.users && s.db.users[u].refreshTokenHash.Some? ==>
          s.db.users[u].refreshTokenHash.value.of.iat >= second)
  }

  lemma ReissueNothingBefore(s: Auth, user: User, u: Uuid, second: int)
    requires NothingBefore(s, u, second)
    ensures NothingBefore(Reissue(s, user).0, u, second)
  {
  }

  lemma StepNothingBefore(s: Auth, op: Op, u: Uuid, second: int)
    requires NothingBefore(s, u, second)
    ensures NothingBefore(Step(s, op), u, second)
  {
    hide Reissue, FindByEmail;
    match op
    case OpRegister(data, t, v, secret) =>
      if CreateTenantWithOwner(s.db, data, t, v, secret).Ok? {
        ReissueNothingBefore(s.(db := CreateTenantWithOwner(s.db, data, t, v, secret).value), OwnerRow(data, t, v), u, second);
      }
    case OpLogin(email, password) =>
      if FindByEmail(s.db.users, email).Some? {
        ReissueNothingBefore(s, s.db.users[FindByEmail(s.db.users, email).value], u, second);
      }
    case OpRefresh(bearer) =>
      var token := VerifyRefresh(bearer, s.now);
      if token.Some? && token.value.sub in s.db.users { ReissueNothingBefore(s, s.db.users[token.value.sub], u, second); }
    case _ =>
  }

  lemma {:induction false} RunNothingBefore(s: Auth, ops: seq<Op>, u: Uuid, second: int)
    requires NothingBefore(s, u, second)
    ensures NothingBefore(Run(s, ops), u, second)
    decreases |ops|
  {
    hide Step, NothingBefore;
    if ops != [] {
      StepNothingBefore(s, ops[0], u, second);
      RunNothingBefore(Step(s, ops[0]), ops[1..], u, second);
    }
  }

  /** The tokens a call hands out. */
  ghost function HandedOut(s: Auth, op: Op): Option<Tokens> {
    match op
    case OpRegister(data, t, u, secret) => ToOption(Register(s, data, t, u, secret).1)
    case OpLogin(email, password) => ToOption(Login(s, email, password).1)
    case OpRefresh(bearer) => ToOption(Refresh(s, bearer).1)
    case _ => None
  }

  function ToOption<T>(r: Result<T, AuthError>): Option<T> {
    match r
    case Ok(value) => Some(value)
    case Err(_) => None
  }

  /** The newly issued refresh token is in its user's slot. */
  lemma HandedOutIsStored(s: Auth, op: Op)
    ensures var out := HandedOut(s, op);
            out.Some? ==>
              && out.value.refresh.iat == Seconds(s.now) == Seconds(Step(s, op).now)
              && out.value.refresh.sub in Step(s, op).db.users
              && HashMatches(Step(s, op).db.users[out.value.refresh.sub], out.value.refresh)
  {
    hide FindByEmail, CreateTenantWithOwner;
  }

  /** Once a user's tokens are reissued at a later second, none of the user's earlier refresh tokens is
      ever accepted again, whatever calls follow. */
  lemma OldTokensDie(s: Auth, op: Op, later: seq<Op>, token: Token)
    requires HandedOut(s, op).Some?
    requires token.sub == HandedOut(s, op).value.refresh.sub
    requires token.iat < HandedOut(s, op).value.refresh.iat
    ensures var s' := Run(Step(s, op), later); !Accepted(s'.db, s'.now, token)
  {
    hide Step, HandedOut;
    HandedOutIsStored(s, op);
    RunNothingBefore(Step(s, op), later, token.sub, Seconds(s.now));
  }

  // ---------------------------------------------------------------- logout

  /** The user's slot is empty. */
  ghost predicate SignedOut(s: Auth, u: Uuid) {
    u in s.db.users && s.db.users[u].refreshTokenHash.None?
  }

  /** The call is a login that succeeds, of this user. */
  ghost predicate LogsIn(s: Auth, op: Op, u: Uuid) {
    op.OpLogin? && HandedOut(s, op).Some? && HandedOut(s, op).value.refresh.sub == u
  }

  /** No call of the run logs the user in; failed attempts do not matter. */
  ghost predicate StaysOut(s: Auth, ops: seq<Op>, u: Uuid)
    decreases |ops|
  {
    ops != [] ==> !LogsIn(s, ops[0], u) && StaysOut(Step(s, ops[0]), ops[1..], u)
  }

  lemma ReissueOther(s: Auth, user: User, u: Uuid)
    requires SignedOut(s, u) && user.id != u
    ensures SignedOut(Reissue(s, user).0, u)
    ensures forall token :: token in Reissue(s, user).0.issued && token.sub == u ==> token in s.issued
  {
  }

  /** A call that is not a login of the user leaves the slot empty, and issues the user no token. */
  lemma StepSignedOut(s: Auth, op: Op, u: Uuid)
    requires SignedOut(s, u) && !LogsIn(s, op, u)
    ensures SignedOut(Step(s, op), u)
    ensures forall token :: token in Step(s, op).issued && token.sub == u ==> token in s.issued
  {
    hide Reissue;
    match op
    case OpRegister(data, t, v, secret) =>
      if CreateTenantWithOwner(s.db, data, t, v, secret).Ok? {
        ReissueOther(s.(db := CreateTenantWithOwner(s.db, data, t, v, secret).value), OwnerRow(data, t, v), u);
      }
    case OpLogin(e, password) => LoginOther(s, e, password, u);
    case OpRefresh(bearer) =>
      var token := VerifyRefresh(bearer, s.now);
      if token.Some? && token.value.sub in s.db.users && HashMatches(s.db.users[token.value.sub], token.value) {
        ReissueOther(s, s.db.users[token.value.sub], u);
      }
    case _ =>
  }

  lemma LoginOther(s: Auth, email: string, password: string, u: Uuid)
    requires SignedOut(s, u) && !LogsIn(s, OpLogin(email, password), u)
    ensures SignedOut(Login(s, email, password).0, u)
    ensures forall token :: token in Login(s, email, password).0.issued && token.sub == u ==> token in s.issued
  {
    var found := FindByEmail(s.db.users, email);
    if found.Some? && s.db.users[found.value].passwordHash == Hash(password) {
      assert GenerateTokens(s.db.users[found.value], s.now).refresh.sub == found.value;
      hide Reissue;
      ReissueOther(s, s.db.users[found.value], u);
    }
  }

  lemma {:induction false} RunSignedOut(s: Auth, ops: seq<Op>, u: Uuid)
    requires SignedOut(s, u) && StaysOut(s, ops, u)
    ensures SignedOut(Run(s, ops), u)
    ensures forall token :: token in Run(s, ops).issued && token.sub == u ==> token in s.issued
    decreases |ops|
  {
    hide Step, SignedOut, LogsIn;
    if ops != [] {
      StepSignedOut(s, ops[0], u);
      RunSignedOut(Step(s, ops[0]), ops[1..], u);
    }
  }

  /** After logout no refresh token of the user, old or new, is accepted until the user logs in again. */
  lemma LogoutEndsSession(s: Auth, u: Uuid, later: seq<Op>, token: Token)
    requires u in s.db.users && token.sub == u && StaysOut(Logout(s, u), later, u)
    ensures var s' := Run(Logout(s, u), later); !Accepted(s'.db, s'.now, token)
  {
    hide Step, LogsIn;
    RunSignedOut(Logout(s, u), later, u);
  }

  /** Access tokens are not looked up, so logout does not end them at once; but until the user logs in
      again none is issued, and all have expired 15 minutes after the logout. */
  lemma AccessEndsAfterLogout(s: Auth, u: Uuid, later: seq<Op>, token: Token)
    requires Good(s) && u in s.db.users && token.sub == u && token.key == AccessKey
    requires StaysOut(Logout(s, u), later, u)
    requires token in Run(Logout(s, u), later).issued
    ensures token.exp <= s.now / 1000 + 900
  {
    hide Step, LogsIn, Sound;
    RunSignedOut(Logout(s, u), later, u);
    assert token in Logout(s, u).issued;
  }
}
