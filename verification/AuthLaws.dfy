/** Who can log in, what the calls store and what the tokens they hand out say, in columns, claims and
    seconds. */
module AuthLaws {
  import opened Wrappers
  import opened Uuids
  import opened Accounts
  import opened AuthRuns
  import Tenants

  // ---------------------------------------------------------------- credentials

  /** Some user has that email and that password. */
  ghost predicate Credentials(users: Users, email: string, password: string) {
    exists u :: u in users && users[u].email == email && users[u].passwordHash.of == password
  }

  /** A login succeeds exactly with the email and the password of a user; any other is refused as bad
      credentials, whichever of the two is wrong, and changes nothing. */
  lemma LoginIff(s: Auth, email: string, password: string)
    requires Good(s)
    ensures var (s', r) := Login(s, email, password);
            && (r.Ok? <==> Credentials(s.db.users, email, password))
            && (r.Err? ==> r.error == BadCredentials && s' == s)
  {
    hide OneAdmin;
    if Credentials(s.db.users, email, password) {
      var u :| u in s.db.users && s.db.users[u].email == email && s.db.users[u].passwordHash.of == password;
      assert HasEmail(s.db.users, email, u);
      assert FindByEmail(s.db.users, email) == Some(u);
    }
  }

  /** The call registers a tenant, or creates a user, with that email and password, and succeeds. */
  ghost predicate Enrolls(s: Auth, op: Op, email: string, password: string) {
    match op
    case OpRegister(data, t, u, secret) =>
      data.email == email && data.passwordHash.of == password && Register(s, data, t, u, secret).1.Ok?
    case OpCreateUser(t, u, e, pw) => e == email && pw == password && CreateUser(s, t, u, e, pw).1.Ok?
    case _ => false
  }

  ghost predicate EverEnrolled(s: Auth, ops: seq<Op>, email: string, password: string)
    decreases |ops|
  {
    ops != [] && (Enrolls(s, ops[0], email, password) || EverEnrolled(Step(s, ops[0]), ops[1..], email, password))
  }

  lemma SaveCredentials(users: Users, user: User, email: string, password: string)
    requires SameUser(users, user)
    ensures Credentials(users[user.id := user], email, password) <==> Credentials(users, email, password)
  {
    var users' := users[user.id := user];
    assert forall u :: u in users ==> users'[u].email == users[u].email && users'[u].passwordHash == users[u].passwordHash;
    if Credentials(users, email, password) {
      var u :| u in users && users[u].email == email && users[u].passwordHash.of == password;
      assert u in users' && users'[u].email == email;
    }
  }

  lemma InsertCredentials(users: Users, user: User, email: string, password: string)
    requires user.id !in users
    ensures Credentials(users[user.id := user], email, password)
       <==> Credentials(users, email, password) || (user.email == email && user.passwordHash.of == password)
  {
    var users' := users[user.id := user];
    assert users'[user.id] == user;
    if Credentials(users, email, password) {
      var u :| u in users && users[u].email == email && users[u].passwordHash.of == password;
      assert u in users' && users'[u] == users[u];
    }
  }

  lemma ReissueCredentials(s: Auth, user: User, email: string, password: string)
    requires SameUser(s.db.users, user)
    ensures Credentials(Reissue(s, user).0.db.users, email, password) <==> Credentials(s.db.users, email, password)
  {
    hide Credentials;
    SaveCredentials(s.db.users, user.(refreshTokenHash := Some(Hash(GenerateTokens(user, s.now).refresh))), email, password);
  }

  lemma StepCredentials(s: Auth, op: Op, email: string, password: string)
    ensures Credentials(Step(s, op).db.users, email, password)
       <==> Credentials(s.db.users, email, password) || Enrolls(s, op, email, password)
  {
    hide Credentials, Reissue, CreateTenantWithOwner, FindByEmail;
    match op
    case OpRegister(data, t, u, secret) => RegisterCredentials(s, data, t, u, secret, email, password);
    case OpLogin(e, pw) =>
      if FindByEmail(s.db.users, e).Some? {
        ReissueCredentials(s, s.db.users[FindByEmail(s.db.users, e).value], email, password);
      }
    case OpRefresh(bearer) =>
      var token := VerifyRefresh(bearer, s.now);
      if token.Some? && token.value.sub in s.db.users {
        ReissueCredentials(s, s.db.users[token.value.sub], email, password);
      }
    case OpLogout(u) =>
      if u in s.db.users { SaveCredentials(s.db.users, s.db.users[u].(refreshTokenHash := None), email, password); }
    case OpCreateUser(t, u, e, pw) =>
      if u !in s.db.users { InsertCredentials(s.db.users, AgentRow(t, u, e, pw), email, password); }
    case OpTick(_) =>
  }

  lemma RegisterCredentials(s: Auth, data: Owner, t: Uuid, u: Uuid, secret: string, email: string, password: string)
    ensures Credentials(Register(s, data, t, u, secret).0.db.users, email, password)
       <==> || Credentials(s.db.users, email, password)
            || (data.email == email && data.passwordHash.of == password && Register(s, data, t, u, secret).1.Ok?)
  {
    hide Credentials, Reissue, FindByEmail, Tenants.Slug;
    if CreateTenantWithOwner(s.db, data, t, u, secret).Ok? {
      var owner := OwnerRow(data, t, u);
      InsertCredentials(s.db.users, owner, email, password);
      ReissueCredentials(s.(db := CreateTenantWithOwner(s.db, data, t, u, secret).value), owner, email, password);
    }
  }

  lemma {:induction false} RunCredentials(s: Auth, ops: seq<Op>, email: string, password: string)
    ensures Credentials(Run(s, ops).db.users, email, password)
       <==> Credentials(s.db.users, email, password) || EverEnrolled(s, ops, email, password)
    decreases |ops|
  {
    hide Credentials, Step, Enrolls;
    if ops != [] {
      StepCredentials(s, ops[0], email, password);
      RunCredentials(Step(s, ops[0]), ops[1..], email, password);
    }
  }

  /** After every serial run: an email and a password can log in if and only if a registration or a user
      creation with just these has succeeded. */
  lemma LoginIffEnrolled(now: nat, ops: seq<Op>, email: string, password: string)
    ensures Login(Run(Fresh(now), ops), email, password).1.Ok? <==> EverEnrolled(Fresh(now), ops, email, password)
  {
    hide Good, Run, Login;
    RunsStayGood(now, ops);
    LoginIff(Run(Fresh(now), ops), email, password);
    RunCredentials(Fresh(now), ops, email, password);
  }

  // ---------------------------------------------------------------- what the calls store

  /** `register` succeeds exactly if email, slug and ids are free; it stores the tenant, and its owner as
      an ADMIN with the caller's email and password hash. */
  lemma RegisterStores(s: Auth, data: Owner, t: Uuid, u: Uuid, secret: string)
    ensures var (s', r) := Register(s, data, t, u, secret);
            && (r.Ok? <==> && (forall v <- s.db.users :: s.db.users[v].email != data.email) && u !in s.db.users
                           && (forall v <- s.db.tenants :: s.db.tenants[v].slug != Tenants.Slug(data.tenantName))
                           && t !in s.db.tenants)
            && (r.Err? ==> s' == s)
            && (r.Ok? ==>
                  && u in s'.db.users && s'.db.users == s.db.users[u := s'.db.users[u]]
                  && t in s'.db.tenants && s'.db.tenants == s.db.tenants[t := s'.db.tenants[t]]
                  && var user, tenant := s'.db.users[u], s'.db.tenants[t];
                     && user.email == data.email && user.passwordHash == data.passwordHash
                     && user.tenantId == t && user.role == Admin
                     && user.refreshTokenHash == Some(Hash(r.value.refresh))
                     && tenant.name == data.tenantName && tenant.slug == Tenants.Slug(data.tenantName)
                     && tenant.webhookSecret == secret)
  {
    hide Tenants.Slug;
  }

  /** The creation of a user succeeds exactly if email and id are free and the tenant exists; it stores an
      AGENT with the caller's email and password, not signed in. */
  lemma CreateUserStores(s: Auth, t: Uuid, u: Uuid, email: string, password: string)
    ensures var (s', r) := CreateUser(s, t, u, email, password);
            && (r.Ok? <==> && (forall v <- s.db.users :: s.db.users[v].email != email) && u !in s.db.users
                           && t in s.db.tenants)
            && (r.Err? ==> s' == s)
            && (r.Ok? ==>
                  && s' == s.(db := s.db.(users := s.db.users[u := r.value]))
                  && r.value.id == u && r.value.tenantId == t && r.value.email == email
                  && r.value.passwordHash.of == password && r.value.role == Agent
                  && r.value.refreshTokenHash == None)
  {
  }

  // ---------------------------------------------------------------- what the tokens say

  /** A token is for that user: its claims are the columns of the user's row. */
  predicate TokenFor(token: Token, user: User, iat: int, seconds: int) {
    && token.sub == user.id && token.tenantId == user.tenantId && token.role == user.role
    && token.iat == iat && token.exp == iat + seconds
  }

  /** What is handed out is an access token of 900 seconds and a refresh token of 604800 seconds, both
      issued in the present second with the claims of the user's row, and the row has the hash of the
      refresh token and keeps its other columns. */
  lemma TokensSay(s: Auth, op: Op)
    requires HandedOut(s, op).Some?
    ensures var tokens, users' := HandedOut(s, op).value, Step(s, op).db.users;
            var u := tokens.refresh.sub;
            && u in users'
            && TokenFor(tokens.access, users'[u], s.now / 1000, 900) && tokens.access.key == AccessKey
            && TokenFor(tokens.refresh, users'[u], s.now / 1000, 604_800) && tokens.refresh.key == RefreshKey
            && users'[u].refreshTokenHash == Some(Hash(tokens.refresh))
            && (u in s.db.users ==> users' == s.db.users[u := s.db.users[u].(refreshTokenHash := Some(Hash(tokens.refresh)))])
  {
    hide FindByEmail, Tenants.Slug;
    match op
    case OpRegister(data, t, u, secret) =>
    case OpLogin(email, password) =>
    case OpRefresh(bearer) =>
    case OpLogout(_) =>
    case OpCreateUser(_, _, _, _) =>
    case OpTick(_) =>
  }

  /** `refresh` accepts exactly an unexpired refresh token that its user's row has the hash of. */
  lemma RefreshIff(s: Auth, bearer: Bearer)
    ensures var (s', r) := Refresh(s, bearer);
            && (r.Ok? <==> && bearer.Signed? && bearer.token.key == RefreshKey && s.now / 1000 < bearer.token.exp
                           && bearer.token.sub in s.db.users
                           && s.db.users[bearer.token.sub].refreshTokenHash == Some(Hash(bearer.token)))
            && (r.Err? ==> r.error == BadToken && s' == s)
            && (r.Ok? ==> r.value.refresh.sub == bearer.token.sub)
  {
  }
}
