/** Tenants and users: their tables, and the three writes the application makes to them. */
module Accounts {
  import opened Wrappers
  import opened Uuids
  import Tenants

  datatype Role = Admin | Agent

  datatype SigningKey = AccessKey | RefreshKey

  /** What a signed token says; times are in seconds.  Nothing else goes into a token, so two tokens
      with the same content are the same text. */
  datatype Token = Token(sub: Uuid, tenantId: Uuid, role: Role, iat: int, exp: int, key: SigningKey)

  /** What a client presents: a text the application has signed, or anything else. */
  datatype Bearer = Signed(token: Token) | Unsigned(text: string)

  /** An argon2 hash: it verifies exactly the value it was made of. */
  datatype Hash<+T> = Hash(of: T)

  datatype User = User(
    id: Uuid,
    tenantId: Uuid,
    email: string,
    passwordHash: Hash<string>,
    role: Role,
    refreshTokenHash: Option<Hash<Token>>)

  datatype TenantRow = TenantRow(id: Uuid, name: string, slug: string, webhookSecret: string)

  type Users = u: map<Uuid, User> | forall id <- u :: u[id].id == id witness map[]

  type TenantTable = t: map<Uuid, TenantRow> | forall id <- t :: t[id].id == id witness map[]

  datatype Database = Database(tenants: TenantTable, users: Users)

  datatype AuthError = EmailTaken | BadCredentials | BadToken | DatabaseError

  // ---------------------------------------------------------------- reads

  predicate HasEmail(users: Users, email: string, id: Uuid) {
    id in users && users[id].email == email
  }

  /** `findByEmail` */
  ghost function FindByEmail(users: Users, email: string): (r: Option<Uuid>)
    ensures match r
            case Some(id) => HasEmail(users, email, id)
            case None => forall id :: !HasEmail(users, email, id)
  {
    if exists id :: HasEmail(users, email, id) then
      var id :| HasEmail(users, email, id);
      Some(id)
    else None
  }

  // ---------------------------------------------------------------- writes

  /** The unique columns: slug, and email. */
  predicate SlugFree(tenants: TenantTable, slug: string) {
    forall id <- tenants :: tenants[id].slug != slug
  }

  predicate EmailFree(users: Users, email: string) {
    forall id <- users :: users[id].email != email
  }

  /** `save` of a new tenant, its slug filled in by `generateDefaults`. */
  function InsertTenant(db: Database, id: Uuid, name: string, secret: string): Result<Database, AuthError> {
    var slug := Tenants.Slug(name);
    if id in db.tenants || !SlugFree(db.tenants, slug) then Err(DatabaseError)
    else Ok(db.(tenants := db.tenants[id := TenantRow(id, name, slug, secret)]))
  }

  /** `save` of a new user, subject to the unique email and the foreign key to the tenant. */
  function InsertUser(db: Database, user: User): Result<Database, AuthError> {
    if user.id in db.users || !EmailFree(db.users, user.email) || user.tenantId !in db.tenants then Err(DatabaseError)
    else Ok(db.(users := db.users[user.id := user]))
  }

  datatype Owner = Owner(tenantName: string, email: string, passwordHash: Hash<string>)

  function OwnerRow(data: Owner, tenantId: Uuid, userId: Uuid): User {
    User(userId, tenantId, data.email, data.passwordHash, Admin, None)
  }

  /** `createTenantWithOwner`: both inserts or neither. */
  function CreateTenantWithOwner(db: Database, data: Owner, tenantId: Uuid, userId: Uuid,
      secret: string): Result<Database, AuthError>
  {
    match InsertTenant(db, tenantId, data.tenantName, secret)
    case Err(e) => Err(e)
    case Ok(db') => InsertUser(db', OwnerRow(data, tenantId, userId))
  }

  /** `save` of a loaded user: overwrites the row. */
  function SaveUser(db: Database, user: User): Database {
    db.(users := db.users[user.id := user])
  }

  // ---------------------------------------------------------------- what the tables satisfy

  predicate IsAdminOf(users: Users, tenantId: Uuid, u: Uuid) {
    u in users && users[u].tenantId == tenantId && users[u].role == Admin
  }

  ghost predicate OneAdmin(users: Users, tenantId: Uuid) {
    && (exists u :: IsAdminOf(users, tenantId, u))
    && (forall u, v :: IsAdminOf(users, tenantId, u) && IsAdminOf(users, tenantId, v) ==> u == v)
  }

  /** Emails and slugs are unique, every user has a tenant, and every tenant exactly one ADMIN. */
  ghost predicate Sound(db: Database) {
    && (forall a, b :: a in db.users && b in db.users && a != b ==> db.users[a].email != db.users[b].email)
    && (forall a, b :: a in db.tenants && b in db.tenants && a != b ==> db.tenants[a].slug != db.tenants[b].slug)
    && (forall u :: u in db.users ==> db.users[u].tenantId in db.tenants)
    && (forall t :: t in db.tenants ==> OneAdmin(db.users, t))
  }

  /** The stored user of that id has the same claims and credentials. */
  predicate SameUser(users: Users, user: User) {
    user.id in users && users[user.id] == user.(refreshTokenHash := users[user.id].refreshTokenHash)
  }

  lemma AdminsKept(users: Users, users': Users, tenantId: Uuid)
    requires OneAdmin(users, tenantId)
    requires forall u :: IsAdminOf(users, tenantId, u) <==> IsAdminOf(users', tenantId, u)
    ensures OneAdmin(users', tenantId)
  {
  }

  lemma SaveAdmins(users: Users, user: User, t: Uuid)
    requires SameUser(users, user)
    ensures forall u :: IsAdminOf(users, t, u) <==> IsAdminOf(users[user.id := user], t, u)
  {
  }

  lemma AgentAdmins(users: Users, user: User, t: Uuid)
    requires user.id !in users && user.role == Agent
    ensures forall u :: IsAdminOf(users, t, u) <==> IsAdminOf(users[user.id := user], t, u)
  {
  }

  lemma SaveSound(db: Database, user: User)
    requires Sound(db) && SameUser(db.users, user)
    ensures Sound(SaveUser(db, user))
  {
    hide OneAdmin;
    var users' := SaveUser(db, user).users;
    forall t | t in db.tenants
      ensures OneAdmin(users', t)
    {
      SaveAdmins(db.users, user, t);
      AdminsKept(db.users, users', t);
    }
  }

  lemma AgentSound(db: Database, user: User)
    requires Sound(db) && user.role == Agent && InsertUser(db, user).Ok?
    ensures Sound(InsertUser(db, user).value)
  {
    hide OneAdmin;
    var users' := InsertUser(db, user).value.users;
    forall t | t in db.tenants
      ensures OneAdmin(users', t)
    {
      AgentAdmins(db.users, user, t);
      AdminsKept(db.users, users', t);
    }
  }

  lemma OwnerIsAdmin(users: Users, owner: User)
    requires owner.role == Admin && owner.id !in users
    requires forall u :: u in users ==> users[u].tenantId != owner.tenantId
    ensures OneAdmin(users[owner.id := owner], owner.tenantId)
  {
    assert IsAdminOf(users[owner.id := owner], owner.tenantId, owner.id);
  }

  lemma OthersAdmins(users: Users, owner: User, t: Uuid)
    requires owner.id !in users && t != owner.tenantId && OneAdmin(users, t)
    ensures OneAdmin(users[owner.id := owner], t)
  {
    forall u ensures IsAdminOf(users, t, u) <==> IsAdminOf(users[owner.id := owner], t, u) {
    }
    AdminsKept(users, users[owner.id := owner], t);
  }

  /** A tenant and its owner come together, so the tables stay sound; neither is there on failure. */
  lemma OwnerSound(db: Database, data: Owner, tenantId: Uuid, userId: Uuid, secret: string)
    requires Sound(db) && CreateTenantWithOwner(db, data, tenantId, userId, secret).Ok?
    ensures Sound(CreateTenantWithOwner(db, data, tenantId, userId, secret).value)
  {
    hide Tenants.Slug, OneAdmin;
    var db' := CreateTenantWithOwner(db, data, tenantId, userId, secret).value;
    var owner := OwnerRow(data, tenantId, userId);
    assert db'.users == db.users[userId := owner];
    forall t | t in db'.tenants
      ensures OneAdmin(db'.users, t)
    {
      if t == tenantId { OwnerIsAdmin(db.users, owner); } else { OthersAdmins(db.users, owner, t); }
    }
  }

  // ---------------------------------------------------------------- tokens

  const ACCESS_SECONDS: int := 15 * 60

  const REFRESH_SECONDS: int := 7 * 24 * 60 * 60

  /** The clock is in milliseconds, token times in whole seconds. */
  function Seconds(now: nat): nat {
    now / 1000
  }

  datatype Tokens = Tokens(access: Token, refresh: Token)

  /** `generateTokens` */
  function GenerateTokens(user: User, now: nat): Tokens {
    var iat := Seconds(now);
    Tokens(Token(user.id, user.tenantId, user.role, iat, iat + ACCESS_SECONDS, AccessKey),
           Token(user.id, user.tenantId, user.role, iat, iat + REFRESH_SECONDS, RefreshKey))
  }

  /** `jwtService.verify` with the refresh secret. */
  function VerifyRefresh(bearer: Bearer, now: nat): Option<Token> {
    match bearer
    case Signed(token) => if token.key == RefreshKey && Seconds(now) < token.exp then Some(token) else None
    case Unsigned(_) => None
  }

  /** The user's stored hash is that of the token. */
  predicate HashMatches(user: User, token: Token) {
    user.refreshTokenHash == Some(Hash(token))
  }

  /** Whether `refresh` would accept the token now. */
  predicate Accepted(db: Database, now: nat, token: Token) {
    VerifyRefresh(Signed(token), now).Some? && token.sub in db.users && HashMatches(db.users[token.sub], token)
  }
}
