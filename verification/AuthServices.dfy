/** The tenant and user repositories, `AuthService` and `UsersService` as objects.  Each service method
    is proved to do to the state what the function of the same name in `AuthRuns` says. */
module AuthServices {
  import opened Wrappers
  import opened Uuids
  import opened Accounts
  import AuthRuns
  import Tenants

  /** A loaded `User`; of its columns only the refresh-token slot is ever assigned. */
  class UserEntity {
    const id: Uuid
    const tenantId: Uuid
    const email: string
    const passwordHash: Hash<string>
    const role: Role
    var refreshTokenHash: Option<Hash<Token>>

    constructor (row: User)
      ensures Row() == row
    {
      id, tenantId, email, passwordHash, role := row.id, row.tenantId, row.email, row.passwordHash, row.role;
      refreshTokenHash := row.refreshTokenHash;
    }

    function Row(): User
      reads this
    {
      User(id, tenantId, email, passwordHash, role, refreshTokenHash)
    }
  }

  class UserRepository {
    var users: Users

    constructor ()
      ensures users == map[] && Valid()
    {
      users := map[];
    }

    /** The unique email column. */
    predicate Valid()
      reads this
    {
      forall a <- users, b <- users :: a != b ==> users[a].email != users[b].email
    }

    method FindByEmail(email: string) returns (user: UserEntity?)
      requires Valid()
      ensures match Accounts.FindByEmail(users, email)
              case Some(u) => user != null && fresh(user) && user.Row() == users[u]
              case None => user == null
    {
      if u :| u in users && HasEmail(users, email, u) {
        user := new UserEntity(users[u]);
      } else {
        assert forall u :: !HasEmail(users, email, u);
        user := null;
      }
    }

    method FindById(id: Uuid) returns (user: UserEntity?)
      ensures id in users <==> user != null
      ensures user != null ==> fresh(user) && user.Row() == users[id]
    {
      user := null;
      if id in users {
        user := new UserEntity(users[id]);
      }
    }

    /** Overwrites the row of a user loaded before. */
    method Save(user: UserEntity)
      requires Valid() && SameUser(users, user.Row())
      modifies this
      ensures Valid() && users == old(users)[user.id := user.Row()]
    {
      users := users[user.id := user.Row()];
    }

    method Insert(user: User, tenants: TenantTable) returns (ok: bool)
      requires Valid()
      modifies this
      ensures Valid()
      ensures match InsertUser(Database(tenants, old(users)), user)
              case Ok(db) => ok && users == db.users
              case Err(_) => !ok && users == old(users)
    {
      if user.id in users || !EmailFree(users, user.email) || user.tenantId !in tenants {
        return false;
      }
      users := users[user.id := user];
      return true;
    }
  }

  class TenantRepository {
    var tenants: TenantTable
    const users: UserRepository

    constructor (users: UserRepository)
      ensures tenants == map[] && this.users == users
    {
      tenants := map[];
      this.users := users;
    }

    function Db(): Database
      reads this, users
    {
      Database(tenants, users.users)
    }

    /** The transaction: the tenant is inserted, then its ADMIN; if the second insert fails, the first
        is rolled back. */
    method CreateTenantWithOwner(data: Owner, tenantId: Uuid, userId: Uuid, random: string) returns (user: UserEntity?)
      requires users.Valid() && random != ""
      modifies this, users
      ensures users.Valid()
      ensures match Accounts.CreateTenantWithOwner(old(Db()), data, tenantId, userId, random)
              case Ok(db) => Db() == db && user != null && fresh(user) && user.Row() == OwnerRow(data, tenantId, userId)
              case Err(_) => Db() == old(Db()) && user == null
    {
      hide Tenants.Slug;
      user := null;
      var before := tenants;
      var tenant := new Tenants.Tenant(tenantId, data.tenantName);
      tenant.GenerateDefaults(random);
      if tenantId in tenants || !SlugFree(tenants, tenant.slug) {
        return;
      }
      tenants := tenants[tenantId := TenantRow(tenantId, tenant.name, tenant.slug, tenant.webhookSecret)];
      var owner := OwnerRow(data, tenantId, userId);
      var ok := users.Insert(owner, tenants);
      if ok {
        user := new UserEntity(owner);
      } else {
        tenants := before;
      }
    }
  }

  class AuthService {
    const userRepo: UserRepository
    const tenantRepo: TenantRepository
    ghost var issued: seq<Token>

    constructor (tenantRepo: TenantRepository)
      ensures this.tenantRepo == tenantRepo && userRepo == tenantRepo.users && issued == []
    {
      this.tenantRepo := tenantRepo;
      userRepo := tenantRepo.users;
      issued := [];
    }

    ghost predicate Valid()
      reads this, userRepo
    {
      userRepo == tenantRepo.users && userRepo.Valid()
    }

    ghost function State(now: nat): AuthRuns.Auth
      reads this, tenantRepo, tenantRepo.users
    {
      AuthRuns.Auth(tenantRepo.Db(), now, issued)
    }

    /** New tokens for the user, and the hash of the refresh token in the user's slot. */
    method Reissue(user: UserEntity, now: nat) returns (tokens: Tokens)
      requires Valid() && SameUser(userRepo.users, user.Row())
      modifies user, userRepo, this`issued
      ensures Valid() && (State(now), tokens) == AuthRuns.Reissue(old(State(now)), old(user.Row()))
    {
      tokens := GenerateTokens(user.Row(), now);
      user.refreshTokenHash := Some(Hash(tokens.refresh));
      userRepo.Save(user);
      issued := issued + [tokens.access, tokens.refresh];
    }

    /** `saveFails` says whether the save of the slot, which comes after the transaction, is rejected:
        the registration then fails, and tenant and owner stay. */
    method Register(data: Owner, tenantId: Uuid, userId: Uuid, random: string, now: nat, saveFails: bool)
      returns (r: Result<Tokens, AuthError>)
      requires Valid() && random != ""
      modifies tenantRepo, userRepo, this`issued
      ensures Valid()
      ensures !saveFails ==> (State(now), r) == AuthRuns.Register(old(State(now)), data, tenantId, userId, random)
      ensures saveFails ==> r.Err? && issued == old(issued)
      ensures var created := Accounts.CreateTenantWithOwner(old(tenantRepo.Db()), data, tenantId, userId, random);
              var stays := saveFails && Accounts.FindByEmail(old(userRepo.users), data.email).None? && created.Ok?;
              r.Err? ==> tenantRepo.Db() == if stays then created.value else old(tenantRepo.Db())
    {
      hide Accounts.CreateTenantWithOwner, GenerateTokens;
      var existing := userRepo.FindByEmail(data.email);
      if existing != null {
        return Err(EmailTaken);
      }
      var user := tenantRepo.CreateTenantWithOwner(data, tenantId, userId, random);
      OwnerStored(old(tenantRepo.Db()), data, tenantId, userId, random);
      if user == null {
        return Err(DatabaseError);
      }
      if saveFails {
        return Err(DatabaseError);
      }
      var tokens := Reissue(user, now);
      return Ok(tokens);
    }

    method Login(email: string, password: string, now: nat) returns (r: Result<Tokens, AuthError>)
      requires Valid()
      modifies userRepo, this`issued
      ensures Valid() && (State(now), r) == AuthRuns.Login(old(State(now)), email, password)
    {
      hide GenerateTokens;
      var user := userRepo.FindByEmail(email);
      if user == null || user.passwordHash != Hash(password) {
        return Err(BadCredentials);
      }
      var tokens := Reissue(user, now);
      return Ok(tokens);
    }

    method Refresh(bearer: Bearer, now: nat) returns (r: Result<Tokens, AuthError>)
      requires Valid()
      modifies userRepo, this`issued
      ensures Valid() && (State(now), r) == AuthRuns.Refresh(old(State(now)), bearer)
    {
      hide GenerateTokens;
      var payload := VerifyRefresh(bearer, now);
      if payload.None? {
        return Err(BadToken);
      }
      var user := userRepo.FindById(payload.value.sub);
      if user == null || user.refreshTokenHash != Some(Hash(payload.value)) {
        return Err(BadToken);
      }
      var tokens := Reissue(user, now);
      return Ok(tokens);
    }

    method Logout(userId: Uuid, now: nat)
      requires Valid()
      modifies userRepo
      ensures Valid() && State(now) == AuthRuns.Logout(old(State(now)), userId)
    {
      var user := userRepo.FindById(userId);
      if user != null {
        user.refreshTokenHash := None;
        userRepo.Save(user);
      }
    }
  }

  lemma OwnerStored(db: Database, data: Owner, tenantId: Uuid, userId: Uuid, secret: string)
    ensures var r := Accounts.CreateTenantWithOwner(db, data, tenantId, userId, secret);
            r.Ok? ==> SameUser(r.value.users, OwnerRow(data, tenantId, userId))
    ensures var r := Accounts.CreateTenantWithOwner(db, data, tenantId, userId, secret);
            r.Err? ==> r.error == DatabaseError
  {
    hide Tenants.Slug;
  }

  class UsersService {
    const tenantRepo: TenantRepository

    constructor (tenantRepo: TenantRepository)
      ensures this.tenantRepo == tenantRepo
    {
      this.tenantRepo := tenantRepo;
    }

    /** A new user is always an AGENT of the caller's tenant. */
    method Create(tenantId: Uuid, userId: Uuid, email: string, password: string, ghost issued: seq<Token>,
        ghost now: nat)
      returns (r: Result<User, AuthError>)
      requires tenantRepo.users.Valid()
      modifies tenantRepo.users
      ensures tenantRepo.users.Valid()
      ensures (AuthRuns.Auth(tenantRepo.Db(), now, issued), r)
           == AuthRuns.CreateUser(AuthRuns.Auth(old(tenantRepo.Db()), now, issued), tenantId, userId, email, password)
      ensures r.Ok? ==> r.value.role == Agent && r.value.tenantId == tenantId
    {
      var existing := tenantRepo.users.FindByEmail(email);
      if existing != null {
        return Err(EmailTaken);
      }
      var user := AuthRuns.AgentRow(tenantId, userId, email, password);
      var ok := tenantRepo.users.Insert(user, tenantRepo.tenants);
      if !ok {
        return Err(DatabaseError);
      }
      return Ok(user);
    }
  }
}
