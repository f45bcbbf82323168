/** Registration, login, refresh and logout step by step: calls interleave at every await that
    touches the database (an await on hashing belongs to the step before it). */
module Sessions {
  import opened Wrappers
  import opened Uuids
  import opened Accounts
  import opened AuthRuns

  /** A call, by what it does next.  From `Granted` on it is over; an aborted one remembers where the
      fault caught it. */
  datatype Call =
    | RegisterFinding(data: Owner, tenantId: Uuid, userId: Uuid, secret: string)
    | RegisterCreating(data: Owner, tenantId: Uuid, userId: Uuid, secret: string)
    | LoginFinding(email: string, password: string)
    | Verifying(bearer: Bearer)
    | RefreshFinding(token: Token)
    | Signing(user: User)
    | SavingHash(user: User, tokens: Tokens)
    | LogoutFinding(userId: Uuid)
    | LogoutSaving(user: User)
    | AgentFinding(tenantId: Uuid, userId: Uuid, email: string, password: string)
    | AgentSaving(user: User)
    | Granted(tokens: Tokens)
    | Added(user: User)
    | Done
    | Refused(error: AuthError)
    | Aborted(at: Call)

  /** One save of a user's refresh-token slot; logout saves none. */
  datatype SlotSave = SlotSave(user: Uuid, token: Option<Token>)

  /** `started` has each call as it began; `tenantBy` and `userBy` tell which call inserted a row. */
  datatype World = World(
    db: Database,
    now: nat,
    issued: seq<Token>,
    saves: seq<SlotSave>,
    calls: map<nat, Call>,
    started: map<nat, Call>,
    tenantBy: map<Uuid, nat>,
    userBy: map<Uuid, nat>)

  predicate Over(c: Call) {
    c.Granted? || c.Added? || c.Done? || c.Refused? || c.Aborted?
  }

  predicate Initial(c: Call) {
    c.RegisterFinding? || c.LoginFinding? || c.Verifying? || c.LogoutFinding? || c.AgentFinding?
  }

  function Goes(w: World, p: nat, c: Call): World {
    w.(calls := w.calls[p := c])
  }

  function Hashed(token: Option<Token>): Option<Hash<Token>> {
    if token.Some? then Some(Hash(token.value)) else None
  }

  /** The user's row is overwritten with the call's copy, and its slot with the hash. */
  function SaveSlot(w: World, user: User, token: Option<Token>): World {
    w.(db := SaveUser(w.db, user.(refreshTokenHash := Hashed(token))), saves := w.saves + [SlotSave(user.id, token)])
  }

  /** A tenant and its owner inserted by call `p`; a user inserted by call `p`. */
  function Registers(w: World, db: Database, t: Uuid, u: Uuid, p: nat): World {
    w.(db := db, tenantBy := w.tenantBy[t := p], userBy := w.userBy[u := p])
  }

  function Adds(w: World, db: Database, u: Uuid, p: nat): World {
    w.(db := db, userBy := w.userBy[u := p])
  }

  ghost function Proceed(w: World, p: nat): World
    requires p in w.calls
  {
    match w.calls[p]
    case RegisterFinding(data, t, u, secret) =>
      Goes(w, p, if FindByEmail(w.db.users, data.email).Some? then Refused(EmailTaken)
                 else RegisterCreating(data, t, u, secret))
    case RegisterCreating(data, t, u, secret) => (
      match CreateTenantWithOwner(w.db, data, t, u, secret)
      case Err(e) => Goes(w, p, Refused(e))
      case Ok(db) => Goes(Registers(w, db, t, u, p), p, Signing(OwnerRow(data, t, u))))
    case LoginFinding(email, password) => (
      match FindByEmail(w.db.users, email)
      case None => Goes(w, p, Refused(BadCredentials))
      case Some(u) =>
        var user := w.db.users[u];
        Goes(w, p, if user.passwordHash == Hash(password) then Signing(user) else Refused(BadCredentials)))
    case Verifying(bearer) => (
      match VerifyRefresh(bearer, w.now)
      case None => Goes(w, p, Refused(BadToken))
      case Some(token) => Goes(w, p, RefreshFinding(token)))
    case RefreshFinding(token) =>
      if token.sub in w.db.users && HashMatches(w.db.users[token.sub], token)
      then Goes(w, p, Signing(w.db.users[token.sub])) else Goes(w, p, Refused(BadToken))
    case Signing(user) =>
      var tokens := GenerateTokens(user, w.now);
      Goes(w.(issued := w.issued + [tokens.access, tokens.refresh]), p, SavingHash(user, tokens))
    case SavingHash(user, tokens) => Goes(SaveSlot(w, user, Some(tokens.refresh)), p, Granted(tokens))
    case LogoutFinding(u) => Goes(w, p, if u in w.db.users then LogoutSaving(w.db.users[u]) else Done)
    case LogoutSaving(user) => Goes(SaveSlot(w, user, None), p, Done)
    case AgentFinding(t, u, email, password) =>
      Goes(w, p, if FindByEmail(w.db.users, email).Some? then Refused(EmailTaken)
                 else AgentSaving(AgentRow(t, u, email, password)))
    case AgentSaving(user) => (
      match InsertUser(w.db, user)
      case Err(e) => Goes(w, p, Refused(e))
      case Ok(db) => Goes(Adds(w, db, user.id, p), p, Added(user)))
    case _ => w
  }

  datatype Step =
    | Start(call: nat, initial: Call)
    | Advance(call: nat)
    | Abort(call: nat)
    | Tick(now: nat)

  predicate Enabled(w: World, step: Step) {
    match step
    case Start(p, c) => p !in w.calls && Initial(c)
    case Advance(p) => p in w.calls && !Over(w.calls[p])
    case Abort(p) => p in w.calls && !Over(w.calls[p])
    case Tick(now) => w.now <= now
  }

  ghost function Do(w: World, step: Step): World
    requires Enabled(w, step)
  {
    match step
    case Start(p, c) => Goes(w.(started := w.started[p := c]), p, c)
    case Advance(p) => Proceed(w, p)
    case Abort(p) => Goes(w, p, Aborted(w.calls[p]))
    case Tick(now) => w.(now := now)
  }

  ghost predicate IsRun(w: World, steps: seq<Step>)
    decreases |steps|
  {
    steps != [] ==> Enabled(w, steps[0]) && IsRun(Do(w, steps[0]), steps[1..])
  }

  ghost function After(w: World, steps: seq<Step>): World
    requires IsRun(w, steps)
    decreases |steps|
  {
    if steps == [] then w else After(Do(w, steps[0]), steps[1..])
  }

  function Quiet(now: nat): World {
    World(Database(map[], map[]), now, [], [], map[], map[], map[], map[])
  }

  // ---------------------------------------------------------------- what always holds

  /** Save `k` of the slot is the user's last. */
  ghost predicate LastSave(saves: seq<SlotSave>, k: nat, u: Uuid) {
    k < |saves| && saves[k].user == u && forall j :: k < j < |saves| ==> saves[j].user != u
  }

  /** The slot holds what the user's last save put there; nothing, if there was none. */
  ghost predicate SlotIsLast(saves: seq<SlotSave>, u: Uuid, slot: Option<Hash<Token>>) {
    && (slot.Some? ==> exists k: nat :: LastSave(saves, k, u))
    && (forall k: nat :: LastSave(saves, k, u) ==> slot == Hashed(saves[k].token))
  }

  /** Only slots of existing users have been saved. */
  ghost predicate SavesOfUsers(saves: seq<SlotSave>, users: Users) {
    forall k :: 0 <= k < |saves| ==> saves[k].user in users
  }

  predicate CallOk(users: Users, c: Call) {
    match c
    case Signing(user) => SameUser(users, user)
    case SavingHash(user, tokens) =>
      && SameUser(users, user) && tokens.refresh.sub == user.id
      && ClaimsMatch(users, tokens.access) && ClaimsMatch(users, tokens.refresh)
    case LogoutSaving(user) => SameUser(users, user)
    case AgentSaving(user) => user.role == Agent && user.refreshTokenHash.None?
    case Granted(tokens) => ClaimsMatch(users, tokens.access) && ClaimsMatch(users, tokens.refresh)
    case _ => true
  }

  ghost predicate AllOk(w: World) {
    && Sound(w.db)
    && (forall u :: u in w.db.users ==> SlotIsLast(w.saves, u, w.db.users[u].refreshTokenHash))
    && SavesOfUsers(w.saves, w.db.users)
    && (forall i :: 0 <= i < |w.issued| ==> ClaimsMatch(w.db.users, w.issued[i]))
    && (forall p :: p in w.calls ==> CallOk(w.db.users, w.calls[p]))
  }

  lemma KeptSame(users: Users, users': Users, user: User)
    requires UsersKept(users, users') && SameUser(users, user)
    ensures SameUser(users', user)
  {
    assert SameUser(users', users[user.id]);
  }

  lemma KeptClaims(users: Users, users': Users, token: Token)
    requires UsersKept(users, users') && ClaimsMatch(users, token)
    ensures ClaimsMatch(users', token)
  {
    assert SameUser(users', users[token.sub]);
  }

  lemma KeptCall(users: Users, users': Users, c: Call)
    requires UsersKept(users, users') && CallOk(users, c)
    ensures CallOk(users', c)
  {
    hide SameUser, ClaimsMatch, UsersKept;
    match c
    case Signing(user) => KeptSame(users, users', user);
    case SavingHash(user, tokens) =>
      KeptSame(users, users', user);
      KeptClaims(users, users', tokens.access);
      KeptClaims(users, users', tokens.refresh);
    case LogoutSaving(user) => KeptSame(users, users', user);
    case Granted(tokens) =>
      KeptClaims(users, users', tokens.access);
      KeptClaims(users, users', tokens.refresh);
    case _ =>
  }

  /** A step that keeps users, grows the lists by what is right, and moves one call on. */
  lemma StepKeeps(w: World, w': World, p: nat)
    requires AllOk(w) && UsersKept(w.db.users, w'.db.users) && Sound(w'.db)
    requires forall u :: u in w'.db.users ==> SlotIsLast(w'.saves, u, w'.db.users[u].refreshTokenHash)
    requires SavesOfUsers(w'.saves, w'.db.users)
    requires w.issued <= w'.issued
    requires forall i :: |w.issued| <= i < |w'.issued| ==> ClaimsMatch(w'.db.users, w'.issued[i])
    requires p in w'.calls && w'.calls == w.calls[p := w'.calls[p]] && CallOk(w'.db.users, w'.calls[p])
    ensures AllOk(w')
  {
    hide Sound, SlotIsLast, CallOk, ClaimsMatch, UsersKept;
    forall i | 0 <= i < |w'.issued|
      ensures ClaimsMatch(w'.db.users, w'.issued[i])
    {
      if i < |w.issued| {
        assert w'.issued[i] == w.issued[i];
        KeptClaims(w.db.users, w'.db.users, w.issued[i]);
      }
    }
    forall q | q in w'.calls
      ensures CallOk(w'.db.users, w'.calls[q])
    {
      if q != p { KeptCall(w.db.users, w'.db.users, w.calls[q]); }
    }
  }

  lemma KeptReflexive(users: Users)
    ensures UsersKept(users, users)
  {
  }

  /** A step that only moves a call on. */
  lemma GoesOk(w: World, p: nat, c: Call)
    requires AllOk(w) && CallOk(w.db.users, c)
    ensures AllOk(Goes(w, p, c))
  {
    hide Sound, SlotIsLast, CallOk, ClaimsMatch;
  }

  lemma LastSaveAppended(saves: seq<SlotSave>, save: SlotSave, k: nat, u: Uuid)
    requires save.user != u
    ensures LastSave(saves + [save], k, u) <==> LastSave(saves, k, u)
    ensures LastSave(saves, k, u) ==> (saves + [save])[k] == saves[k]
  {
    if LastSave(saves + [save], k, u) {
      assert forall j :: k < j < |saves| ==> (saves + [save])[j] == saves[j];
    }
  }

  lemma SlotSaved(saves: seq<SlotSave>, save: SlotSave, u: Uuid, slot: Option<Hash<Token>>)
    requires if u == save.user then slot == Hashed(save.token) else SlotIsLast(saves, u, slot)
    ensures SlotIsLast(saves + [save], u, slot)
  {
    var saves' := saves + [save];
    if u == save.user {
      assert LastSave(saves', |saves|, u);
      forall k: nat | LastSave(saves', k, u) ensures k == |saves| {
        assert saves'[|saves|].user == u;
      }
    } else {
      forall k: nat ensures LastSave(saves', k, u) <==> LastSave(saves, k, u) {
        LastSaveAppended(saves, save, k, u);
      }
    }
  }

  lemma SaveSlotOk(w: World, p: nat, user: User, token: Option<Token>, c: Call)
    requires AllOk(w) && SameUser(w.db.users, user) && CallOk(w.db.users, c)
    ensures AllOk(Goes(SaveSlot(w, user, token), p, c))
  {
    hide Sound, SlotIsLast, CallOk, ClaimsMatch, AllOk;
    var w' := Goes(SaveSlot(w, user, token), p, c);
    SoundOf(w);
    SaveSound(w.db, user.(refreshTokenHash := Hashed(token)));
    SavesKept(w, w');
    assert UsersKept(w.db.users, w'.db.users);
    KeptCall(w.db.users, w'.db.users, c);
    forall u | u in w'.db.users
      ensures SlotIsLast(w'.saves, u, w'.db.users[u].refreshTokenHash)
    {
      SlotOf(w, u);
      SlotSaved(w.saves, SlotSave(user.id, token), u, w'.db.users[u].refreshTokenHash);
    }
    StepKeeps(w, w', p);
  }

  /** The list of saves grows by saves of existing users only. */
  lemma SavesKept(w: World, w': World)
    requires AllOk(w) && w.db.users.Keys <= w'.db.users.Keys
    requires || w'.saves == w.saves
             || (w'.saves != [] && w'.saves[..|w'.saves| - 1] == w.saves && w'.saves[|w'.saves| - 1].user in w'.db.users)
    ensures SavesOfUsers(w'.saves, w'.db.users)
  {
    hide Sound, SlotIsLast, CallOk, ClaimsMatch;
    forall k | 0 <= k < |w'.saves|
      ensures w'.saves[k].user in w'.db.users
    {
      assert k < |w.saves| ==> w'.saves[k] == w.saves[k];
    }
  }

  lemma SoundOf(w: World)
    requires AllOk(w)
    ensures Sound(w.db)
  {
  }

  lemma SlotOf(w: World, u: Uuid)
    requires AllOk(w)
    ensures u in w.db.users ==> SlotIsLast(w.saves, u, w.db.users[u].refreshTokenHash)
  {
  }

  /** A user is inserted, with or without a tenant. */
  lemma InsertOk(w: World, w1: World, p: nat, user: User, c: Call)
    requires AllOk(w) && Sound(w1.db) && user.id !in w.db.users && user.refreshTokenHash.None?
    requires w1.issued == w.issued && w1.saves == w.saves && w1.calls == w.calls
    requires w1.db.users == w.db.users[user.id := user] && CallOk(w1.db.users, c)
    ensures AllOk(Goes(w1, p, c))
  {
    hide Sound, SlotIsLast, CallOk, ClaimsMatch, AllOk;
    var w' := Goes(w1, p, c);
    assert UsersKept(w.db.users, w1.db.users);
    SavesKept(w, w');
    SavesKept(w, w);
    forall u | u in w1.db.users
      ensures SlotIsLast(w'.saves, u, w1.db.users[u].refreshTokenHash)
    {
      SlotOf(w, u);
      if u == user.id { EmptySlot(w.saves, w.db.users, u); }
    }
    StepKeeps(w, w', p);
  }

  lemma EmptySlot(saves: seq<SlotSave>, users: Users, u: Uuid)
    requires SavesOfUsers(saves, users) && u !in users
    ensures SlotIsLast(saves, u, None)
  {
  }

  lemma SignOk(w: World, p: nat, user: User)
    requires AllOk(w) && SameUser(w.db.users, user)
    ensures var tokens := GenerateTokens(user, w.now);
            AllOk(Goes(w.(issued := w.issued + [tokens.access, tokens.refresh]), p, SavingHash(user, tokens)))
  {
    hide Sound, SlotIsLast;
    var tokens := GenerateTokens(user, w.now);
    assert CallOk(w.db.users, SavingHash(user, tokens));
    KeptReflexive(w.db.users);
    SavesKept(w, w);
    hide CallOk;
    StepKeeps(w, Goes(w.(issued := w.issued + [tokens.access, tokens.refresh]), p, SavingHash(user, tokens)), p);
  }

  lemma CallOf(w: World, p: nat)
    requires AllOk(w) && p in w.calls
    ensures CallOk(w.db.users, w.calls[p])
  {
    hide Sound, SlotIsLast, CallOk;
  }

  lemma ProceedOk(w: World, p: nat)
    requires AllOk(w) && p in w.calls
    ensures AllOk(Proceed(w, p))
  {
    hide AllOk, FindByEmail, CreateTenantWithOwner, InsertUser, SaveSlot, Goes, GenerateTokens, VerifyRefresh;
    hide ClaimsMatch, HashMatches, Registers, Adds, AgentRow;
    CallOf(w, p);
    match w.calls[p]
    case RegisterFinding(data, t, u, secret) =>
      GoesOk(w, p, Refused(EmailTaken));
      GoesOk(w, p, RegisterCreating(data, t, u, secret));
    case RegisterCreating(data, t, u, secret) => CreateOk(w, p, data, t, u, secret);
    case LoginFinding(email, password) =>
      GoesOk(w, p, Refused(BadCredentials));
      if FindByEmail(w.db.users, email).Some? { GoesOk(w, p, Signing(w.db.users[FindByEmail(w.db.users, email).value])); }
    case Verifying(bearer) =>
      GoesOk(w, p, Refused(BadToken));
      if VerifyRefresh(bearer, w.now).Some? { GoesOk(w, p, RefreshFinding(VerifyRefresh(bearer, w.now).value)); }
    case RefreshFinding(token) =>
      GoesOk(w, p, Refused(BadToken));
      if token.sub in w.db.users { GoesOk(w, p, Signing(w.db.users[token.sub])); }
    case Signing(user) => SignOk(w, p, user);
    case SavingHash(user, tokens) => SaveSlotOk(w, p, user, Some(tokens.refresh), Granted(tokens));
    case LogoutFinding(u) =>
      GoesOk(w, p, Done);
      if u in w.db.users { GoesOk(w, p, LogoutSaving(w.db.users[u])); }
    case LogoutSaving(user) => SaveSlotOk(w, p, user, None, Done);
    case AgentFinding(t, u, email, password) =>
      GoesOk(w, p, Refused(EmailTaken));
      AgentRowOk(w, t, u, email, password);
      GoesOk(w, p, AgentSaving(AgentRow(t, u, email, password)));
    case AgentSaving(user) => AgentOk(w, p, user);
    case _ =>
  }

  lemma AgentRowOk(w: World, t: Uuid, u: Uuid, email: string, password: string)
    ensures CallOk(w.db.users, AgentSaving(AgentRow(t, u, email, password)))
  {
  }

  lemma CreateOk(w: World, p: nat, data: Owner, t: Uuid, u: Uuid, secret: string)
    requires AllOk(w) && p in w.calls && w.calls[p] == RegisterCreating(data, t, u, secret)
    ensures AllOk(Proceed(w, p))
  {
    hide AllOk, Sound;
    SoundOf(w);
    match CreateTenantWithOwner(w.db, data, t, u, secret)
    case Err(e) => GoesOk(w, p, Refused(e));
    case Ok(db) =>
      OwnerSound(w.db, data, t, u, secret);
      InsertOk(w, Registers(w, db, t, u, p), p, OwnerRow(data, t, u), Signing(OwnerRow(data, t, u)));
  }

  lemma AgentOk(w: World, p: nat, user: User)
    requires AllOk(w) && p in w.calls && w.calls[p] == AgentSaving(user) && user.role == Agent && user.refreshTokenHash.None?
    ensures AllOk(Proceed(w, p))
  {
    hide AllOk, Sound;
    SoundOf(w);
    match InsertUser(w.db, user)
    case Err(e) => GoesOk(w, p, Refused(e));
    case Ok(db) =>
      AgentSound(w.db, user);
      InsertOk(w, Adds(w, db, user.id, p), p, user, Added(user));
  }

  /** What always holds does not depend on how the calls began. */
  lemma StartOk(w: World, p: nat, c: Call)
    requires AllOk(w) && Initial(c)
    ensures AllOk(Goes(w.(started := w.started[p := c]), p, c))
  {
    hide Sound, SlotIsLast, ClaimsMatch, SavesOfUsers;
  }

  lemma StepAllOk(w: World, step: Step)
    requires AllOk(w) && Enabled(w, step)
    ensures AllOk(Do(w, step))
  {
    hide Proceed, Sound, SlotIsLast;
    match step
    case Start(p, c) => StartOk(w, p, c);
    case Advance(p) => ProceedOk(w, p);
    case Abort(p) => GoesOk(w, p, Aborted(w.calls[p]));
    case Tick(now) =>
  }

  lemma {:induction false} RunAllOk(w: World, steps: seq<Step>)
    requires AllOk(w) && IsRun(w, steps)
    ensures AllOk(After(w, steps))
    decreases |steps|
  {
    hide AllOk, Do, Enabled;
    if steps != [] {
      StepAllOk(w, steps[0]);
      RunAllOk(Do(w, steps[0]), steps[1..]);
    }
  }

  /** In every interleaving emails and slugs stay unique, every tenant has exactly one ADMIN, and every
      token issued or handed out carries the claims of its user's row. */
  lemma AccountsStaySound(start: nat, steps: seq<Step>)
    requires IsRun(Quiet(start), steps)
    ensures var w := After(Quiet(start), steps);
            && Sound(w.db)
            && (forall i :: 0 <= i < |w.issued| ==> ClaimsMatch(w.db.users, w.issued[i]))
            && (forall p :: p in w.calls && w.calls[p].Granted? ==>
                  ClaimsMatch(w.db.users, w.calls[p].tokens.access) && ClaimsMatch(w.db.users, w.calls[p].tokens.refresh))
  {
    hide Sound, SlotIsLast, ClaimsMatch, IsRun, After;
    QuietAllOk(start);
    RunAllOk(Quiet(start), steps);
    var w := After(Quiet(start), steps);
    assert forall p :: p in w.calls ==> CallOk(w.db.users, w.calls[p]);
  }

  lemma QuietAllOk(now: nat)
    ensures AllOk(Quiet(now))
  {
  }

  /** Single live session: in every interleaving a refresh token is accepted if and only if it is one, it
      has not expired, and the last save of its user's slot stored it: no logout has been saved since. */
  lemma AcceptedIff(start: nat, steps: seq<Step>, token: Token)
    requires IsRun(Quiet(start), steps)
    ensures var w := After(Quiet(start), steps);
            Accepted(w.db, w.now, token) <==>
              && token.key == RefreshKey && w.now / 1000 < token.exp
              && exists k: nat :: LastSave(w.saves, k, token.sub) && w.saves[k].token == Some(token)
  {
    hide Sound, ClaimsMatch, IsRun, After, CallOk;
    QuietAllOk(start);
    RunAllOk(Quiet(start), steps);
    var w := After(Quiet(start), steps);
    if k: nat :| LastSave(w.saves, k, token.sub) && w.saves[k].token == Some(token) {
      assert w.saves[k].user in w.db.users;
    }
    if token.sub in w.db.users {
      assert SlotIsLast(w.saves, token.sub, w.db.users[token.sub].refreshTokenHash);
    }
  }

  /** ... so at most one refresh token of a user is accepted, that of the last save, unexpired. */
  lemma SingleLiveSession(start: nat, steps: seq<Step>, token: Token, other: Token)
    requires IsRun(Quiet(start), steps)
    requires var w := After(Quiet(start), steps); Accepted(w.db, w.now, token)
    ensures var w := After(Quiet(start), steps);
            && (exists k: nat :: LastSave(w.saves, k, token.sub) && w.saves[k].token == Some(token))
            && w.now / 1000 < token.exp
            && (other.sub == token.sub && Accepted(w.db, w.now, other) ==> other == token)
  {
    hide IsRun, After;
    AcceptedIff(start, steps, token);
    AcceptedIff(start, steps, other);
  }

  /** With overlapping calls the later save wins, not the later second: of two calls that have signed
      tokens for one user, the one that saves last has its token accepted, however old, and the other's
      is not unless the two are equal. */
  lemma LaterSaveWins(w: World, p: nat, q: nat)
    requires p in w.calls && q in w.calls && p != q
    requires w.calls[p].SavingHash? && w.calls[q].SavingHash? && w.calls[p].user.id == w.calls[q].user.id
    requires var t := w.calls[p].tokens.refresh; t.sub == w.calls[p].user.id && t.key == RefreshKey && w.now / 1000 < t.exp
    requires w.calls[q].tokens.refresh.sub == w.calls[q].user.id
    ensures q in w.calls && p in Proceed(w, q).calls
    ensures var w' := Proceed(Proceed(w, q), p);
            && Accepted(w'.db, w'.now, w.calls[p].tokens.refresh)
            && (Accepted(w'.db, w'.now, w.calls[q].tokens.refresh) ==> w.calls[q].tokens.refresh == w.calls[p].tokens.refresh)
  {
  }
}
