/** What a registration leaves behind, in every interleaving: a tenant with its owner or neither, and
    which of the two its outcome tells. */
module Registrations {
  import opened Wrappers
  import opened Uuids
  import opened Accounts
  import opened AuthRuns
  import opened Sessions
  import Tenants

  /** Call `p` has inserted a tenant; a user. */
  ghost predicate LeftTenant(w: World, p: nat) {
    exists t :: t in w.db.tenants && t in w.tenantBy && w.tenantBy[t] == p
  }

  ghost predicate LeftUser(w: World, p: nat) {
    exists u :: u in w.db.users && u in w.userBy && w.userBy[u] == p
  }

  /** The transaction of the registration is behind it: it has signed or will sign tokens, or a fault
      has caught it where it was about to. */
  predicate Committed(c: Call) {
    || c.Signing? || c.SavingHash? || c.Granted?
    || (c.Aborted? && (c.at.Signing? || c.at.SavingHash?))
  }

  /** A registration is where a registration can be. */
  predicate OnCourse(c: Call, began: Call)
    requires began.RegisterFinding?
  {
    match c
    case RegisterFinding(_, _, _, _) => c == began
    case RegisterCreating(data, t, u, secret) => began == RegisterFinding(data, t, u, secret)
    case Signing(_) => true
    case SavingHash(_, _) => true
    case Granted(_) => true
    case Refused(_) => true
    case Aborted(at) => at == began || at.RegisterCreating? || at.Signing? || at.SavingHash?
    case _ => false
  }

  /** The rows of call `p` are there exactly from its transaction on, under the ids it was given. */
  ghost predicate RowsOf(w: World, p: nat, began: Call)
    requires began.RegisterFinding? && p in w.calls
  {
    var t, u := began.tenantId, began.userId;
    && OnCourse(w.calls[p], began)
    && (t in w.tenantBy && w.tenantBy[t] == p <==> Committed(w.calls[p]))
    && (u in w.userBy && w.userBy[u] == p <==> Committed(w.calls[p]))
    && (Committed(w.calls[p]) ==> t in w.db.tenants && u in w.db.users && OwnerOf(w.db.users[u], began))
  }

  predicate OwnerOf(user: User, began: Call)
    requires began.RegisterFinding?
  {
    user.tenantId == began.tenantId && user.role == Admin && user.email == began.data.email
  }

  ghost predicate TenantsCredited(tenants: set<Uuid>, tenantBy: map<Uuid, nat>, started: map<nat, Call>) {
    && tenantBy.Keys == tenants
    && (forall t :: t in tenantBy ==>
          tenantBy[t] in started && started[tenantBy[t]].RegisterFinding? && started[tenantBy[t]].tenantId == t)
  }

  ghost predicate UsersCredited(users: set<Uuid>, userBy: map<Uuid, nat>, started: map<nat, Call>) {
    && userBy.Keys == users
    && (forall u :: u in userBy ==>
          userBy[u] in started && (started[userBy[u]].RegisterFinding? ==> started[userBy[u]].userId == u))
  }

  /** Every row is credited to the call that began with its id. */
  ghost predicate Ledger(w: World) {
    && TenantsCredited(w.db.tenants.Keys, w.tenantBy, w.started)
    && UsersCredited(w.db.users.Keys, w.userBy, w.started)
    && w.started.Keys == w.calls.Keys
  }

  /** The calls are about what they began as. */
  ghost predicate InCharacter(w: World) {
    && (forall p :: p in w.calls && p in w.started && (w.calls[p].RegisterFinding? || w.calls[p].RegisterCreating?) ==>
          w.started[p].RegisterFinding?)
    && (forall p :: p in w.calls && p in w.started && (w.calls[p].AgentFinding? || w.calls[p].AgentSaving?) ==>
          !w.started[p].RegisterFinding?)
  }

  ghost predicate Credited(w: World) {
    && Ledger(w) && InCharacter(w)
    && (forall p :: p in w.started && w.started[p].RegisterFinding? ==> p in w.calls && RowsOf(w, p, w.started[p]))
  }

  // ---------------------------------------------------------------- what the steps keep

  lemma RowsKept(w: World, w': World, p: nat, began: Call)
    requires began.RegisterFinding? && p in w.calls && RowsOf(w, p, began)
    requires p in w'.calls && OnCourse(w'.calls[p], began) && Committed(w'.calls[p]) == Committed(w.calls[p])
    requires w'.tenantBy == w.tenantBy && w'.userBy == w.userBy
    requires w.db.tenants.Keys <= w'.db.tenants.Keys && UsersKept(w.db.users, w'.db.users)
    ensures RowsOf(w', p, began)
  {
    hide OnCourse, Committed;
    if Committed(w.calls[p]) {
      assert SameUser(w'.db.users, w.db.users[began.userId]);
    }
  }

  /** A registration stays on course, and on its side of the transaction. */
  ghost predicate Follows(c: Call, c': Call) {
    && (forall began: Call :: began.RegisterFinding? && OnCourse(c, began) ==>
          OnCourse(c', began) && Committed(c') == Committed(c))
    && !c'.RegisterFinding? && !c'.AgentFinding?
    && (c'.RegisterCreating? ==> c.RegisterFinding?)
    && (c'.AgentSaving? ==> c.AgentFinding?)
  }

  /** A call moves on without inserting a row. */
  ghost predicate MovesOn(w: World, w': World, p: nat) {
    && p in w.calls && p in w'.calls && w'.calls == w.calls[p := w'.calls[p]]
    && w'.started == w.started && w'.tenantBy == w.tenantBy && w'.userBy == w.userBy
    && w'.db.tenants == w.db.tenants && w'.db.users.Keys == w.db.users.Keys && UsersKept(w.db.users, w'.db.users)
    && Follows(w.calls[p], w'.calls[p])
  }

  lemma MoveCredited(w: World, w': World, p: nat)
    requires Credited(w) && MovesOn(w, w', p)
    ensures Credited(w')
  {
    hide OnCourse, Committed, RowsOf, UsersKept;
    forall q | q in w'.started && w'.started[q].RegisterFinding?
      ensures q in w'.calls && RowsOf(w', q, w'.started[q])
    {
      MovedOnCourse(w, w', p, q);
      RowsKept(w, w', q, w.started[q]);
    }
  }

  lemma MovedOnCourse(w: World, w': World, p: nat, q: nat)
    requires MovesOn(w, w', p) && q in w.calls && q in w.started && w.started[q].RegisterFinding? && RowsOf(w, q, w.started[q])
    ensures q in w'.calls && OnCourse(w'.calls[q], w.started[q]) && Committed(w'.calls[q]) == Committed(w.calls[q])
  {
    hide OnCourse, Committed, UsersKept;
  }

  lemma CreditTenant(tenants: set<Uuid>, tenantBy: map<Uuid, nat>, started: map<nat, Call>, t: Uuid, p: nat)
    requires TenantsCredited(tenants, tenantBy, started)
    requires p in started && started[p].RegisterFinding? && started[p].tenantId == t
    ensures TenantsCredited(tenants + {t}, tenantBy[t := p], started)
  {
  }

  lemma CreditUser(users: set<Uuid>, userBy: map<Uuid, nat>, started: map<nat, Call>, u: Uuid, p: nat)
    requires UsersCredited(users, userBy, started)
    requires p in started && (started[p].RegisterFinding? ==> started[p].userId == u)
    ensures UsersCredited(users + {u}, userBy[u := p], started)
  {
  }

  lemma CommitLedger(w: World, w': World, p: nat, t: Uuid, u: Uuid)
    requires Ledger(w) && p in w.started && w.started[p].RegisterFinding?
    requires w.started[p].tenantId == t && w.started[p].userId == u
    requires w'.tenantBy == w.tenantBy[t := p] && w'.userBy == w.userBy[u := p]
    requires w'.db.tenants.Keys == w.db.tenants.Keys + {t} && w'.db.users.Keys == w.db.users.Keys + {u}
    requires w'.started == w.started && w'.calls.Keys == w.calls.Keys
    ensures Ledger(w')
  {
    hide TenantsCredited, UsersCredited;
    CreditTenant(w.db.tenants.Keys, w.tenantBy, w.started, t, p);
    CreditUser(w.db.users.Keys, w.userBy, w.started, u, p);
  }

  lemma AddLedger(w: World, w': World, p: nat, u: Uuid)
    requires Ledger(w) && p in w.started && !w.started[p].RegisterFinding?
    requires w'.tenantBy == w.tenantBy && w'.userBy == w.userBy[u := p]
    requires w'.db.tenants == w.db.tenants && w'.db.users.Keys == w.db.users.Keys + {u}
    requires w'.started == w.started && w'.calls.Keys == w.calls.Keys
    ensures Ledger(w')
  {
  }

  lemma StartLedger(w: World, w': World, p: nat, c: Call)
    requires Ledger(w) && p !in w.calls
    requires w'.tenantBy == w.tenantBy && w'.userBy == w.userBy && w'.db == w.db
    requires w'.started == w.started[p := c] && w'.calls == w.calls[p := c]
    ensures Ledger(w')
  {
  }

  lemma CommitCredited(w: World, p: nat, data: Owner, t: Uuid, u: Uuid, secret: string)
    requires Credited(w) && p in w.calls && w.calls[p] == RegisterCreating(data, t, u, secret)
    requires CreateTenantWithOwner(w.db, data, t, u, secret).Ok?
    ensures var db := CreateTenantWithOwner(w.db, data, t, u, secret).value;
            Credited(Goes(Registers(w, db, t, u, p), p, Signing(OwnerRow(data, t, u))))
  {
    hide CreateTenantWithOwner, RowsOf, Ledger, InCharacter;
    var db := CreateTenantWithOwner(w.db, data, t, u, secret).value;
    var w' := Goes(Registers(w, db, t, u, p), p, Signing(OwnerRow(data, t, u)));
    CreatedRows(w.db, data, t, u, secret);
    LedgerKeys(w);
    BeganSo(w, p);
    CommitLedger(w, w', p, t, u);
    StaysInCharacter(w, w', p);
    forall q | q in w'.started && w'.started[q].RegisterFinding?
      ensures q in w'.calls && RowsOf(w', q, w'.started[q])
    {
      if q == p { CommittedRows(w', p, w.started[p]); } else { OthersRows(w, w', p, t, u, q); }
    }
  }

  lemma BeganSo(w: World, p: nat)
    requires Credited(w) && p in w.calls && w.calls[p].RegisterCreating?
    ensures p in w.started
    ensures w.started[p] == RegisterFinding(w.calls[p].data, w.calls[p].tenantId, w.calls[p].userId, w.calls[p].secret)
  {
    hide RowsOf;
    BeganAs(w, p, w.started[p]);
  }

  lemma StaysInCharacter(w: World, w': World, p: nat)
    requires InCharacter(w) && p in w'.calls && w'.calls == w.calls[p := w'.calls[p]] && w'.started == w.started
    requires w'.calls[p].Signing? || w'.calls[p].Added?
    ensures InCharacter(w')
  {
  }

  lemma LedgerKeys(w: World)
    requires Ledger(w)
    ensures w.tenantBy.Keys == w.db.tenants.Keys && w.userBy.Keys == w.db.users.Keys && w.started.Keys == w.calls.Keys
  {
  }

  lemma CreatedRows(db: Database, data: Owner, t: Uuid, u: Uuid, secret: string)
    requires CreateTenantWithOwner(db, data, t, u, secret).Ok?
    ensures var db' := CreateTenantWithOwner(db, data, t, u, secret).value;
            && t !in db.tenants && u !in db.users
            && db'.tenants.Keys == db.tenants.Keys + {t}
            && db'.users == db.users[u := OwnerRow(data, t, u)] && UsersKept(db.users, db'.users)
  {
    hide Tenants.Slug;
  }

  lemma BeganAs(w: World, p: nat, began: Call)
    requires began.RegisterFinding? && p in w.calls && w.calls[p].RegisterCreating? && RowsOf(w, p, began)
    ensures began == RegisterFinding(w.calls[p].data, w.calls[p].tenantId, w.calls[p].userId, w.calls[p].secret)
  {
  }

  lemma CommittedRows(w: World, p: nat, began: Call)
    requires began.RegisterFinding? && p in w.calls && w.calls[p].Signing?
    requires began.tenantId in w.tenantBy && w.tenantBy[began.tenantId] == p
    requires began.userId in w.userBy && w.userBy[began.userId] == p
    requires began.tenantId in w.db.tenants && began.userId in w.db.users && OwnerOf(w.db.users[began.userId], began)
    ensures RowsOf(w, p, began)
  {
  }

  /** What another registration has or has not left is not touched by an insert under new ids. */
  lemma OthersRows(w: World, w': World, p: nat, t: Uuid, u: Uuid, q: nat)
    requires q in w.started && w.started[q].RegisterFinding? && q in w.calls && RowsOf(w, q, w.started[q])
    requires q != p && q in w'.calls && w'.calls[q] == w.calls[q]
    requires w'.tenantBy == w.tenantBy || (t !in w.tenantBy && w'.tenantBy == w.tenantBy[t := p])
    requires u !in w.userBy && w'.userBy == w.userBy[u := p]
    requires w.db.tenants.Keys <= w'.db.tenants.Keys && UsersKept(w.db.users, w'.db.users)
    ensures RowsOf(w', q, w.started[q])
  {
    hide OnCourse, Committed;
    if Committed(w.calls[q]) {
      assert SameUser(w'.db.users, w.db.users[w.started[q].userId]);
    }
  }

  lemma AddCredited(w: World, p: nat, user: User)
    requires Credited(w) && p in w.calls && w.calls[p] == AgentSaving(user) && InsertUser(w.db, user).Ok?
    ensures Credited(Goes(Adds(w, InsertUser(w.db, user).value, user.id, p), p, Added(user)))
  {
    hide RowsOf, Ledger, InCharacter;
    var w' := Goes(Adds(w, InsertUser(w.db, user).value, user.id, p), p, Added(user));
    LedgerKeys(w);
    AgentBegan(w, p);
    AddLedger(w, w', p, user.id);
    StaysInCharacter(w, w', p);
    AddedKeeps(w.db.users, user);
    forall q | q in w'.started && w'.started[q].RegisterFinding?
      ensures q in w'.calls && RowsOf(w', q, w'.started[q])
    {
      OthersRows(w, w', p, 0, user.id, q);
    }
  }

  lemma AddedKeeps(users: Users, user: User)
    requires user.id !in users
    ensures UsersKept(users, users[user.id := user])
  {
  }

  lemma AgentBegan(w: World, p: nat)
    requires Credited(w) && p in w.calls && w.calls[p].AgentSaving?
    ensures p in w.started && !w.started[p].RegisterFinding?
  {
    hide RowsOf;
  }

  lemma StartCredited(w: World, p: nat, c: Call)
    requires Credited(w) && p !in w.calls && Initial(c)
    ensures Credited(Goes(w.(started := w.started[p := c]), p, c))
  {
    hide RowsOf, Ledger, InCharacter;
    var w' := Goes(w.(started := w.started[p := c]), p, c);
    LedgerKeys(w);
    StartLedger(w, w', p, c);
    StartInCharacter(w, w', p, c);
    KeptReflexive(w.db.users);
    forall q | q in w'.started && w'.started[q].RegisterFinding?
      ensures q in w'.calls && RowsOf(w', q, w'.started[q])
    {
      if q == p {
        NotCredited(w, p);
        NotYet(w', p);
      } else {
        OnCourseOf(w, q);
        RowsKept(w, w', q, w.started[q]);
      }
    }
  }

  lemma StartInCharacter(w: World, w': World, p: nat, c: Call)
    requires InCharacter(w) && Initial(c) && p !in w.calls
    requires w'.calls == w.calls[p := c] && w'.started == w.started[p := c]
    ensures InCharacter(w')
  {
  }

  lemma NotCredited(w: World, p: nat)
    requires Ledger(w) && p !in w.calls
    ensures forall t :: t in w.tenantBy ==> w.tenantBy[t] != p
    ensures forall u :: u in w.userBy ==> w.userBy[u] != p
  {
  }

  lemma OnCourseOf(w: World, q: nat)
    requires Credited(w) && q in w.started && w.started[q].RegisterFinding?
    ensures q in w.calls && OnCourse(w.calls[q], w.started[q])
  {
  }

  lemma NotYet(w: World, p: nat)
    requires p in w.calls && w.calls[p].RegisterFinding?
    requires forall t :: t in w.tenantBy ==> w.tenantBy[t] != p
    requires forall u :: u in w.userBy ==> w.userBy[u] != p
    ensures RowsOf(w, p, w.calls[p])
  {
  }

  lemma GoesMoves(w: World, issued: seq<Token>, p: nat, c: Call)
    requires p in w.calls && Follows(w.calls[p], c)
    ensures MovesOn(w, Goes(w.(issued := issued), p, c), p)
  {
    hide Follows;
    KeptReflexive(w.db.users);
  }

  lemma SaveMoves(w: World, p: nat, user: User, token: Option<Token>, c: Call)
    requires p in w.calls && SameUser(w.db.users, user) && Follows(w.calls[p], c)
    ensures MovesOn(w, Goes(SaveSlot(w, user, token), p, c), p)
  {
    hide Follows;
  }

  lemma StopMoves(w: World, p: nat, c: Call)
    requires p in w.calls && !Over(w.calls[p])
    requires (c.Refused? && !Committed(w.calls[p])) || c == Aborted(w.calls[p])
    ensures MovesOn(w, Goes(w, p, c), p)
  {
    assert Follows(w.calls[p], c);
    GoesMoves(w, w.issued, p, c);
    assert w.(issued := w.issued) == w;
  }

  /** All steps of a call but those that insert rows. */
  lemma ProceedMoves(w: World, p: nat)
    requires AllOk(w) && p in w.calls && !Over(w.calls[p])
    requires !w.calls[p].RegisterCreating? && !w.calls[p].AgentSaving?
    ensures MovesOn(w, Proceed(w, p), p)
  {
    hide AllOk, MovesOn, SaveSlot;
    HeldUser(w, p);
    match w.calls[p]
    case SavingHash(user, tokens) => SaveMoves(w, p, user, Some(tokens.refresh), Granted(tokens));
    case LogoutSaving(user) => SaveMoves(w, p, user, None, Done);
    case _ => ReadMoves(w, p);
  }

  lemma HeldUser(w: World, p: nat)
    requires AllOk(w) && p in w.calls
    ensures w.calls[p].SavingHash? || w.calls[p].LogoutSaving? ==> SameUser(w.db.users, w.calls[p].user)
  {
    hide Sound, SlotIsLast, ClaimsMatch, SavesOfUsers;
    assert CallOk(w.db.users, w.calls[p]);
  }

  lemma ReadMoves(w: World, p: nat)
    requires p in w.calls && !Over(w.calls[p]) && !w.calls[p].RegisterCreating? && !w.calls[p].AgentSaving?
    requires !w.calls[p].SavingHash? && !w.calls[p].LogoutSaving?
    ensures MovesOn(w, Proceed(w, p), p)
  {
    hide FindByEmail, VerifyRefresh, HashMatches, GenerateTokens, MovesOn, Goes, AgentRow;
    assert w.(issued := w.issued) == w;
    var c := NextRead(w, p);
    match w.calls[p]
    case Signing(user) =>
      var tokens := GenerateTokens(user, w.now);
      GoesMoves(w, w.issued + [tokens.access, tokens.refresh], p, SavingHash(user, tokens));
    case _ => GoesMoves(w, w.issued, p, c);
  }

  /** Where a call that only reads goes. */
  lemma NextRead(w: World, p: nat) returns (c: Call)
    requires p in w.calls && !Over(w.calls[p]) && !w.calls[p].RegisterCreating? && !w.calls[p].AgentSaving?
    requires !w.calls[p].SavingHash? && !w.calls[p].LogoutSaving?
    ensures Follows(w.calls[p], c)
    ensures !w.calls[p].Signing? ==> Proceed(w, p) == Goes(w, p, c)
  {
    hide FindByEmail, VerifyRefresh, HashMatches, GenerateTokens, AgentRow, Goes;
    match w.calls[p]
    case RegisterFinding(data, t, u, secret) =>
      c := if FindByEmail(w.db.users, data.email).Some? then Refused(EmailTaken) else RegisterCreating(data, t, u, secret);
    case LoginFinding(email, password) =>
      var found := FindByEmail(w.db.users, email);
      c := if found.Some? && w.db.users[found.value].passwordHash == Hash(password) then Signing(w.db.users[found.value])
           else Refused(BadCredentials);
    case Verifying(bearer) =>
      var token := VerifyRefresh(bearer, w.now);
      c := if token.Some? then RefreshFinding(token.value) else Refused(BadToken);
    case RefreshFinding(token) =>
      c := if token.sub in w.db.users && HashMatches(w.db.users[token.sub], token) then Signing(w.db.users[token.sub])
           else Refused(BadToken);
    case Signing(user) => c := SavingHash(user, GenerateTokens(user, w.now));
    case LogoutFinding(u) => c := if u in w.db.users then LogoutSaving(w.db.users[u]) else Done;
    case AgentFinding(t, u, email, password) =>
      c := if FindByEmail(w.db.users, email).Some? then Refused(EmailTaken) else AgentSaving(AgentRow(t, u, email, password));
    case _ => c := Done;
  }

  /** Every step keeps the rows credited. */
  lemma StepCredited(w: World, step: Step)
    requires AllOk(w) && Credited(w) && Enabled(w, step)
    ensures Credited(Do(w, step))
  {
    hide AllOk, Credited, Proceed, MovesOn, Goes, CreateTenantWithOwner, InsertUser;
    match step
    case Start(p, c) => StartCredited(w, p, c);
    case Advance(p) =>
      if w.calls[p].RegisterCreating? || w.calls[p].AgentSaving? { InsertingCredited(w, p); }
      else {
        ProceedMoves(w, p);
        MoveCredited(w, Proceed(w, p), p);
      }
    case Abort(p) =>
      StopMoves(w, p, Aborted(w.calls[p]));
      MoveCredited(w, Goes(w, p, Aborted(w.calls[p])), p);
    case Tick(now) => TickCredited(w, now);
  }

  lemma InsertingCredited(w: World, p: nat)
    requires Credited(w) && p in w.calls && (w.calls[p].RegisterCreating? || w.calls[p].AgentSaving?)
    ensures Credited(Proceed(w, p))
  {
    hide Credited, MovesOn, CreateTenantWithOwner, InsertUser, Goes, Registers, Adds;
    match w.calls[p]
    case RegisterCreating(data, t, u, secret) =>
      var r := CreateTenantWithOwner(w.db, data, t, u, secret);
      if r.Ok? { CommitCredited(w, p, data, t, u, secret); } else { StoppedCredited(w, p, r.error); }
    case AgentSaving(user) =>
      var r := InsertUser(w.db, user);
      if r.Ok? { AddCredited(w, p, user); } else { StoppedCredited(w, p, r.error); }
  }

  lemma StoppedCredited(w: World, p: nat, e: AuthError)
    requires Credited(w) && p in w.calls && (w.calls[p].RegisterCreating? || w.calls[p].AgentSaving?)
    ensures Credited(Goes(w, p, Refused(e)))
  {
    hide Credited, MovesOn;
    StopMoves(w, p, Refused(e));
    MoveCredited(w, Goes(w, p, Refused(e)), p);
  }

  lemma TickCredited(w: World, now: nat)
    requires Credited(w)
    ensures Credited(w.(now := now))
  {
    hide RowsOf;
    KeptReflexive(w.db.users);
    forall q | q in w.started && w.started[q].RegisterFinding?
      ensures q in w.calls && RowsOf(w.(now := now), q, w.started[q])
    {
      OnCourseOf(w, q);
      RowsKept(w, w.(now := now), q, w.started[q]);
    }
  }

  lemma {:induction false} RunCredited(w: World, steps: seq<Step>)
    requires AllOk(w) && Credited(w) && IsRun(w, steps)
    ensures Credited(After(w, steps))
    decreases |steps|
  {
    hide AllOk, Credited, Do, Enabled;
    if steps != [] {
      StepAllOk(w, steps[0]);
      StepCredited(w, steps[0]);
      RunCredited(Do(w, steps[0]), steps[1..]);
    }
  }

  // ---------------------------------------------------------------- the outcome

  /** Over every interleaving, faults included: a registration has left a tenant if and only if it has
      left its owner, and that is so exactly from the end of its transaction on.  So a registration that
      is refused has left neither; one that a fault breaks off has left both if the fault came when the
      tokens were to be signed or their hash saved, and neither if it came before. */
  lemma RegistrationLeaves(start: nat, steps: seq<Step>, p: nat)
    requires IsRun(Quiet(start), steps)
    requires var w := After(Quiet(start), steps); p in w.started && w.started[p].RegisterFinding?
    ensures var w := After(Quiet(start), steps);
            && p in w.calls
            && (LeftTenant(w, p) <==> LeftUser(w, p))
            && (LeftTenant(w, p) <==> Committed(w.calls[p]))
            && (w.calls[p].Refused? ==> !LeftTenant(w, p) && !LeftUser(w, p))
            && (w.calls[p].Granted? ==> LeftTenant(w, p) && LeftUser(w, p))
            && (w.calls[p].Aborted? ==> (LeftTenant(w, p) <==> w.calls[p].at.Signing? || w.calls[p].at.SavingHash?))
  {
    hide IsRun, After, AllOk;
    QuietAllOk(start);
    QuietCredited(start);
    RunAllOk(Quiet(start), steps);
    RunCredited(Quiet(start), steps);
    LeftIfCommitted(After(Quiet(start), steps), p);
  }

  lemma QuietCredited(now: nat)
    ensures Credited(Quiet(now))
  {
  }

  lemma LeftIfCommitted(w: World, p: nat)
    requires Credited(w) && p in w.started && w.started[p].RegisterFinding?
    ensures p in w.calls && (LeftTenant(w, p) <==> Committed(w.calls[p])) && (LeftUser(w, p) <==> Committed(w.calls[p]))
    ensures Committed(w.calls[p]) ==>
              w.calls[p].Signing? || w.calls[p].SavingHash? || w.calls[p].Granted? || w.calls[p].Aborted?
  {
    hide OnCourse, Committed;
    var began := w.started[p];
    assert RowsOf(w, p, began);
    CommittedWhere(w.calls[p]);
  }

  lemma CommittedWhere(c: Call)
    ensures Committed(c) ==> c.Signing? || c.SavingHash? || c.Granted? || c.Aborted?
  {
  }
}
