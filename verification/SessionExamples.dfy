/** Runs that show where sessions and registrations fall short of what is promised for them. */
module SessionExamples {
  import opened Wrappers
  import opened Uuids
  import opened Accounts
  import opened Sessions
  import Tenants

  lemma {:induction false} RunAppend(w: World, a: seq<Step>, b: seq<Step>)
    requires IsRun(w, a) && IsRun(After(w, a), b)
    ensures IsRun(w, a + b) && After(w, a + b) == After(After(w, a), b)
    decreases |a|
  {
    hide Do, Enabled;
    if a == [] {
      assert a + b == b;
    } else {
      assert (a + b)[1..] == a[1..] + b;
      RunAppend(Do(w, a[0]), a[1..], b);
    }
  }

  lemma RunThree(w: World, a: Step, b: Step, c: Step)
    requires Enabled(w, a) && Enabled(Do(w, a), b) && Enabled(Do(Do(w, a), b), c)
    ensures IsRun(w, [a, b, c]) && After(w, [a, b, c]) == Do(Do(Do(w, a), b), c)
  {
    hide Do, Enabled;
    var w1, w2 := Do(w, a), Do(Do(w, a), b);
    assert [a, b, c][1..] == [b, c] && [b, c][1..] == [c] && [c][1..] == [];
    assert IsRun(Do(w2, c), []) && After(Do(w2, c), []) == Do(w2, c);
    assert IsRun(w2, [c]) && After(w2, [c]) == Do(w2, c);
    assert IsRun(w1, [b, c]) && After(w1, [b, c]) == Do(w2, c);
  }

  // ---------------------------------------------------------------- a registration up to its tokens

  function Begun(data: Owner, secret: string): Call {
    RegisterFinding(data, 1, 2, secret)
  }

  function Stored(data: Owner, secret: string): Database {
    Database(map[1 := TenantRow(1, data.tenantName, Tenants.Slug(data.tenantName), secret)], map[2 := OwnerRow(data, 1, 2)])
  }

  /** The transaction is through; the tokens are still to be signed and the slot to be saved. */
  function Registered(data: Owner, secret: string): World {
    World(Stored(data, secret), 0, [], [], map[0 := Signing(OwnerRow(data, 1, 2))], map[0 := Begun(data, secret)],
          map[1 := 0], map[2 := 0])
  }

  lemma StoredIs(data: Owner, secret: string)
    ensures CreateTenantWithOwner(Database(map[], map[]), data, 1, 2, secret) == Ok(Stored(data, secret))
  {
    hide Tenants.Slug;
    var t := map[1 := TenantRow(1, data.tenantName, Tenants.Slug(data.tenantName), secret)];
    assert InsertTenant(Database(map[], map[]), 1, data.tenantName, secret) == Ok(Database(t, map[]));
  }

  lemma Registers3(data: Owner, secret: string) returns (steps: seq<Step>)
    ensures |steps| == 3 && IsRun(Quiet(0), steps) && After(Quiet(0), steps) == Registered(data, secret)
  {
    hide CreateTenantWithOwner, Stored;
    StoredIs(data, secret);
    var a, b := Start(0, Begun(data, secret)), Advance(0);
    var w1 := Do(Quiet(0), a);
    assert w1.calls == map[0 := Begun(data, secret)] && w1.started == map[0 := Begun(data, secret)];
    var w2 := Do(w1, b);
    assert w2.calls == map[0 := RegisterCreating(data, 1, 2, secret)];
    assert Do(w2, b) == Registered(data, secret);
    steps := [a, b, b];
    RunThree(Quiet(0), a, b, b);
  }

  /** A registration can fail after its transaction: a fault before the slot is saved leaves both the
      tenant and its owner, while the caller is told of a failure. */
  lemma FailedRegistrationStays(data: Owner, secret: string) returns (steps: seq<Step>)
    ensures IsRun(Quiet(0), steps)
    ensures var w := After(Quiet(0), steps);
            0 in w.calls && w.calls[0].Aborted? && 1 in w.db.tenants && 2 in w.db.users
  {
    hide CreateTenantWithOwner;
    var first := Registers3(data, secret);
    var w := Registered(data, secret);
    assert Enabled(w, Abort(0)) && [Abort(0)][1..] == [];
    assert IsRun(w, [Abort(0)]) && After(w, [Abort(0)]) == Do(w, Abort(0));
    RunAppend(Quiet(0), first, [Abort(0)]);
    steps := first + [Abort(0)];
  }

  // ---------------------------------------------------------------- overlapping logins

  /** A login up to the point where its tokens are signed but its slot is not yet saved. */
  lemma LoginSigns(w: World, p: nat, u: Uuid, password: string) returns (steps: seq<Step>)
    requires p !in w.calls && u in w.db.users && w.db.users[u].passwordHash == Hash(password)
    requires forall v :: HasEmail(w.db.users, w.db.users[u].email, v) ==> v == u
    ensures IsRun(w, steps)
    ensures var w', tokens := After(w, steps), GenerateTokens(w.db.users[u], w.now);
            && w'.db == w.db && w'.now == w.now
            && w'.calls == w.calls[p := SavingHash(w.db.users[u], tokens)]
  {
    hide GenerateTokens;
    var user := w.db.users[u];
    var a, b := Start(p, LoginFinding(user.email, password)), Advance(p);
    var w1 := Do(w, a);
    assert HasEmail(w.db.users, user.email, u) && FindByEmail(w.db.users, user.email) == Some(u);
    var w2 := Do(w1, b);
    assert w2.calls[p] == Signing(user);
    var w3 := Do(w2, b);
    assert w3.calls[p] == SavingHash(user, GenerateTokens(user, w.now));
    assert w3.calls == w.calls[p := SavingHash(user, GenerateTokens(user, w.now))];
    steps := [a, b, b];
    RunThree(w, a, b, b);
  }

  /** The older of two signed pairs is saved last. */
  lemma SavesOutOfOrder(w: World, p: nat, q: nat)
    requires p in w.calls && q in w.calls && p != q
    requires w.calls[p].SavingHash? && w.calls[q].SavingHash? && w.calls[p].user.id == w.calls[q].user.id
    requires w.calls[p].tokens.refresh.sub == w.calls[q].tokens.refresh.sub == w.calls[p].user.id
    requires VerifyRefresh(Signed(w.calls[p].tokens.refresh), w.now).Some?
    requires w.calls[p].tokens.refresh != w.calls[q].tokens.refresh
    ensures IsRun(w, [Advance(q), Advance(p)])
    ensures var w' := After(w, [Advance(q), Advance(p)]);
            && Accepted(w'.db, w'.now, w.calls[p].tokens.refresh)
            && !Accepted(w'.db, w'.now, w.calls[q].tokens.refresh)
            && w'.calls == w.calls[q := Granted(w.calls[q].tokens)][p := Granted(w.calls[p].tokens)]
  {
    LaterSaveWins(w, p, q);
    var w1 := Do(w, Advance(q));
    assert w1.calls[p] == w.calls[p];
    assert [Advance(q), Advance(p)][1..] == [Advance(p)] && [Advance(p)][1..] == [];
    assert IsRun(Do(w1, Advance(p)), []);
    assert IsRun(w1, [Advance(p)]) && After(w1, [Advance(p)]) == Do(w1, Advance(p));
  }

  /** With overlapping logins the later save wins, not the later token: of two logins that are both
      answered, the refresh token issued a second earlier is the one that is accepted in the end. */
  lemma OlderTokenCanWin(data: Owner, password: string, secret: string) returns (steps: seq<Step>)
    requires data.passwordHash == Hash(password)
    ensures IsRun(Quiet(0), steps)
    ensures var w := After(Quiet(0), steps);
            && 1 in w.calls && w.calls[1].Granted? && 2 in w.calls && w.calls[2].Granted?
            && var older, newer := w.calls[1].tokens.refresh, w.calls[2].tokens.refresh;
               && older.sub == newer.sub && older.iat < newer.iat
               && Accepted(w.db, w.now, older) && !Accepted(w.db, w.now, newer)
  {
    hide IsRun, After, CreateTenantWithOwner, Stored;
    var user := OwnerRow(data, 1, 2);
    var s1 := Registers3(data, secret);
    var w1 := Registered(data, secret);
    StoredUser(data, secret);
    var s2 := LoginSigns(w1, 1, 2, password);
    RunAppend(Quiet(0), s1, s2);
    var w2 := After(w1, s2);
    var w3 := w2.(now := 1000);
    RunTick(w2, 1000);
    RunAppend(Quiet(0), s1 + s2, [Tick(1000)]);
    var s4 := LoginSigns(w3, 2, 2, password);
    RunAppend(Quiet(0), s1 + s2 + [Tick(1000)], s4);
    var w4 := After(w3, s4);
    SavesOutOfOrder(w4, 1, 2);
    steps := s1 + s2 + [Tick(1000)] + s4 + [Advance(2), Advance(1)];
    RunAppend(Quiet(0), s1 + s2 + [Tick(1000)] + s4, [Advance(2), Advance(1)]);
  }

  lemma StoredUser(data: Owner, secret: string)
    ensures var users := Stored(data, secret).users;
            && 2 in users && users[2] == OwnerRow(data, 1, 2)
            && forall v :: HasEmail(users, data.email, v) ==> v == 2
  {
  }

  lemma RunTick(w: World, now: nat)
    requires w.now <= now
    ensures IsRun(w, [Tick(now)]) && After(w, [Tick(now)]) == w.(now := now)
  {
    assert [Tick(now)][1..] == [];
    assert IsRun(w.(now := now), []);
  }
}
