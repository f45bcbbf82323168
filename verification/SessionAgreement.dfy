/** An authentication call that nothing interrupts does step by step what the serial model does at once. */
module SessionAgreement {
  import opened Wrappers
  import opened Uuids
  import opened Accounts
  import opened AuthRuns
  import opened Sessions

  function AuthOf(w: World): Auth {
    Auth(w.db, w.now, w.issued)
  }

  /** An upper bound on the steps a call still takes. */
  function Rank(c: Call): nat {
    match c
    case RegisterFinding(_, _, _, _) => 4
    case RegisterCreating(_, _, _, _) => 3
    case LoginFinding(_, _) => 3
    case Verifying(_) => 4
    case RefreshFinding(_) => 3
    case Signing(_) => 2
    case SavingHash(_, _) => 1
    case LogoutFinding(_) => 2
    case LogoutSaving(_) => 1
    case AgentFinding(_, _, _, _) => 2
    case AgentSaving(_) => 1
    case _ => 0
  }

  /** The calls that load a user first, and those that write. */
  predicate IsLoad(c: Call) {
    c.LoginFinding? || c.Verifying? || c.RefreshFinding? || c.LogoutFinding?
  }

  predicate IsSession(c: Call) {
    c.Signing? || c.SavingHash? || c.LogoutSaving?
  }

  lemma RankFalls(w: World, p: nat)
    requires p in w.calls && !Over(w.calls[p])
    ensures p in Proceed(w, p).calls && Rank(Proceed(w, p).calls[p]) < Rank(w.calls[p])
  {
    if IsLoad(w.calls[p]) {
      hide FindByEmail, VerifyRefresh, HashMatches;
    } else {
      hide Proceed;
      if IsSession(w.calls[p]) { SessionRankFalls(w, p); } else { UserRankFalls(w, p); }
    }
  }

  lemma SessionRankFalls(w: World, p: nat)
    requires p in w.calls && IsSession(w.calls[p])
    ensures p in Proceed(w, p).calls && Rank(Proceed(w, p).calls[p]) < Rank(w.calls[p])
  {
    hide GenerateTokens, SaveSlot;
  }

  lemma UserRankFalls(w: World, p: nat)
    requires p in w.calls && !Over(w.calls[p]) && !IsLoad(w.calls[p]) && !IsSession(w.calls[p])
    ensures p in Proceed(w, p).calls && Rank(Proceed(w, p).calls[p]) < Rank(w.calls[p])
  {
    hide FindByEmail, CreateTenantWithOwner, InsertUser, Registers, Adds, AgentRow, OwnerRow;
  }

  /** Call `p` runs to its end, and nothing else does. */
  ghost function Alone(w: World, p: nat): World
    requires p in w.calls
    decreases Rank(w.calls[p])
  {
    if Over(w.calls[p]) then w
    else
      RankFalls(w, p);
      Alone(Proceed(w, p), p)
  }

  lemma AloneNext(w: World, p: nat)
    requires p in w.calls && !Over(w.calls[p])
    ensures p in Proceed(w, p).calls && Alone(w, p) == Alone(Proceed(w, p), p)
  {
    hide Proceed;
    RankFalls(w, p);
  }

  lemma AloneOver(w: World, p: nat)
    requires p in w.calls && Over(w.calls[p])
    ensures Alone(w, p) == w
  {
  }

  /** Signing and saving alone is `Reissue`. */
  lemma AloneReissues(w: World, p: nat, user: User)
    requires p in w.calls && w.calls[p] == Signing(user)
    ensures var (s, tokens) := Reissue(AuthOf(w), user);
            AuthOf(Alone(w, p)) == s && p in Alone(w, p).calls && Alone(w, p).calls[p] == Granted(tokens)
  {
    hide Alone, GenerateTokens;
    AloneNext(w, p);
    AloneNext(Proceed(w, p), p);
    AloneOver(Proceed(Proceed(w, p), p), p);
  }

  /** How a call that hands out tokens ends. */
  function Ending(r: Result<Tokens, AuthError>): Call {
    match r
    case Ok(tokens) => Granted(tokens)
    case Err(e) => Refused(e)
  }

  lemma LoginAgrees(w: World, p: nat, email: string, password: string)
    requires p in w.calls && w.calls[p] == LoginFinding(email, password)
    ensures var (s, r) := Login(AuthOf(w), email, password);
            AuthOf(Alone(w, p)) == s && p in Alone(w, p).calls && Alone(w, p).calls[p] == Ending(r)
  {
    hide Alone, Reissue, FindByEmail;
    AloneNext(w, p);
    var w1 := Proceed(w, p);
    if w1.calls[p].Signing? { AloneReissues(w1, p, w1.calls[p].user); } else { AloneOver(w1, p); }
  }

  lemma RegisterAgrees(w: World, p: nat, data: Owner, t: Uuid, u: Uuid, secret: string)
    requires p in w.calls && w.calls[p] == RegisterFinding(data, t, u, secret)
    ensures var (s, r) := Register(AuthOf(w), data, t, u, secret);
            AuthOf(Alone(w, p)) == s && p in Alone(w, p).calls && Alone(w, p).calls[p] == Ending(r)
  {
    hide Alone, Reissue, FindByEmail, CreateTenantWithOwner;
    AloneNext(w, p);
    var w1 := Proceed(w, p);
    if w1.calls[p].Refused? { AloneOver(w1, p); } else {
      AloneNext(w1, p);
      var w2 := Proceed(w1, p);
      if w2.calls[p].Signing? { AloneReissues(w2, p, w2.calls[p].user); } else { AloneOver(w2, p); }
    }
  }

  lemma RefreshAgrees(w: World, p: nat, bearer: Bearer)
    requires p in w.calls && w.calls[p] == Verifying(bearer)
    ensures var (s, r) := Refresh(AuthOf(w), bearer);
            AuthOf(Alone(w, p)) == s && p in Alone(w, p).calls && Alone(w, p).calls[p] == Ending(r)
  {
    hide Alone, Reissue, VerifyRefresh, HashMatches;
    AloneNext(w, p);
    var w1 := Proceed(w, p);
    if w1.calls[p].Refused? { AloneOver(w1, p); } else {
      AloneNext(w1, p);
      var w2 := Proceed(w1, p);
      if w2.calls[p].Signing? { AloneReissues(w2, p, w2.calls[p].user); } else { AloneOver(w2, p); }
    }
  }

  lemma LogoutAgrees(w: World, p: nat, u: Uuid)
    requires p in w.calls && w.calls[p] == LogoutFinding(u)
    ensures AuthOf(Alone(w, p)) == Logout(AuthOf(w), u)
  {
    hide Alone;
    AloneNext(w, p);
    var w1 := Proceed(w, p);
    if w1.calls[p].Done? { AloneOver(w1, p); } else {
      AloneNext(w1, p);
      AloneOver(Proceed(w1, p), p);
    }
  }

  lemma CreateUserAgrees(w: World, p: nat, t: Uuid, u: Uuid, email: string, password: string)
    requires p in w.calls && w.calls[p] == AgentFinding(t, u, email, password)
    ensures var (s, r) := CreateUser(AuthOf(w), t, u, email, password);
            && AuthOf(Alone(w, p)) == s
            && p in Alone(w, p).calls && Alone(w, p).calls[p] == if r.Ok? then Added(r.value) else Refused(r.error)
  {
    hide Alone, FindByEmail, InsertUser;
    AloneNext(w, p);
    var w1 := Proceed(w, p);
    if w1.calls[p].Refused? { AloneOver(w1, p); } else {
      AloneNext(w1, p);
      AloneOver(Proceed(w1, p), p);
    }
  }
}
