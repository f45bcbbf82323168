/** Runs in which many tenants take part: leaving out everything that the others do changes nothing
    that one tenant gets to see. */
module MixedRuns {
  import opened Wrappers
  import opened Uuids
  import opened Requests
  import opened Caching
  import opened RequestStore
  import opened SerialRuns
  import opened TenantIsolation
  import Pagination

  /** The call is the tenant's, or the worker's on its behalf, or the passing of time. */
  predicate Concerns(op: Op, tenant: Uuid) {
    op.OpTick? || op.tenantId == tenant
  }

  /** Everything but the creation of requests, which `CreateAlikeIff` is about. */
  predicate Creates(op: Op) {
    op.OpCreate? || op.OpInbound?
  }

  function Mine(ops: seq<Op>, tenant: Uuid): seq<Op> {
    if ops == [] then [] else (if Concerns(ops[0], tenant) then [ops[0]] else []) + Mine(ops[1..], tenant)
  }

  /** What the tenant gets to see of a run. */
  ghost function MyReplies(s: Store, ops: seq<Op>, tenant: Uuid): seq<Reply>
    decreases |ops|
  {
    if ops == [] then []
    else (if Concerns(ops[0], tenant) then [Step(s, ops[0]).1] else []) + MyReplies(Step(s, ops[0]).0, ops[1..], tenant)
  }

  lemma AlikeSelf(s: Store, tenant: Uuid)
    ensures Alike(s, s, tenant)
  {
    hide KeyFor;
  }

  lemma AlikeThrough(s: Store, s1: Store, s': Store, tenant: Uuid)
    requires Alike(s, s1, tenant) && Alike(s, s', tenant)
    ensures Alike(s1, s', tenant)
  {
    hide KeyFor;
    forall u
      ensures Owns(s1.rows, tenant, u) <==> Owns(s'.rows, tenant, u)
      ensures Owns(s1.rows, tenant, u) ==> s1.rows[u] == s'.rows[u]
    {
      OwnsAlike(s.rows, s1.rows, tenant, u);
      OwnsAlike(s.rows, s'.rows, tenant, u);
      if Owns(s.rows, tenant, u) {
        OwnedAlike(s.rows, s1.rows, tenant, u);
        OwnedAlike(s.rows, s'.rows, tenant, u);
      }
    }
  }

  // ---------------------------------------------------------------- what others do

  lemma InsertedElsewhere(s: Store, row: RequestRow, tenant: Uuid)
    requires row.tenantId != tenant && row.id !in s.rows
    ensures Alike(s, s.(rows := s.rows[row.id := row]), tenant)
  {
    hide KeyFor;
  }

  lemma WorkTouches(s: Store, t: Uuid, id: Uuid, answer: Option<Triple>)
    requires Sane(s)
    ensures OnlyTouches(s, Work(s, t, id, answer).0, t)
  {
    hide KeyFor, Classify;
    if FindForWork(s.rows, t, id).Some? {
      NoClash(s.rows, Classified(s.rows[id], Classify(answer)));
    }
    hide Clashes;
  }

  /** Whatever a call of another tenant does, creation included, this tenant's rows and entries stay. */
  lemma OthersStepAlike(s: Store, op: Op, tenant: Uuid)
    requires Sane(s) && !Concerns(op, tenant)
    ensures Alike(s, Step(s, op).0, tenant)
  {
    hide KeyFor, Alike, OnlyTouches, Clashes, HasExternalId, Pagination.FindPage;
    AlikeSelf(s, tenant);
    match op
    case OpCreate(t, id, data) =>
      if id !in s.rows { InsertedElsewhere(s, NewRow(id, t, data, s.now), tenant); }
    case OpInbound(t, id, m) =>
      if id !in s.rows { InsertedElsewhere(s, NewRow(id, t, FromMessage(m), s.now), tenant); }
    case OpWork(t, id, a) =>
      hide Work;
      WorkTouches(s, t, id, a);
      OthersAlike(s, Work(s, t, id, a).0, t, tenant);
    case OpTick(_) =>
    case _ =>
      hide Step;
      CallTouchesOwn(s, op, op.tenantId);
      OthersAlike(s, Step(s, op).0, op.tenantId, tenant);
  }

  // ---------------------------------------------------------------- what concerns the tenant

  lemma WorkAlike(s: Store, s': Store, t: Uuid, id: Uuid, answer: Option<Triple>)
    requires Sane(s) && Sane(s') && Alike(s, s', t) && s.now == s'.now
    ensures Work(s, t, id, answer).1 == Work(s', t, id, answer).1
    ensures Alike(Work(s, t, id, answer).0, Work(s', t, id, answer).0, t)
  {
    hide KeyFor, Classify, Alike;
    AlikeParts(s, s', t);
    OwnsAlike(s.rows, s'.rows, t, id);
    if Owns(s.rows, t, id) {
      OwnedAlike(s.rows, s'.rows, t, id);
      var row := Classified(s.rows[id], Classify(answer));
      NoClash(s.rows, row);
      NoClash(s'.rows, row);
      if FindForWork(s.rows, t, id).Some? {
        assert Stamped(s.rows, row, s.now) == Stamped(s'.rows, row, s'.now);
        WroteAlike(s, s', t, id, Stamped(s.rows, row, s.now));
      }
    }
  }

  lemma AlikeParts(s: Store, s': Store, t: Uuid)
    requires Alike(s, s', t)
    ensures AlikeRows(s.rows, s'.rows, t) && AlikeCaches(s.cache, s'.cache, t)
  {
  }

  lemma WroteAlike(s: Store, s': Store, t: Uuid, u: Uuid, row: RequestRow)
    requires Alike(s, s', t) && row.id == u && row.tenantId == t
    ensures Alike(s.(rows := s.rows[u := row]), s'.(rows := s'.rows[u := row]), t)
  {
    hide AlikeRows, AlikeCaches;
    WriteAlikeRows(s.rows, s'.rows, t, u, row);
  }

  lemma OwnStepAlike(s: Store, s': Store, op: Op, tenant: Uuid)
    requires Sane(s) && Sane(s') && Alike(s, s', tenant) && s.now == s'.now
    requires Concerns(op, tenant) && !Creates(op)
    ensures Step(s, op).1 == Step(s', op).1
    ensures Alike(Step(s, op).0, Step(s', op).0, tenant)
  {
    hide Alike, Sane, KeyFor;
    if op.OpWork? {
      hide Work;
      WorkAlike(s, s', op.tenantId, op.requestId, op.answer);
    } else {
      hide Step;
      CallAlike(s, s', op, tenant);
    }
  }

  // ---------------------------------------------------------------- whole runs

  lemma {:induction false} MixedAlike(s: Store, s': Store, ops: seq<Op>, tenant: Uuid)
    requires Sane(s) && Sane(s') && Alike(s, s', tenant) && s.now == s'.now
    requires forall op :: op in ops && Concerns(op, tenant) ==> !Creates(op)
    ensures MyReplies(s, ops, tenant) == Replies(s', Mine(ops, tenant))
    ensures Alike(Run(s, ops), Run(s', Mine(ops, tenant)), tenant)
    decreases |ops|
  {
    hide Step, Sane, Alike, Concerns, Creates;
    if ops != [] {
      var op := ops[0];
      assert op in ops;
      StepSane(s, op);
      NowAfter(s, op);
      if Concerns(op, tenant) {
        OwnStepAlike(s, s', op, tenant);
        StepSane(s', op);
        NowAfter(s', op);
        MixedAlike(Step(s, op).0, Step(s', op).0, ops[1..], tenant);
        assert Mine(ops, tenant)[1..] == Mine(ops[1..], tenant);
      } else {
        OthersStepAlike(s, op, tenant);
        AlikeThrough(s, Step(s, op).0, s', tenant);
        NotATick(op, tenant);
        MixedAlike(Step(s, op).0, s', ops[1..], tenant);
        assert [] + Mine(ops[1..], tenant) == Mine(ops[1..], tenant);
      }
    }
  }

  lemma NotATick(op: Op, tenant: Uuid)
    requires !Concerns(op, tenant)
    ensures !op.OpTick?
  {
  }

  /** Non-interference over mixed runs: from the same store, a tenant gets the same replies, and is left
      with the same rows and entries, whether or not all the calls of all other tenants take place. */
  lemma OthersCanBeLeftOut(s: Store, ops: seq<Op>, tenant: Uuid)
    requires Sane(s)
    requires forall op :: op in ops && Concerns(op, tenant) ==> !Creates(op)
    ensures MyReplies(s, ops, tenant) == Replies(s, Mine(ops, tenant))
    ensures Alike(Run(s, ops), Run(s, Mine(ops, tenant)), tenant)
  {
    hide Sane, Alike, MyReplies, Mine, Replies, Run;
    AlikeSelf(s, tenant);
    MixedAlike(s, s, ops, tenant);
  }
}
