/** Nothing gets stuck: every step brings its call or its job nearer to its end, so from any world
    the work in progress can be finished without a fault. */
module Settling {
  import opened Wrappers
  import opened Uuids
  import opened RequestStore
  import opened Interleaving
  import opened Pipeline
  import opened SerialAgreement

  /** An upper bound on the steps a job still takes, retries included. */
  function Remaining(job: Job): nat {
    var left := if job.attemptsMade < ATTEMPTS then ATTEMPTS - job.attemptsMade else 0;
    match job.phase
    case Waiting => 6 * left + 11
    case Answered(_) => 6 * left + 10
    case Loaded(_, _) => 6 * left + 9
    case RowSaved(_) => 6 * left + 8
    case OutOfAttempts => 7
    case _ => 0
  }

  lemma FailureComesNearer(w: World, j: nat)
    requires j < |w.jobs| && var phase := w.jobs[j].phase; phase.Answered? || phase.Loaded? || phase.RowSaved?
    ensures Remaining(FailAttempt(w, j).jobs[j]) < Remaining(w.jobs[j])
  {
  }

  /** Every step of a job, whatever the classifier answers and whether it breaks or not, brings the
      job nearer to its end. */
  lemma JobComesNearer(w: World, j: nat, answer: Option<Triple>)
    requires j < |w.jobs| && !Ended(w.jobs[j].phase)
    ensures |WorkOn(w, j, answer).jobs| == |w.jobs| && Remaining(WorkOn(w, j, answer).jobs[j]) < Remaining(w.jobs[j])
  {
    hide FindForWork, Clashes, Classify, Classified, Stamped, Write;
    if w.jobs[j].phase.Loaded? {
      FailureComesNearer(w, j);
      WriteKeepsJobs(w, Stamped(w.rows, Classified(w.jobs[j].phase.row, w.jobs[j].phase.triple), w.now));
    }
  }

  lemma BreakComesNearer(w: World, j: nat)
    requires j < |w.jobs| && !Ended(w.jobs[j].phase) && !w.jobs[j].phase.Waiting?
    ensures |Break(w, j).jobs| == |w.jobs| && Remaining(Break(w, j).jobs[j]) < Remaining(w.jobs[j])
  {
    if !w.jobs[j].phase.OutOfAttempts? {
      FailureComesNearer(w, j);
    }
  }

  lemma {:induction false} RunAppend(w: World, a: seq<Step>, b: seq<Step>)
    requires IsRun(w, a) && IsRun(After(w, a), b)
    ensures IsRun(w, a + b) && After(w, a + b) == After(After(w, a), b)
    decreases |a|
  {
    hide Do, Enabled;
    if a == [] {
      assert a + b == b;
    } else {
      assert (a + b)[1..] == a[1..] + b;
      RunAppend(Do(w, a[0]), a[1..], b);
    }
  }

  lemma FaultFreeAppend(a: seq<Step>, b: seq<Step>)
    requires FaultFree(a) && FaultFree(b)
    ensures FaultFree(a + b)
  {
  }

  function Unfinished(w: World): set<nat> {
    set p <- w.calls | !Over(w.calls[p])
  }

  /** A call that runs alone changes no other call. */
  lemma {:induction false} AloneOnly(w: World, p: nat, newId: Uuid)
    requires p in w.calls
    ensures p in Alone(w, p, newId).calls
    ensures Alone(w, p, newId).calls == w.calls[p := Alone(w, p, newId).calls[p]]
    decreases Rank(w.calls[p])
  {
    hide Proceed;
    if !Over(w.calls[p]) {
      RankFalls(w, p, newId);
      OnlyCall(w, p, newId);
      AloneOnly(Proceed(w, p, newId), p, newId);
    }
  }

  lemma {:induction false} FinishCalls(w: World) returns (steps: seq<Step>)
    ensures IsRun(w, steps) && FaultFree(steps) && Unfinished(After(w, steps)) == {}
    decreases |Unfinished(w)|
  {
    if Unfinished(w) == {} {
      steps := [];
    } else {
      var p :| p in Unfinished(w);
      hide Alone, IsRun, After, FaultFree;
      var first := AloneIsRun(w, p, 0);
      AloneOnly(w, p, 0);
      var w' := Alone(w, p, 0);
      assert Unfinished(w') == Unfinished(w) - {p};
      var rest := FinishCalls(w');
      RunAppend(w, first, rest);
      FaultFreeAppend(first, rest);
      steps := first + rest;
    }
  }

  /** The jobs before `j` have ended. */
  predicate EndedBefore(w: World, j: nat) {
    j <= |w.jobs| && forall i :: 0 <= i < j ==> Ended(w.jobs[i].phase)
  }

  lemma WorkElsewhereSame(w: World, j: nat)
    requires j < |w.jobs| && !Ended(w.jobs[j].phase)
    ensures var w' := WorkOn(w, j, None);
            |w'.jobs| == |w.jobs| && w'.calls == w.calls && forall i :: 0 <= i < |w.jobs| && i != j ==> w'.jobs[i] == w.jobs[i]
  {
    hide WorkOn;
    WorkShape(w, j, None);
  }

  lemma {:induction false} FinishJobs(w: World, j: nat) returns (steps: seq<Step>)
    requires EndedBefore(w, j)
    ensures IsRun(w, steps) && FaultFree(steps)
    ensures EndedBefore(After(w, steps), |After(w, steps).jobs|) && After(w, steps).calls == w.calls
    decreases |w.jobs| - j, if j < |w.jobs| then Remaining(w.jobs[j]) else 0
  {
    hide WorkOn, Remaining;
    if j == |w.jobs| {
      steps := [];
    } else if Ended(w.jobs[j].phase) {
      steps := FinishJobs(w, j + 1);
    } else {
      JobComesNearer(w, j, None);
      WorkElsewhereSame(w, j);
      var rest := FinishJobs(WorkOn(w, j, None), j);
      steps := [JobStep(j, None)] + rest;
      assert steps[1..] == rest;
    }
  }

  /** From every world, whatever is in progress can be brought to an end without a fault; so the runs
      that `ExactlyOnce` speaks of are there to be had. */
  lemma CanSettle(w: World) returns (steps: seq<Step>)
    ensures IsRun(w, steps) && FaultFree(steps) && Settled(After(w, steps))
  {
    hide IsRun, After, FaultFree;
    var first := FinishCalls(w);
    var rest := FinishJobs(After(w, first), 0);
    RunAppend(w, first, rest);
    FaultFreeAppend(first, rest);
    steps := first + rest;
    var end := After(w, steps);
    assert forall p :: p in end.calls && !Over(end.calls[p]) ==> p in Unfinished(After(w, first));
  }
}
