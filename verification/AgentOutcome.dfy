/** How a turn ends, read off the row its last round wrote, and what a parked run is waiting for. */
module AgentOutcome {
  import opened AgentLoop

  // ---------- The last round ----------

  /** What the last round of a turn starts from. */
  datatype Head = Head(w: World, step: nat, executions: nat, attempts: seq<Attempt>)

  function LastHead(t: Turn, w: World, step: nat, base: nat, executions: nat, attempts: seq<Attempt>,
                    script: Script): Head
    decreases if step <= w.run.limits.maxIterations then w.run.limits.maxIterations + 1 - step else 0
  {
    var r := Round(t, w, step, base, executions, attempts, script(step));
    if r.Over? then Head(w, step, executions, attempts)
    else
      ContinuesEarly(t, w, step, base, executions, attempts, script(step));
      LastHead(t, r.w, step + 1, base, r.executions, r.attempts, script)
  }

  /** The tools are still on offer: neither bound is reached and the turn is not late. */
  predicate Offering(limits: Limits, step: nat, used: nat, late: bool) {
    step < limits.maxIterations && used < limits.maxToolSteps && !late
  }

  /** How a round that ends the turn leaves the run. */
  ghost predicate EndsAs(t: Turn, w: World, step: nat, base: nat, executions: nat, attempts: seq<Attempt>, i: Input,
                         w': World) {
    var p := Propose(t, !Offering(w.run.limits, step, base + executions, i.late), i.answer);
    && w'.rounds == w.rounds + 1 && w'.run.limits == w.run.limits
    && (if p.Fail? then w'.rows == w.rows && w'.run.state == RunFailed
        else
          && |w'.rows| == |w.rows| + 1 && w.rows == w'.rows[..|w.rows|]
          && var row := w'.rows[|w.rows|];
             && (w'.run.state == AwaitingApproval <==> row.Parked? && !i.threw && i.renders)
             && (w'.run.state == Completed <==> row !in {Parked, Invalid} && !i.threw && i.renders)
             && (w'.run.state == RunFailed <==> i.threw || !i.renders || row.Invalid?)
             && (row.Parked? <==>
                 i.row.Parked? && CallCount(p.value) == 1 && Offering(w.run.limits, step, base + executions, i.late)
                 && Attempts(p.value)[0] !in attempts)
             && (row.Closed? <==> i.row.Closed? && p.value.TextResult?)
             && (!i.threw ==>
                   && w'.run.requestIds == w.run.requestIds + [|w.rows|]
                   && w'.run.iterationCount == w.run.iterationCount + 1
                   && w'.run.toolCallCount == w.run.toolCallCount + CallCount(p.value)))
  }

  lemma OverEndsAs(t: Turn, w: World, step: nat, base: nat, executions: nat, attempts: seq<Attempt>, i: Input)
    requires Round(t, w, step, base, executions, attempts, i).Over?
    ensures EndsAs(t, w, step, base, executions, attempts, i, Round(t, w, step, base, executions, attempts, i).w)
  {
    hide Propose, Attempts;
    NoFinalCall(t, FinalAttempt(w.run.limits, step, base + executions, i.late), i.answer);
  }

  /**
   * A turn ends as its last round says: parked when that wrote a parked row, did not throw and rendered, completed
   * when it wrote any other usable row, and failed otherwise.
   */
  lemma {:induction false} TurnEndsAs(t: Turn, w: World, step: nat, base: nat, executions: nat, attempts: seq<Attempt>,
                                      script: Script)
    ensures var h := LastHead(t, w, step, base, executions, attempts, script);
            && h.w.run.limits == w.run.limits && h.w.rounds - w.rounds == h.step - step
            && EndsAs(t, h.w, h.step, base, h.executions, h.attempts, script(h.step),
                      Plan(t, w, step, base, executions, attempts, script))
    decreases if step <= w.run.limits.maxIterations then w.run.limits.maxIterations + 1 - step else 0
  {
    hide Round, EndsAs;
    var r := Round(t, w, step, base, executions, attempts, script(step));
    if r.Over? {
      OverEndsAs(t, w, step, base, executions, attempts, script(step));
    } else {
      ContinuesEarly(t, w, step, base, executions, attempts, script(step));
      TurnEndsAs(t, r.w, step + 1, base, r.executions, r.attempts, script);
    }
  }

  /** A round goes on from a repeated call unseen by the ledger, a refused proposal of calls, or a tool's outcome. */
  lemma GoesOn(t: Turn, w: World, step: nat, base: nat, executions: nat, attempts: seq<Attempt>, i: Input)
    ensures var r := Round(t, w, step, base, executions, attempts, i);
            var p := Propose(t, !Offering(w.run.limits, step, base + executions, i.late), i.answer);
            && (r.Continue? <==>
                  && p.Ok? && Offering(w.run.limits, step, base + executions, i.late) && CallCount(p.value) > 0
                  && (|| (Attempts(p.value)[0] in attempts && CallCount(p.value) == 1)
                      || (!i.threw && CallCount(p.value) > 1)
                      || (!i.threw && i.row in {Absent, Closed, Invalid, Succeeded, Unsuccessful})))
            && (r.Continue? ==>
                  && |r.w.rows| == |w.rows| + 1 && w.rows == r.w.rows[..|w.rows|]
                  && r.w.run.requestIds == w.run.requestIds + [|w.rows|]
                  && r.w.run.iterationCount == w.run.iterationCount + 1 && r.w.rounds == w.rounds + 1
                  && r.attempts == attempts + Attempts(p.value)
                  && r.w.run.toolCallCount - w.run.toolCallCount ==
                     (if r.w.rows[|w.rows|].Absent? then 0 else CallCount(p.value))
                  && r.executions - executions == (if Observed(r.w.rows[|w.rows|]) then 1 else 0))
  {
    hide Propose, Attempts;
    NoFinalCall(t, FinalAttempt(w.run.limits, step, base + executions, i.late), i.answer);
  }

  // ---------- What a parked run waits for ----------

  /** Every row was recorded as a step, in order. */
  predicate AllRecorded(w: World) {
    |w.run.requestIds| == |w.rows| && forall k :: 0 <= k < |w.rows| ==> w.run.requestIds[k] == k
  }

  /** A parked run has recorded all its rows, and the last of them is the one that waits. */
  predicate ParkedTruly(w: World) {
    w.run.state.AwaitingApproval? ==> AllRecorded(w) && w.rows != [] && w.rows[|w.rows| - 1].Parked?
  }

  lemma {:induction false} PlanRecords(t: Turn, w: World, step: nat, base: nat, executions: nat, attempts: seq<Attempt>,
                                       script: Script)
    requires AllRecorded(w)
    ensures ParkedTruly(Plan(t, w, step, base, executions, attempts, script))
    decreases if step <= w.run.limits.maxIterations then w.run.limits.maxIterations + 1 - step else 0
  {
    hide Propose, Round;
    var r := Round(t, w, step, base, executions, attempts, script(step));
    if r.Over? {
      OverEndsAs(t, w, step, base, executions, attempts, script(step));
    } else {
      GoesOn(t, w, step, base, executions, attempts, script(step));
      ContinuesEarly(t, w, step, base, executions, attempts, script(step));
      PlanRecords(t, r.w, step + 1, base, r.executions, r.attempts, script);
    }
  }

  lemma ResumeParksTruly(t: Turn, w: World, r: Resumption)
    requires ParkedTruly(w)
    ensures ParkedTruly(ResumeTurn(t, w, r))
  {
    hide Plan;
    var rows := AdvanceAt(w.rows, r.id, r.first);
    if w.run.state.AwaitingApproval? {
      assert r.id < |w.rows| ==> w.run.requestIds[r.id] == r.id && r.id in w.run.requestIds;
      PlanRecords(t, MoveTo(w.(rows := rows), Executing), w.run.iterationCount, w.run.toolCallCount, 0, r.history,
                  r.script);
    }
  }

  lemma {:induction false} EventsParkTruly(t: Turn, w: World, events: seq<Event>)
    requires ParkedTruly(w)
    ensures ParkedTruly(After(t, w, events))
    decreases events
  {
    hide ResumeTurn;
    if events != [] {
      match events[0]
      case Resume(r) =>
        ResumeParksTruly(t, w, r);
        EventsParkTruly(t, ResumeTurn(t, w, r), events[1..]);
      case Cancel =>
        EventsParkTruly(t, w.(run := CancelRun(w.run)), events[1..]);
    }
  }

  /**
   * Whatever has happened to a run, when it is parked its last step is a row that waits for a decision, and resuming
   * that step with the tool's outcome or the denial asks the model again, from the stored counters.
   */
  lemma DecisionRunsOn(t: Turn, limits: Limits, history: seq<Attempt>, script: Script, events: seq<Event>,
                       r: Resumption)
    ensures var w := After(t, Converse(t, limits, history, script), events);
            w.run.state == AwaitingApproval ==>
              && w.rows != [] && w.rows[|w.rows| - 1] == Parked && |w.rows| - 1 in w.run.requestIds
              && (r.id == |w.rows| - 1 && !r.firstThrew && r.first in {Succeeded, Unsuccessful, Denied} ==>
                    && ResumeTurn(t, w, r).rounds > w.rounds
                    && ResumeTurn(t, w, r) ==
                       Plan(t, w.(run := w.run.(state := Executing), rows := w.rows[..|w.rows| - 1] + [r.first]),
                            w.run.iterationCount, w.run.toolCallCount, 0, r.history, r.script))
  {
    hide Plan, After, ResumeTurn;
    PlanRecords(t, Fresh(limits), 0, 0, 0, history, script);
    EventsParkTruly(t, Converse(t, limits, history, script), events);
    var w := After(t, Converse(t, limits, history, script), events);
    if w.run.state.AwaitingApproval? {
      assert w.run.requestIds[|w.rows| - 1] == |w.rows| - 1;
      if r.id == |w.rows| - 1 && !r.firstThrew && r.first in {Succeeded, Unsuccessful, Denied} {
        ResumeCondition(t, w, r);
        Continuing(t, w, r);
        assert AdvanceAt(w.rows, r.id, r.first) == w.rows[..|w.rows| - 1] + [r.first];
      }
    }
  }

  lemma Continuing(t: Turn, w: World, r: Resumption)
    requires CanContinue(w, r)
    ensures ResumeTurn(t, w, r) ==
            Plan(t, w.(run := w.run.(state := Executing), rows := AdvanceAt(w.rows, r.id, r.first)),
                 w.run.iterationCount, w.run.toolCallCount, 0, r.history, r.script)
  {
    hide Plan;
  }

  /** A fresh run whose first proposal is one new call that the ledger parks is parked on it. */
  lemma FirstCallParks(t: Turn, limits: Limits, history: seq<Attempt>, script: Script)
    requires limits.maxIterations > 0 && limits.maxToolSteps > 0
    requires var i := script(0); !i.late && i.row.Parked? && !i.threw && i.renders
    requires var p := Propose(t, false, script(0).answer);
             p.Ok? && CallCount(p.value) == 1 && Attempts(p.value)[0] !in history
    ensures Converse(t, limits, history, script) == World(Run(AwaitingApproval, [0], 1, 1, limits), [Parked], 1)
  {
    hide Propose, Attempts, Round;
    var w := Fresh(limits);
    GoesOn(t, w, 0, 0, 0, history, script(0));
    OverEndsAs(t, w, 0, 0, 0, history, script(0));
    var w' := Converse(t, limits, history, script);
    assert w'.rows == w'.rows[..0] + [w'.rows[0]];
    assert w.run.requestIds + [0] == [0];
  }

  // ---------- A resume that does not continue ----------

  /** The step a resume settles: the last one of a finished run, the one asked about otherwise. */
  function SettledStep(run: Run, id: nat): nat {
    if run.state in {Completed, RunFailed, Cancelled, BudgetExhausted} && run.requestIds != []
       && id in run.requestIds then run.requestIds[|run.requestIds| - 1] else id
  }

  /**
   * A resume without a decision to continue from ends a known run, completed exactly when its step has a usable row
   * and nothing threw; it moves parked rows only, the step's and the one asked about, and leaves counters and steps.
   */
  lemma PolledEndsAs(t: Turn, w: World, r: Resumption)
    requires !CanContinue(w, r)
    ensures var w', step, known := ResumeTurn(t, w, r), SettledStep(w.run, r.id), r.id in w.run.requestIds;
            && w'.rounds == w.rounds && |w'.rows| == |w.rows|
            && w'.run == w.run.(state := w'.run.state)
            && (!known ==> w'.run.state == w.run.state)
            && (known ==>
                  && w'.run.state in {Completed, RunFailed}
                  && (w'.run.state == Completed <==>
                      && r.id < |w.rows| && step < |w.rows| && !r.firstThrew && !r.secondThrew && r.renders
                      && w'.rows[step] !in {Absent, Invalid}))
            && forall k :: 0 <= k < |w.rows| && w'.rows[k] != w.rows[k] ==>
                 && w.rows[k] == Parked && w'.rows[k] in {AgentLoop.Denied, Running, Succeeded, Unsuccessful}
                 && (k == r.id || k == step)
  {
    hide Plan;
  }

  /** Cancelling ends a run that has not ended, and leaves one that has as it is; rows and counters stay. */
  lemma CancelExactly(t: Turn, w: World)
    ensures var ended := w.run.state in {Completed, RunFailed, Cancelled, BudgetExhausted};
            After(t, w, [Cancel]) == if ended then w else w.(run := w.run.(state := Cancelled))
  {
    assert [Cancel][1..] == [];
  }
}
