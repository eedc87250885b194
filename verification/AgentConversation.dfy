/** The conversation service and its run store as objects, stepping as `AgentLoop` says. */
module AgentConversations {
  import opened AgentLoop
  import P = LlmProtocol

  /** The stored run row. */
  class AgentRunRepository {
    var state: RunState
    var requestIds: seq<nat>
    var iterationCount: nat
    var toolCallCount: nat
    var limits: Limits

    function Row(): Run
      reads this
    {
      Run(state, requestIds, iterationCount, toolCallCount, limits)
    }

    constructor (limits: Limits)
      ensures Row() == Fresh(limits).run
    {
      state, requestIds, iterationCount, toolCallCount, this.limits := Created, [], 0, 0, limits;
    }

    method TransitionRun(s: RunState)
      modifies this
      ensures Row() == old(Row()).(state := s)
    {
      state := s;
    }

    method RecordStep(id: nat, toolCalls: nat)
      modifies this
      ensures Row() == AgentLoop.RecordStep(old(Row()), id, toolCalls)
    {
      requestIds, iterationCount, toolCallCount := requestIds + [id], iterationCount + 1, toolCallCount + toolCalls;
    }

    method CancelRun() returns (cancelled: bool)
      modifies this
      ensures Row() == AgentLoop.CancelRun(old(Row())) && cancelled == !Terminal(old(state))
    {
      cancelled := !Terminal(state);
      if cancelled {
        state := Cancelled;
      }
    }
  }

  class ConversationService {
    const runs: AgentRunRepository
    var rows: seq<Row>
    var rounds: nat

    function Now(): World
      reads this, runs
    {
      World(runs.Row(), rows, rounds)
    }

    constructor (limits: Limits)
      ensures Now() == Fresh(limits) && fresh(runs)
    {
      runs := new AgentRunRepository(limits);
      rows, rounds := [], 0;
    }

    /** The turn of a fresh run. */
    method Converse(t: Turn, history: seq<Attempt>, script: Script)
      requires Now() == Fresh(runs.limits)
      modifies this, runs
      ensures Now() == AgentLoop.Converse(t, old(runs.limits), history, script)
    {
      Loop(t, 0, 0, history, script);
    }

    /** The loop of both turns: it counts the executions it observes and the attempts its context shows. */
    method Loop(t: Turn, first: nat, base: nat, history: seq<Attempt>, script: Script)
      modifies this, runs
      ensures Now() == Plan(t, old(Now()), first, base, 0, history, script)
    {
      hide AgentLoop.Round;
      var step: nat, executions: nat, attempts := first, 0, history;
      ghost var goal := Plan(t, Now(), first, base, 0, history, script);
      var more := true;
      while more
        invariant if more then Plan(t, Now(), step, base, executions, attempts, script) == goal else Now() == goal
        decreases more, if step <= runs.limits.maxIterations then runs.limits.maxIterations + 1 - step else 0
      {
        ghost var w, e, a := Now(), executions, attempts;
        more, executions, attempts := Round(t, step, base, executions, attempts, script(step));
        if more {
          RoundGoesOn(t, w, step, base, e, a, script(step));
        }
        step := step + 1;
      }
    }

    method Round(t: Turn, step: nat, base: nat, executions: nat, attempts: seq<Attempt>, i: Input)
      returns (more: bool, executions': nat, attempts': seq<Attempt>)
      modifies this, runs
      ensures AgentLoop.Round(t, old(Now()), step, base, executions, attempts, i)
              == if more then Continue(Now(), executions', attempts') else Over(Now())
    {
      hide Propose, AgentLoop.Act;
      executions', attempts' := executions, attempts;
      var final := FinalAttempt(runs.limits, step, base + executions, i.late);
      runs.TransitionRun(Reasoning);
      rounds := rounds + 1;
      var proposal := Propose(t, final, i.answer);
      if proposal.Fail? {
        runs.TransitionRun(RunFailed);
        more := false;
      } else {
        more, executions', attempts' := Act(step, base, executions, attempts, i, final, proposal.value);
      }
    }

    method Act(step: nat, base: nat, executions: nat, attempts: seq<Attempt>, i: Input, final: bool, p: P.LlmResult)
      returns (more: bool, executions': nat, attempts': seq<Attempt>)
      modifies this, runs
      ensures AgentLoop.Act(old(Now()), step, base, executions, attempts, i, final, p)
              == if more then Continue(Now(), executions', attempts') else Over(Now())
    {
      hide Attempts, Repeats, Verdict;
      executions', attempts' := executions, attempts;
      var id := |rows|;
      if Repeats(p, attempts) && !final {
        runs.TransitionRun(ActionProposed);
        runs.RecordStep(id, 0);
        rows := rows + [Absent];
        return true, executions, attempts + Attempts(p);
      }
      if p.CallsResult? {
        runs.TransitionRun(ActionProposed);
        runs.TransitionRun(Executing);
      }
      var row := Verdict(p, i.row, i.threw);
      rows := rows + [row];
      if i.threw {
        runs.TransitionRun(RunFailed);
        return false, executions, attempts;
      }
      runs.RecordStep(id, CallCount(p));
      if row.Invalid? && CallCount(p) > 0 && !final {
        return true, executions, attempts + Attempts(p);
      }
      if Observed(row) {
        executions' := executions + 1;
        runs.TransitionRun(Observing);
        if !final {
          return true, executions', attempts + Attempts(p);
        }
      }
      Close(row, i.renders,
            Observed(row) && (step >= runs.limits.maxIterations || base + executions' >= runs.limits.maxToolSteps),
            Observed(row) && i.late);
      more := false;
    }

    /** Rendering: fail, park or finish the run. */
    method Close(row: Row, renders: bool, boundHit: bool, deadlineHit: bool)
      modifies runs
      ensures runs.Row() == Closing(old(Now()), row, renders, boundHit, deadlineHit).run
    {
      if row.Invalid? || !renders {
        runs.TransitionRun(RunFailed);
      } else if row.Parked? {
        runs.TransitionRun(AwaitingApproval);
      } else {
        runs.TransitionRun(Ended(boundHit, deadlineHit));
      }
    }

    lemma RoundGoesOn(t: Turn, w: World, step: nat, base: nat, executions: nat, attempts: seq<Attempt>, i: Input)
      requires AgentLoop.Round(t, w, step, base, executions, attempts, i).Continue?
      ensures step < w.run.limits.maxIterations
      ensures AgentLoop.Round(t, w, step, base, executions, attempts, i).w.run.limits == w.run.limits
    {
      hide Propose;
      if step >= w.run.limits.maxIterations {
        FinalRoundEnds(t, w, step, base, executions, attempts, i);
      }
    }

    /** A resume after an approval decision. */
    method ResumeTurn(t: Turn, r: Resumption)
      modifies this, runs
      ensures Now() == AgentLoop.ResumeTurn(t, old(Now()), r)
    {
      hide Plan, AdvanceAt, SettledId;
      var stored := runs.Row();
      var known := r.id in stored.requestIds;
      if known {
        runs.TransitionRun(Executing);
      }
      rows := AdvanceAt(rows, r.id, r.first);
      if r.id >= |rows| || r.firstThrew {
        Finish(known, RunFailed);
      } else if known && stored.state.AwaitingApproval? && (Observed(rows[r.id]) || rows[r.id].Denied?) {
        Loop(t, stored.iterationCount, stored.toolCallCount, r.history, r.script);
      } else {
        var id := SettledId(stored, known, r.id);
        rows := AdvanceAt(rows, id, r.second);
        Finish(known,
               if id >= |rows| || r.secondThrew || !r.renders || rows[id].Invalid? || rows[id].Absent?
                 then RunFailed else Completed);
      }
    }

    method Finish(known: bool, s: RunState)
      modifies runs
      ensures runs.Row() == if known then old(runs.Row()).(state := s) else old(runs.Row())
    {
      if known {
        runs.TransitionRun(s);
      }
    }
  }
}
