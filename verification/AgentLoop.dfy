/** The bounded agent loop: plan, act, observe, park for approval, resume from the stored counters. */
module AgentLoop {
  import opened Wrappers
  import opened Json
  import P = LlmProtocol

  datatype RunState =
    | Created | Reasoning | ActionProposed | Executing | Observing
    | AwaitingApproval | Completed | RunFailed | Cancelled | BudgetExhausted

  datatype Limits = Limits(maxIterations: nat, maxToolSteps: nat)

  /** The stored run; a request id is the position of its ledger row. */
  datatype Run = Run(state: RunState, requestIds: seq<nat>, iterationCount: nat, toolCallCount: nat, limits: Limits)

  /** A ledger row. `Absent` is an id no row was written for; `Running` has started and not finished. */
  datatype Row = Absent | Closed | Invalid | Parked | Denied | Running | Succeeded | Unsuccessful

  /** One run with its ledger rows; `rounds` counts the proposals asked of the model. */
  datatype World = World(run: Run, rows: seq<Row>, rounds: nat)

  /** A call as the repetition check compares it. */
  datatype Attempt = Attempt(name: string, args: map<string, Value>)

  /** What stays fixed over the rounds of a turn. */
  datatype Turn = Turn(tools: map<string, string>, decode: P.Decoder, model: string)

  /** What the outside contributes to one round: clock, model answer, ledger verdict, rendering. */
  datatype Input = Input(late: bool, answer: Option<Value>, row: Row, threw: bool, renders: bool)

  type Script = nat -> Input

  // ---------- The run store ----------

  predicate Terminal(s: RunState) {
    s in {Completed, RunFailed, Cancelled, BudgetExhausted}
  }

  function MoveTo(w: World, s: RunState): World {
    w.(run := w.run.(state := s))
  }

  function RecordStep(run: Run, id: nat, toolCalls: nat): Run {
    run.(requestIds := run.requestIds + [id], iterationCount := run.iterationCount + 1,
         toolCallCount := run.toolCallCount + toolCalls)
  }

  function CancelRun(run: Run): Run {
    if Terminal(run.state) then run else run.(state := Cancelled)
  }

  // ---------- One round ----------

  /** A final attempt offers no tool and forbids calls. */
  function OfferOf(t: Turn, final: bool): P.Offer {
    if final then P.Offer(map[], false) else P.Offer(t.tools, true)
  }

  function Propose(t: Turn, final: bool, answer: Option<Value>): P.Checked<P.LlmResult> {
    if answer.None? then Fail(P.ProtocolError) else P.Whole(Some(OfferOf(t, final)), t.decode, t.model, answer.value)
  }

  function CallCount(p: P.LlmResult): nat {
    if p.CallsResult? then |p.toolCalls| else 0
  }

  function Attempts(p: P.LlmResult): seq<Attempt> {
    if p.CallsResult?
      then seq(|p.toolCalls|, i requires 0 <= i < |p.toolCalls| => Attempt(p.toolCalls[i].name, p.toolCalls[i].args))
      else []
  }

  /** A single call already tried in this context. */
  predicate Repeats(p: P.LlmResult, attempts: seq<Attempt>) {
    CallCount(p) == 1 && Attempts(p)[0] in attempts
  }

  /** The ledger's verdict: text closes or is refused, only a single call can get past validation. */
  function Verdict(p: P.LlmResult, row: Row, threw: bool): Row {
    if row.Absent? && threw then row
    else if p.TextResult? then if row.Closed? then row else Invalid
    else if CallCount(p) == 1 && (row.Parked? || row.Denied? || row.Running? || row.Succeeded? || row.Unsuccessful?)
      then row
    else Invalid
  }

  predicate Observed(row: Row) {
    row.Succeeded? || row.Unsuccessful?
  }

  function Ended(boundHit: bool, deadlineHit: bool): RunState {
    if boundHit || deadlineHit then BudgetExhausted else Completed
  }

  datatype RoundEnd = Continue(w: World, executions: nat, attempts: seq<Attempt>) | Over(w: World)

  predicate FinalAttempt(limits: Limits, step: nat, used: nat, late: bool) {
    step >= limits.maxIterations || used >= limits.maxToolSteps || late
  }

  /** Round `step`, with `base` tool calls charged before this turn and `executions` observed in it. */
  function Round(t: Turn, w: World, step: nat, base: nat, executions: nat, attempts: seq<Attempt>, i: Input): RoundEnd {
    var final := FinalAttempt(w.run.limits, step, base + executions, i.late);
    var asked := MoveTo(w, Reasoning).(rounds := w.rounds + 1);
    match Propose(t, final, i.answer)
    case Fail(_) => Over(MoveTo(asked, RunFailed))
    case Ok(p) => Act(asked, step, base, executions, attempts, i, final, p)
  }

  function Act(w: World, step: nat, base: nat, executions: nat, attempts: seq<Attempt>, i: Input, final: bool,
               p: P.LlmResult): RoundEnd {
    var id := |w.rows|;
    if Repeats(p, attempts) && !final then
      Continue(World(RecordStep(w.run.(state := ActionProposed), id, 0), w.rows + [Absent], w.rounds), executions,
               attempts + Attempts(p))
    else
      var row := Verdict(p, i.row, i.threw);
      var state := if p.CallsResult? then Executing else w.run.state;
      if i.threw then Over(MoveTo(w.(rows := w.rows + [row]), RunFailed))
      else
        var stepped := World(RecordStep(w.run.(state := state), id, CallCount(p)), w.rows + [row], w.rounds);
        if row.Invalid? && CallCount(p) > 0 && !final then Continue(stepped, executions, attempts + Attempts(p))
        else if Observed(row) && !final
          then Continue(MoveTo(stepped, Observing), executions + 1, attempts + Attempts(p))
        else Over(Closing(stepped, row, i.renders,
                          Observed(row)
                              && (step >= w.run.limits.maxIterations
                                  || base + executions + 1 >= w.run.limits.maxToolSteps),
                          Observed(row) && i.late))
  }

  /** The end of the turn: an unusable proposal fails the run, a park keeps it open, anything else ends it. */
  function Closing(w: World, row: Row, renders: bool, boundHit: bool, deadlineHit: bool): World {
    if row.Invalid? || !renders then MoveTo(w, RunFailed)
    else if row.Parked? then MoveTo(w, AwaitingApproval)
    else MoveTo(w, Ended(boundHit, deadlineHit))
  }

  /** With no tool on offer the model can only answer in text, so nothing is called and the turn is over. */
  lemma FinalRoundEnds(t: Turn, w: World, step: nat, base: nat, executions: nat, attempts: seq<Attempt>, i: Input)
    requires FinalAttempt(w.run.limits, step, base + executions, i.late)
    ensures var r := Round(t, w, step, base, executions, attempts, i);
            && r.Over? && r.w.run.state in {Completed, RunFailed} && r.w.rounds == w.rounds + 1
            && (r.w.rows == w.rows || r.w.rows == w.rows + [Absent] || r.w.rows == w.rows + [Closed]
                || r.w.rows == w.rows + [Invalid])
  {
    hide P.Whole;
    if i.answer.Some? {
      P.NoCallsWithoutPermission(OfferOf(t, true), t.decode, t.model, i.answer.value, []);
    }
  }

  function Plan(t: Turn, w: World, step: nat, base: nat, executions: nat, attempts: seq<Attempt>, script: Script): World
    decreases if step <= w.run.limits.maxIterations then w.run.limits.maxIterations + 1 - step else 0
  {
    var r := Round(t, w, step, base, executions, attempts, script(step));
    if r.Over? then r.w
    else
      assert step < w.run.limits.maxIterations && r.w.run.limits == w.run.limits by {
        if step >= w.run.limits.maxIterations {
          FinalRoundEnds(t, w, step, base, executions, attempts, script(step));
        }
      }
      Plan(t, r.w, step + 1, base, r.executions, r.attempts, script)
  }

  // ---------- Turns ----------

  function Fresh(limits: Limits): World {
    World(Run(Created, [], 0, 0, limits), [], 0)
  }

  function Converse(t: Turn, limits: Limits, history: seq<Attempt>, script: Script): World {
    Plan(t, Fresh(limits), 0, 0, 0, history, script)
  }

  /** What resuming a row can do: only a parked row moves, and it never parks again. */
  function Advance(row: Row, answer: Row): Row {
    if row.Parked? && (answer.Denied? || answer.Running? || Observed(answer)) then answer else row
  }

  function AdvanceAt(rows: seq<Row>, id: nat, answer: Row): (r: seq<Row>)
    ensures |r| == |rows|
  {
    if id < |rows| then rows[id := Advance(rows[id], answer)] else rows
  }

  /**
   * One resume: `first` and `second` are what the ledger answers to the resume itself and to settling
   * the single-shot path, either of which may throw. The entry's own call joins the history.
   */
  datatype Resumption =
    Resumption(id: nat, first: Row, firstThrew: bool, second: Row, secondThrew: bool, renders: bool,
               history: seq<Attempt>, script: Script)

  function ResumeTurn(t: Turn, w: World, r: Resumption): World {
    var stored := w.run;
    var known := r.id in stored.requestIds;
    var rows := AdvanceAt(w.rows, r.id, r.first);
    if r.id >= |rows| || r.firstThrew then Settle(w.(rows := rows), known, RunFailed)
    else if known && stored.state.AwaitingApproval? && (Observed(rows[r.id]) || rows[r.id].Denied?) then
      Plan(t, MoveTo(w.(rows := rows), Executing), stored.iterationCount, stored.toolCallCount, 0, r.history, r.script)
    else
      var id := SettledId(stored, known, r.id);
      var settled := AdvanceAt(rows, id, r.second);
      Settle(w.(rows := settled), known,
             if id >= |settled| || r.secondThrew || !r.renders || settled[id].Invalid? || settled[id].Absent?
               then RunFailed else Completed)
  }

  /** A finished run answers from its last step. */
  function SettledId(stored: Run, known: bool, id: nat): nat {
    if known && Terminal(stored.state) && |stored.requestIds| > 0
      then stored.requestIds[|stored.requestIds| - 1] else id
  }

  /** The single-shot path always finishes the run it found. */
  function Settle(w: World, known: bool, s: RunState): World {
    if known then MoveTo(w, s) else w
  }

  datatype Event = Resume(r: Resumption) | Cancel

  function After(t: Turn, w: World, events: seq<Event>): World
    decreases events
  {
    if events == [] then w
    else
      After(t, match events[0]
               case Resume(r) => ResumeTurn(t, w, r)
               case Cancel => w.(run := CancelRun(w.run)),
            events[1..])
  }

  // ---------- The budget ----------

  /** Calls let through by validation: each executes at most once, now or after its approval. */
  function Admitted(rows: seq<Row>): nat {
    if rows == [] then 0 else Admitted(rows[..|rows| - 1]) + (if Live(rows[|rows| - 1]) then 1 else 0)
  }

  predicate Live(row: Row) {
    row.Parked? || row.Denied? || row.Running? || row.Succeeded? || row.Unsuccessful?
  }

  /** Tools actually started. */
  function Executed(rows: seq<Row>): nat {
    if rows == [] then 0
    else Executed(rows[..|rows| - 1]) + (if rows[|rows| - 1].Running? || Observed(rows[|rows| - 1]) then 1 else 0)
  }

  lemma {:induction false} ExecutedAreAdmitted(rows: seq<Row>)
    ensures Executed(rows) <= Admitted(rows)
  {
    if rows != [] {
      ExecutedAreAdmitted(rows[..|rows| - 1]);
    }
  }

  lemma AdmittedThen(rows: seq<Row>, row: Row)
    ensures Admitted(rows + [row]) == Admitted(rows) + (if Live(row) then 1 else 0)
  {
    assert (rows + [row])[..|rows|] == rows;
  }

  lemma {:induction false} AdmittedAdvances(rows: seq<Row>, id: nat, answer: Row)
    ensures Admitted(AdvanceAt(rows, id, answer)) == Admitted(rows)
  {
    if rows != [] {
      var n := |rows| - 1;
      AdmittedAdvances(rows[..n], id, answer);
      if id <= n {
        assert AdvanceAt(rows, id, answer)[..n] == AdvanceAt(rows[..n], id, answer);
      }
    }
  }

  /** Holds between calls; while the run is parked its counters still cover everything it did. */
  ghost predicate WithinBudget(w: World) {
    && Admitted(w.rows) <= w.run.limits.maxToolSteps
    && w.rounds <= w.run.limits.maxIterations + 1
    && (w.run.state.AwaitingApproval? ==>
          Admitted(w.rows) <= w.run.toolCallCount && w.rounds == w.run.iterationCount <= w.run.limits.maxIterations)
    && (w.run.state.AwaitingApproval? || w.run.state in {Completed, RunFailed, Cancelled})
  }

  /** Holds at the head of every round. */
  ghost predicate Planning(w: World, step: nat, base: nat, executions: nat) {
    && Admitted(w.rows) <= base + executions <= w.run.toolCallCount
    && Admitted(w.rows) <= w.run.limits.maxToolSteps
    && w.rounds == w.run.iterationCount == step <= w.run.limits.maxIterations
  }

  lemma RoundKeepsBudget(t: Turn, w: World, step: nat, base: nat, executions: nat, attempts: seq<Attempt>, i: Input)
    requires Planning(w, step, base, executions)
    ensures var r := Round(t, w, step, base, executions, attempts, i);
            && r.w.run.limits == w.run.limits
            && (r.Over? ==> WithinBudget(r.w))
            && (r.Continue? ==> Planning(r.w, step + 1, base, r.executions))
  {
    hide Propose, Repeats, Attempts, Admitted;
    AdmittedThen(w.rows, Absent);
    AdmittedThen(w.rows, Closed);
    AdmittedThen(w.rows, Invalid);
    if FinalAttempt(w.run.limits, step, base + executions, i.late) {
      FinalRoundEnds(t, w, step, base, executions, attempts, i);
    } else {
      AdmittedThen(w.rows, i.row);
    }
  }

  lemma {:induction false} PlanKeepsBudget(t: Turn, w: World, step: nat, base: nat, executions: nat,
                                           attempts: seq<Attempt>, script: Script)
    requires Planning(w, step, base, executions)
    ensures WithinBudget(Plan(t, w, step, base, executions, attempts, script))
    ensures Plan(t, w, step, base, executions, attempts, script).run.limits == w.run.limits
    decreases if step <= w.run.limits.maxIterations then w.run.limits.maxIterations + 1 - step else 0
  {
    hide Round, Planning, WithinBudget;
    var r := Round(t, w, step, base, executions, attempts, script(step));
    RoundKeepsBudget(t, w, step, base, executions, attempts, script(step));
    if r.Continue? {
      assert step < w.run.limits.maxIterations by {
        if step >= w.run.limits.maxIterations {
          FinalRoundEnds(t, w, step, base, executions, attempts, script(step));
        }
      }
      PlanKeepsBudget(t, r.w, step + 1, base, r.executions, r.attempts, script);
    }
  }

  lemma ResumeKeepsBudget(t: Turn, w: World, r: Resumption)
    requires WithinBudget(w)
    ensures WithinBudget(ResumeTurn(t, w, r)) && ResumeTurn(t, w, r).run.limits == w.run.limits
  {
    hide Plan, Admitted, AdvanceAt;
    var rows := AdvanceAt(w.rows, r.id, r.first);
    AdmittedAdvances(w.rows, r.id, r.first);
    AdmittedAdvances(rows, SettledId(w.run, r.id in w.run.requestIds, r.id), r.second);
    if w.run.state.AwaitingApproval? {
      PlanKeepsBudget(t, MoveTo(w.(rows := rows), Executing), w.run.iterationCount, w.run.toolCallCount, 0, r.history,
                      r.script);
    }
  }

  lemma {:induction false} EventsKeepBudget(t: Turn, w: World, events: seq<Event>)
    requires WithinBudget(w)
    ensures WithinBudget(After(t, w, events)) && After(t, w, events).run.limits == w.run.limits
    decreases events
  {
    hide ResumeTurn;
    if events != [] {
      match events[0] {
        case Resume(r) =>
          ResumeKeepsBudget(t, w, r);
          EventsKeepBudget(t, ResumeTurn(t, w, r), events[1..]);
        case Cancel =>
          EventsKeepBudget(t, w.(run := CancelRun(w.run)), events[1..]);
      }
    }
  }

  /**
   * The whole-run budget: whatever the model, the tools and the approvals do, over any serial sequence
   * of resumes and cancellations, a run asks for at most `maxIterations + 1` proposals and starts at most
   * `maxToolSteps` tools; and it never ends as budget-exhausted.
   */
  lemma WholeRunBudget(t: Turn, limits: Limits, history: seq<Attempt>, script: Script, events: seq<Event>)
    ensures var w := After(t, Converse(t, limits, history, script), events);
            && w.rounds <= limits.maxIterations + 1
            && Executed(w.rows) <= limits.maxToolSteps
            && w.run.state in {AwaitingApproval, Completed, RunFailed, Cancelled}
  {
    hide Plan, After, Executed;
    PlanKeepsBudget(t, Fresh(limits), 0, 0, 0, history, script);
    var w := Converse(t, limits, history, script);
    EventsKeepBudget(t, w, events);
    ExecutedAreAdmitted(After(t, w, events).rows);
  }

  // ---------- No call twice in a turn ----------

  /** The call this round lets through to the tools, if any. */
  function Admits(t: Turn, w: World, step: nat, base: nat, executions: nat, attempts: seq<Attempt>,
                  i: Input): Option<Attempt> {
    var final := FinalAttempt(w.run.limits, step, base + executions, i.late);
    match Propose(t, final, i.answer)
    case Fail(_) => None
    case Ok(p) =>
        if CallCount(p) == 1 && (final || Attempts(p)[0] !in attempts) && Live(i.row)
          then Some(Attempts(p)[0]) else None
  }

  /** The calls the rounds of a turn let through, in order. */
  function AdmittedCalls(t: Turn, w: World, step: nat, base: nat, executions: nat, attempts: seq<Attempt>,
                         script: Script): seq<Attempt>
    decreases if step <= w.run.limits.maxIterations then w.run.limits.maxIterations + 1 - step else 0
  {
    var r := Round(t, w, step, base, executions, attempts, script(step));
    var one := Admits(t, w, step, base, executions, attempts, script(step));
    var now := if one.Some? then [one.value] else [];
    if r.Over? then now
    else
      assert step < w.run.limits.maxIterations && r.w.run.limits == w.run.limits by {
        if step >= w.run.limits.maxIterations {
          FinalRoundEnds(t, w, step, base, executions, attempts, script(step));
        }
      }
      now + AdmittedCalls(t, r.w, step + 1, base, r.executions, r.attempts, script)
  }

  /** A round lets one more row through exactly when it admits a call, and remembers every call it goes on from. */
  lemma RoundAdmits(t: Turn, w: World, step: nat, base: nat, executions: nat, attempts: seq<Attempt>, i: Input)
    ensures var r, one := Round(t, w, step, base, executions, attempts, i),
            Admits(t, w, step, base, executions, attempts, i);
            && Admitted(r.w.rows) == Admitted(w.rows) + (if one.Some? then 1 else 0)
            && (one.Some? ==> one.value !in attempts)
            && (r.Continue? ==> attempts <= r.attempts && (one.Some? ==> one.value in r.attempts))
  {
    hide Propose, Admitted, Attempts;
    AdmittedThen(w.rows, Absent);
    AdmittedThen(w.rows, Closed);
    AdmittedThen(w.rows, Invalid);
    AdmittedThen(w.rows, i.row);
    var final := FinalAttempt(w.run.limits, step, base + executions, i.late);
    NoFinalCall(t, final, i.answer);
  }

  lemma NoFinalCall(t: Turn, final: bool, answer: Option<Value>)
    ensures Propose(t, final, answer).Ok? ==>
              && (final ==> CallCount(Propose(t, final, answer).value) == 0)
              && |Attempts(Propose(t, final, answer).value)| == CallCount(Propose(t, final, answer).value)
  {
    hide P.Whole;
    if final && answer.Some? {
      P.NoCallsWithoutPermission(OfferOf(t, true), t.decode, t.model, answer.value, []);
    }
  }

  /** In one turn no call reaches the tools twice, nor one made before it; each that does has a row of its own. */
  lemma {:induction false} NoCallTwice(t: Turn, w: World, step: nat, base: nat, executions: nat, attempts: seq<Attempt>,
                                       script: Script)
    ensures var calls := AdmittedCalls(t, w, step, base, executions, attempts, script);
            && (forall j, k :: 0 <= j < k < |calls| ==> calls[j] != calls[k])
            && (forall c <- calls :: c !in attempts)
            && Admitted(Plan(t, w, step, base, executions, attempts, script).rows) == Admitted(w.rows) + |calls|
    decreases if step <= w.run.limits.maxIterations then w.run.limits.maxIterations + 1 - step else 0
  {
    hide Round, Admits, Admitted;
    var r := Round(t, w, step, base, executions, attempts, script(step));
    RoundAdmits(t, w, step, base, executions, attempts, script(step));
    if r.Continue? {
      ContinuesEarly(t, w, step, base, executions, attempts, script(step));
      NoCallTwice(t, r.w, step + 1, base, r.executions, r.attempts, script);
    }
  }

  lemma ContinuesEarly(t: Turn, w: World, step: nat, base: nat, executions: nat, attempts: seq<Attempt>, i: Input)
    requires Round(t, w, step, base, executions, attempts, i).Continue?
    ensures step < w.run.limits.maxIterations
    ensures Round(t, w, step, base, executions, attempts, i).w.run.limits == w.run.limits
    ensures Round(t, w, step, base, executions, attempts, i).w.rounds == w.rounds + 1
  {
    hide Propose, Repeats, Attempts;
    if step >= w.run.limits.maxIterations {
      FinalRoundEnds(t, w, step, base, executions, attempts, i);
    }
  }

  // ---------- When a resume goes on ----------

  lemma {:induction false} PlanAsks(t: Turn, w: World, step: nat, base: nat, executions: nat, attempts: seq<Attempt>,
                                    script: Script)
    ensures Plan(t, w, step, base, executions, attempts, script).rounds > w.rounds
    decreases if step <= w.run.limits.maxIterations then w.run.limits.maxIterations + 1 - step else 0
  {
    hide Propose, Repeats, Attempts;
    var r := Round(t, w, step, base, executions, attempts, script(step));
    assert r.w.rounds == w.rounds + 1;
    if r.Continue? {
      hide Round;
      ContinuesEarly(t, w, step, base, executions, attempts, script(step));
      PlanAsks(t, r.w, step + 1, base, r.executions, r.attempts, script);
    }
  }

  /** The run is parked and the ledger now has an outcome for the row. */
  predicate CanContinue(w: World, r: Resumption) {
    && r.id in w.run.requestIds && w.run.state.AwaitingApproval? && r.id < |w.rows| && !r.firstThrew
    && var row := Advance(w.rows[r.id], r.first); Observed(row) || row.Denied?
  }

  /** A resume asks the model again exactly when the run was parked and the row has an outcome; else it ends the run. */
  lemma ResumeCondition(t: Turn, w: World, r: Resumption)
    ensures ResumeTurn(t, w, r).rounds > w.rounds <==> CanContinue(w, r)
    ensures !CanContinue(w, r) && r.id in w.run.requestIds ==> ResumeTurn(t, w, r).run.state in {Completed, RunFailed}
    ensures !CanContinue(w, r) ==> ResumeTurn(t, w, r).rounds == w.rounds
  {
    hide Plan;
    var rows := AdvanceAt(w.rows, r.id, r.first);
    PlanAsks(t, MoveTo(w.(rows := rows), Executing), w.run.iterationCount, w.run.toolCallCount, 0, r.history, r.script);
  }

  /** A run that is not parked never asks the model again, whatever is resumed or cancelled. */
  lemma {:induction false} EndedForGood(t: Turn, w: World, events: seq<Event>)
    requires !w.run.state.AwaitingApproval?
    ensures After(t, w, events).rounds == w.rounds && !After(t, w, events).run.state.AwaitingApproval?
    decreases events
  {
    hide ResumeTurn;
    if events != [] {
      match events[0]
      case Resume(r) =>
        ResumeCondition(t, w, r);
        UnparkedStays(t, w, r);
        EndedForGood(t, ResumeTurn(t, w, r), events[1..]);
      case Cancel =>
        EndedForGood(t, w.(run := CancelRun(w.run)), events[1..]);
    }
  }

  lemma UnparkedStays(t: Turn, w: World, r: Resumption)
    requires !w.run.state.AwaitingApproval?
    ensures !ResumeTurn(t, w, r).run.state.AwaitingApproval?
  {
    hide Plan;
  }

  /** Polling a parked run before its approval is decided ends it: no later event can take its plan up again. */
  lemma PollingEndsParkedRun(t: Turn, w: World, r: Resumption, events: seq<Event>)
    requires r.id in w.run.requestIds && !CanContinue(w, r)
    ensures After(t, ResumeTurn(t, w, r), events).rounds == w.rounds
  {
    hide ResumeTurn, After;
    ResumeCondition(t, w, r);
    EndedForGood(t, ResumeTurn(t, w, r), events);
  }
}
