/** A request handled alone is an interleaved run in which nobody else gets a turn. So what is proved of all
    interleaved runs holds of the handlers, and what the handlers do is one of these runs. */
module AloneRuns {
  import opened Stores
  import opened Programs
  import opened Runs
  import opened Sequential

  /** The request makes `k` calls in a row. */
  function Calls(r: ReqId, choices: seq<Choice>, k: nat): seq<Action> {
    if k == 0 then [] else [Action.Call(r, Head(choices))] + Calls(r, Rest(choices), k - 1)
  }

  lemma RunOne(env: Env, y: Sys, a: Action)
    ensures Run(env, y, [a]) == Next(env, y, a)
  {
    assert [a][..0] == [];
    hide Next;
  }

  lemma NoCallLeft(env: Env, y: Sys, r: ReqId, c: Choice)
    requires r in y.procs && y.procs[r].Finished?
    ensures Next(env, y, Action.Call(r, c)) == y
  {
    hide NextEvent, Begin;
  }

  lemma FirstCall(env: Env, y: Sys, r: ReqId, choices: seq<Choice>, k: nat)
    requires k > 0
    ensures Run(env, y, Calls(r, choices, k)) ==
            Run(env, Next(env, y, Action.Call(r, Head(choices))), Calls(r, Rest(choices), k - 1))
  {
    var a := Action.Call(r, Head(choices));
    RunOne(env, y, a);
    assert Calls(r, choices, k) == [a] + Calls(r, Rest(choices), k - 1);
    hide Run, Next, Calls;
    RunAppend(env, y, [a], Calls(r, Rest(choices), k - 1));
  }

  lemma {:induction false} FinishedStaysFinished(env: Env, y: Sys, r: ReqId, choices: seq<Choice>, k: nat)
    requires r in y.procs && y.procs[r].Finished?
    ensures Run(env, y, Calls(r, choices, k)) == y
    decreases k
  {
    if k > 0 {
      hide Run, Next, Calls;
      NoCallLeft(env, y, r, Head(choices));
      FirstCall(env, y, r, choices, k);
      FinishedStaysFinished(env, y, r, Rest(choices), k - 1);
    }
    hide Next;
  }

  lemma CallIsStep(env: Env, y: Sys, r: ReqId, c: Choice)
    requires InFlight(y, r)
    ensures var (s', pc') := Step(env, y.s, y.procs[r], c);
            var y' := Next(env, y, Action.Call(r, c));
            y'.s == s' && y'.procs == y.procs[r := pc'] && !pc'.Crashed? && CallsLeft(pc') < CallsLeft(y.procs[r])
  {
    ResumeAdvances(env, y.s.now, y.procs[r], Perform(y.s, Issue(env, y.procs[r], c.id), c.fault).1);
    StepKeepsTime(env, y.s, y.procs[r], c);
    hide Perform, Issue, Resume, CallsLeft;
  }

  lemma StepKeepsTime(env: Env, s: Stores, pc: Pc, c: Choice)
    requires Live(pc)
    ensures Step(env, s, pc, c).0.now == s.now
  {
    hide Issue, Resume, ExecuteAccounts, ExecuteTables, ExecuteCluster;
  }

  /** Letting the request make `k` calls ends as handling it alone does. */
  ghost predicate EndsAlike(env: Env, y: Sys, r: ReqId, choices: seq<Choice>, k: nat)
    requires r in y.procs && !y.procs[r].Crashed?
  {
    var (s', end) := RunAlone(env, y.s, y.procs[r], choices);
    var y' := Run(env, y, Calls(r, choices, k));
    y'.s == s' && y'.procs == y.procs[r := end]
  }

  lemma EndsAlikeAtEnd(env: Env, y: Sys, r: ReqId, choices: seq<Choice>, k: nat)
    requires r in y.procs && y.procs[r].Finished?
    ensures EndsAlike(env, y, r, choices, k)
  {
    FinishedStaysFinished(env, y, r, choices, k);
    assert y.procs[r := y.procs[r]] == y.procs;
    hide Run, Calls, Step;
  }

  lemma EndsAlikeBefore(env: Env, y: Sys, y1: Sys, r: ReqId, choices: seq<Choice>, k: nat)
    requires InFlight(y, r) && k > 0 && y1 == Next(env, y, Action.Call(r, Head(choices)))
    requires r in y1.procs && !y1.procs[r].Crashed? && y1.procs == y.procs[r := y1.procs[r]]
    requires (y1.s, y1.procs[r]) == Step(env, y.s, y.procs[r], Head(choices))
    requires EndsAlike(env, y1, r, Rest(choices), k - 1)
    ensures EndsAlike(env, y, r, choices, k)
  {
    AloneStep(env, y.s, y.procs[r], choices);
    FirstCall(env, y, r, choices, k);
    hide Run, Calls, Next, Step, RunAlone;
  }

  lemma {:induction false} AloneIsRun(env: Env, y: Sys, r: ReqId, choices: seq<Choice>, k: nat)
    requires r in y.procs && !y.procs[r].Crashed? && k >= CallsLeft(y.procs[r])
    ensures EndsAlike(env, y, r, choices, k)
    decreases k
  {
    if y.procs[r].Finished? {
      EndsAlikeAtEnd(env, y, r, choices, k);
    } else {
      var y1 := Next(env, y, Action.Call(r, Head(choices)));
      assert InFlight(y, r);
      CallIsStep(env, y, r, Head(choices));
      hide *;
      AloneIsRun(env, y1, r, Rest(choices), k - 1);
      EndsAlikeBefore(env, y, y1, r, choices, k);
    }
  }
}
