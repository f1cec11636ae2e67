/** Names of organizations over whole runs. Creation rejects a blank name; an update that sends one stores an empty
    name, and nothing else does. */
module NameRuns {
  import opened Wrappers
  import opened Text
  import opened Stores
  import opened Programs
  import opened Runs
  import opened Lifecycle
  import opened Saga

  ghost predicate AllNamed(t: Tables) {
    forall n | n in t.orgs :: t.orgs[n].name != ""
  }

  /** The event writes a name into the row. */
  predicate WritesName(env: Env, e: Event, n: string) {
    ChangesRow(env, e) && Spells(env, e.pc.o.id, n) && e.pc.o.change.name.Some?
  }

  /** The last name written was empty. */
  ghost predicate LastNameEmpty(env: Env, log: seq<Event>, n: string) {
    exists i | 0 <= i < |log| ::
      && WritesName(env, log[i], n) && log[i].pc.o.change.name == Some("")
      && forall j | i < j < |log| :: !WritesName(env, log[j], n)
  }

  /** A request about to make a row has a name for it. */
  predicate NamesNewRow(pc: Pc) {
    pc.Org? && pc.o.CreateInsert? ==> pc.o.org.name != ""
  }

  ghost predicate NamesExactly(env: Env, y: Sys) {
    && (forall n | n in y.s.tables.orgs :: y.s.tables.orgs[n].name == "" <==> LastNameEmpty(env, y.log, n))
    && (forall r | r in y.procs :: NamesNewRow(y.procs[r]))
  }

  /** What an event does to the name of a row it finds. */
  lemma FoundRowNamed(env: Env, e: Event, n: string)
    requires Facts(env, e) && Schema(env, e.before) && n in e.before.tables.orgs && n in e.after.tables.orgs
    ensures e.after.tables.orgs[n].name ==
            if WritesName(env, e, n) then e.pc.o.change.name.value else e.before.tables.orgs[n].name
  {
    hide RowFacts, SpaceFacts, CameFrom, CheckFacts, CreateFacts;
  }

  lemma LastNameStep(env: Env, log: seq<Event>, e: Event, n: string)
    ensures LastNameEmpty(env, log + [e], n) <==>
            if WritesName(env, e, n) then e.pc.o.change.name == Some("") else LastNameEmpty(env, log, n)
  {
    var all := log + [e];
    assert all[|log|] == e && forall i | 0 <= i < |log| :: all[i] == log[i];
    if i :| && 0 <= i < |log| && WritesName(env, log[i], n) && log[i].pc.o.change.name == Some("")
            && forall j | i < j < |log| :: !WritesName(env, log[j], n) {
      assert WritesName(env, all[i], n);
    }
    if WritesName(env, e, n) && e.pc.o.change.name == Some("") {
      assert WritesName(env, all[|log|], n);
    }
    hide WritesName;
  }

  /** The identifier of a row just made was never written to. */
  lemma NewNameUnwritten(env: Env, s0: Stores, y: Sys, e: Event, n: string)
    requires Orderly(env, s0, y) && Follows(y, e) && Facts(env, e) && RowMade(e, n)
    ensures !LastNameEmpty(env, y.log + [e], n)
  {
    assert MakesRow(env, e, n) && n !in y.s.issued;
    forall i | 0 <= i < |y.log| ensures !WritesName(env, y.log[i], n) {
      assert Schema(env, y.log[i].before) && Facts(env, y.log[i]);
    }
    LastNameStep(env, y.log, e, n);
    hide SpaceFacts, CameFrom, TableFacts, CheckFacts, CreateFacts, RowFacts;
  }

  lemma CallKeepsNames(env: Env, s0: Stores, y: Sys, e: Event)
    requires NamesExactly(env, y) && Orderly(env, s0, y) && Follows(y, e) && Facts(env, e)
    ensures NamesExactly(env, Record(y, e))
  {
    assert NamesNewRow(e.pc) && NamesNewRow(e.next) by {
      assert CameFrom(env, e);
    }
    forall n | n in e.after.tables.orgs
      ensures e.after.tables.orgs[n].name == "" <==> LastNameEmpty(env, y.log + [e], n)
    {
      if n in e.before.tables.orgs {
        FoundRowNamed(env, e, n);
        LastNameStep(env, y.log, e, n);
      } else {
        NewNameUnwritten(env, s0, y, e, n);
        assert MakesRow(env, e, n);
      }
    }
    hide Orderly, LastNameEmpty, WritesName, SpaceFacts, CameFrom, TableFacts, CheckFacts, CreateFacts, RowFacts;
  }

  /** Starting from named organizations: in every run a stored name is empty if and only if the last update that wrote
      a name to the row wrote the empty one. */
  lemma {:induction false} EmptyNameIffWritten(env: Env, s0: Stores, acts: seq<Action>)
    requires Schema(env, s0) && AllNamed(s0.tables)
    ensures NamesExactly(env, Run(env, Boot(s0), acts))
  {
    hide Next;
    if acts != [] {
      var k := |acts| - 1;
      var y := Run(env, Boot(s0), acts[..k]);
      EmptyNameIffWritten(env, s0, acts[..k]);
      RunKeepsInv(env, s0, acts[..k]);
      InvGivesSchema(env, s0, y);
      NextIsEvent(env, y, acts[k]);
      if NoCall(y, Next(env, y, acts[k])) {
        NoCallKeepsNames(env, y, Next(env, y, acts[k]));
      } else {
        CallKeepsNames(env, s0, y, NextEvent(env, y, acts[k].rid, acts[k].choice));
      }
    }
    hide Inv, Orderly, RequestHistory, Facts, NextEvent, LastNameEmpty, Schema, NoCall;
  }

  lemma NoCallKeepsNames(env: Env, y: Sys, y': Sys)
    requires NamesExactly(env, y) && NoCall(y, y')
    ensures NamesExactly(env, y')
  {
    forall r | r in y'.procs && r !in y.procs ensures NamesNewRow(y'.procs[r]) {
      assert NewRequest(y'.procs[r]);
    }
    hide LastNameEmpty;
  }

  // ---- Runs without blank names ----

  /** The request does not send a name of blanks. */
  predicate NamesProperly(op: Op) {
    op.UpdateOrganization? ==> op.name == "" || TrimSpace(op.name) != ""
  }

  predicate ProperlyNamed(pc: Pc) {
    match pc
    case Gate(g) => NamesProperly(g.op)
    case Org(o) =>
      && (o.UpdateRole? ==> o.name == "" || TrimSpace(o.name) != "")
      && (o.UpdateWrite? ==> o.change.name != Some(""))
    case _ => true
  }

  ghost predicate AllProperlyNamed(y: Sys) {
    && (forall r | r in y.procs :: ProperlyNamed(y.procs[r]))
    && (forall i | 0 <= i < |y.log| :: ProperlyNamed(y.log[i].pc))
  }

  lemma EnterProperlyNamed(env: Env, now: nat, user: string, op: Op)
    requires NamesProperly(op)
    ensures ProperlyNamed(Enter(env, now, user, op))
  {
    hide TrimSpace;
  }

  lemma BeginProperlyNamed(env: Env, now: nat, req: Request)
    requires NamesProperly(req.op)
    ensures ProperlyNamed(Begin(env, now, req))
  {
    forall user ensures ProperlyNamed(Enter(env, now, user, req.op)) {
      EnterProperlyNamed(env, now, user, req.op);
    }
    hide Enter, MethodOf;
  }

  lemma StepProperlyNamed(env: Env, s: Stores, pc: Pc, c: Choice)
    requires Live(pc) && ProperlyNamed(pc)
    ensures ProperlyNamed(Step(env, s, pc, c).1)
  {
    if pc.Gate? && pc.g.KeyTouch? {
      EnterProperlyNamed(env, s.now, pc.g.who.user, pc.g.op);
    }
    StepTime(env, s, pc, c);
    hide Enter, MethodOf, AfterFirst, Validated, Perform, Issue, TrimSpace, NormalSlug;
  }

  lemma StepTime(env: Env, s: Stores, pc: Pc, c: Choice)
    requires Live(pc)
    ensures Perform(s, Issue(env, pc, c.id), c.fault).0.now == s.now
  {
    hide Issue, ExecuteAccounts, ExecuteTables, ExecuteCluster;
  }

  lemma {:induction false} RunProperlyNamed(env: Env, s0: Stores, acts: seq<Action>)
    requires forall a | a in acts :: a.Arrive? ==> NamesProperly(a.req.op)
    ensures AllProperlyNamed(Run(env, Boot(s0), acts))
  {
    hide Next;
    if acts != [] {
      var k := |acts| - 1;
      RunProperlyNamed(env, s0, acts[..k]);
      assert acts[k] in acts;
      NextProperlyNamed(env, Run(env, Boot(s0), acts[..k]), acts[k]);
      hide AllProperlyNamed;
    }
    hide NamesProperly;
  }

  lemma NextProperlyNamed(env: Env, y: Sys, a: Action)
    requires AllProperlyNamed(y) && (a.Arrive? ==> NamesProperly(a.req.op))
    ensures AllProperlyNamed(Next(env, y, a))
  {
    if a.Arrive? { BeginProperlyNamed(env, y.s.now, a.req); }
    if a.Call? && InFlight(y, a.rid) { StepProperlyNamed(env, y.s, y.procs[a.rid], a.choice); }
    hide Begin, Step, Issue, NamesProperly;
  }

  /** So names stay non-empty as long as no update sends a name of blanks. */
  lemma NamesStayNonEmpty(env: Env, s0: Stores, acts: seq<Action>)
    requires Schema(env, s0) && AllNamed(s0.tables)
    requires forall a | a in acts :: a.Arrive? ==> NamesProperly(a.req.op)
    ensures AllNamed(Run(env, Boot(s0), acts).s.tables)
  {
    EmptyNameIffWritten(env, s0, acts);
    RunProperlyNamed(env, s0, acts);
    hide Run, ChangesRow, NamesProperly;
  }
}
