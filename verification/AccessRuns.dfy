/** Nobody works on an organization or its namespace without having been let in: over every interleaved run each
    call past a check was preceded, in the same request, by a check that its user passed. */
module AccessRuns {
  import opened Wrappers
  import opened Stores
  import opened Programs
  import opened Runs
  import opened Saga
  import opened Lifecycle

  /** The points behind a check. */
  predicate Guarded(pc: Pc) {
    || (pc.Obj? && !pc.b.Check? && !pc.b.Reporting?)
    || (pc.Org? && (pc.o.UpdateWrite? || pc.o.DeleteSpace? || pc.o.DeleteRow? || pc.o.MembersRead?))
  }

  /** At this event a user passed the check for what the request is about to do: any member may work on builders
      and templates and see the members, owners and admins may update, and only an owner may delete. */
  predicate LetsIn(env: Env, e: Event, pc: Pc)
    requires Guarded(pc)
  {
    && e.fault.NoFault?
    && var t := e.before.tables;
       match pc
       case Obj(b) => e.pc.Obj? && e.pc.b.Check? && e.pc.b.act == b.act && RoleOf(env, t, e.pc.b.user, b.act.ns).Some?
       case Org(o) =>
         && e.pc.Org?
         && (match o
             case UpdateWrite(user, id, change) =>
               && e.pc.o.UpdateRole? && e.pc.o.user == user && e.pc.o.id == id
               && change == ChangeOf(e.pc.o.name, e.pc.o.slug, e.pc.o.plan)
               && (RoleOf(env, t, user, id) == Some(Owner) || RoleOf(env, t, user, id) == Some(Admin))
             case MembersRead(id) =>
               e.pc.o.MembersCheck? && e.pc.o.id == id && RoleOf(env, t, e.pc.o.user, id).Some?
             case DeleteSpace(id) =>
               e.pc.o.DeleteRole? && e.pc.o.id == id && RoleOf(env, t, e.pc.o.user, id) == Some(Owner)
             case DeleteRow(id) =>
               e.pc.o.DeleteRole? && e.pc.o.id == id && RoleOf(env, t, e.pc.o.user, id) == Some(Owner)
             case _ => false)
  }

  /** A guarded point is reached by passing the check just now, or from a guarded point of the same kind. */
  predicate Proceeds(env: Env, e: Event) {
    Guarded(e.next) ==>
      || LetsIn(env, e, e.next)
      || (e.pc.Obj? && Guarded(e.pc) && e.next.Obj? && e.next.b.act == e.pc.b.act)
      || (e.pc.Org? && e.pc.o.DeleteSpace? && e.next == Org(DeleteRow(e.pc.o.id)))
  }

  lemma OrgProceeds(env: Env, y: Sys, rid: ReqId, c: Choice)
    requires InFlight(y, rid) && y.procs[rid].Org?
    ensures Proceeds(env, NextEvent(env, y, rid, c))
  {
    hide ExecuteAccounts, ExecuteCluster, ResumeGate, ResumeAccount, ResumeObj, IssueAccount, IssueObj, ChangeOf;
  }

  lemma ObjProceeds(env: Env, y: Sys, rid: ReqId, c: Choice)
    requires InFlight(y, rid) && y.procs[rid].Obj?
    ensures Proceeds(env, NextEvent(env, y, rid, c))
  {
    hide ExecuteAccounts, ExecuteCluster, ResumeGate, ResumeAccount, ResumeOrg, IssueAccount, IssueOrg, IssueFirst;
  }

  lemma GateProceeds(env: Env, y: Sys, rid: ReqId, c: Choice)
    requires InFlight(y, rid) && (y.procs[rid].Gate? || y.procs[rid].Account?)
    ensures Proceeds(env, NextEvent(env, y, rid, c))
  {
    var (s', a) := Perform(y.s, Issue(env, y.procs[rid], c.id), c.fault);
    if y.procs[rid].Gate? {
      GateLeadsTo(env, s'.now, y.procs[rid].g, a);
    }
    hide Execute, Issue, ResumeGate, ResumeOrg, ResumeObj;
  }

  lemma EventProceeds(env: Env, y: Sys, rid: ReqId, c: Choice)
    requires InFlight(y, rid)
    ensures Proceeds(env, NextEvent(env, y, rid, c)) && Follows(y, NextEvent(env, y, rid, c))
  {
    match y.procs[rid]
    case Org(_) => OrgProceeds(env, y, rid, c);
    case Obj(_) => ObjProceeds(env, y, rid, c);
    case _ => GateProceeds(env, y, rid, c);
    hide Step, Issue, Proceeds;
  }

  ghost predicate LetIn(env: Env, log: seq<Event>, k: int, rid: ReqId, pc: Pc)
    requires Guarded(pc)
  {
    exists c | 0 <= c < k && c < |log| :: log[c].rid == rid && LetsIn(env, log[c], pc)
  }

  ghost predicate AllLetIn(env: Env, y: Sys) {
    && (forall r | r in y.procs && Guarded(y.procs[r]) :: LetIn(env, y.log, |y.log|, r, y.procs[r]))
    && (forall i | 0 <= i < |y.log| && Guarded(y.log[i].pc) :: LetIn(env, y.log, i, y.log[i].rid, y.log[i].pc))
  }

  lemma LetInStays(env: Env, log: seq<Event>, e: Event, k: int, rid: ReqId, pc: Pc)
    requires Guarded(pc) && LetIn(env, log, k, rid, pc)
    ensures LetIn(env, log + [e], k, rid, pc) && LetIn(env, log + [e], |log| + 1, rid, pc)
  {
    var c :| 0 <= c < k && c < |log| && log[c].rid == rid && LetsIn(env, log[c], pc);
    assert (log + [e])[c] == log[c];
    hide LetsIn;
  }

  /** The same check covers the next point of the request. */
  lemma StillLetIn(env: Env, log: seq<Event>, k: int, rid: ReqId, pc: Pc, next: Pc)
    requires Guarded(pc) && Guarded(next) && LetIn(env, log, k, rid, pc)
    requires || (pc.Obj? && next.Obj? && next.b.act == pc.b.act)
             || (pc.Org? && pc.o.DeleteSpace? && next == Org(DeleteRow(pc.o.id)))
    ensures LetIn(env, log, k, rid, next)
  {
    var c :| 0 <= c < k && c < |log| && log[c].rid == rid && LetsIn(env, log[c], pc);
    assert LetsIn(env, log[c], next);
  }

  lemma RecordKeepsLetIn(env: Env, y: Sys, e: Event)
    requires AllLetIn(env, y) && Follows(y, e) && Proceeds(env, e)
    ensures AllLetIn(env, Record(y, e))
  {
    var y' := Record(y, e);
    forall r | r in y'.procs && Guarded(y'.procs[r]) ensures LetIn(env, y'.log, |y'.log|, r, y'.procs[r]) {
      if r != e.rid {
        LetInStays(env, y.log, e, |y.log|, r, y.procs[r]);
      } else if LetsIn(env, e, e.next) {
        assert y'.log[|y.log|] == e;
      } else {
        LetInStays(env, y.log, e, |y.log|, r, e.pc);
        StillLetIn(env, y'.log, |y'.log|, r, e.pc, e.next);
      }
    }
    forall i | 0 <= i < |y'.log| && Guarded(y'.log[i].pc) ensures LetIn(env, y'.log, i, y'.log[i].rid, y'.log[i].pc) {
      LetInStays(env, y.log, e, i, y'.log[i].rid, y'.log[i].pc);
    }
    hide LetIn, LetsIn;
  }

  lemma NextKeepsLetIn(env: Env, y: Sys, a: Action)
    requires AllLetIn(env, y)
    ensures AllLetIn(env, Next(env, y, a))
  {
    NextIsCallOrNot(env, y, a);
    if NoCall(y, Next(env, y, a)) {
      forall r | r in Next(env, y, a).procs && Guarded(Next(env, y, a).procs[r])
        ensures r in y.procs && Next(env, y, a).procs[r] == y.procs[r]
      {
      }
    } else {
      EventProceeds(env, y, a.rid, a.choice);
      RecordKeepsLetIn(env, y, NextEvent(env, y, a.rid, a.choice));
    }
    hide Next, NextEvent, LetIn, Proceeds;
  }

  /** Over every run: each call that reads or changes builders, templates, members or an existing organization
      was preceded in the same request by a check its user passed, with the rank the call needs. */
  lemma {:induction false} EveryCallIsLetIn(env: Env, s0: Stores, acts: seq<Action>)
    ensures AllLetIn(env, Run(env, Boot(s0), acts))
  {
    hide Next;
    if acts != [] {
      EveryCallIsLetIn(env, s0, acts[..|acts| - 1]);
      NextKeepsLetIn(env, Run(env, Boot(s0), acts[..|acts| - 1]), acts[|acts| - 1]);
      hide AllLetIn;
    }
    hide LetIn;
  }
}
