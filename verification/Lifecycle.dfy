/** What one call of a request does to organizations and namespaces, as facts about its event. The
    invariants of whole runs are proved from these facts alone. */
module Lifecycle {
  import opened Wrappers
  import opened Stores
  import opened Programs
  import opened Runs
  import Slugs

  // ---- Tables ----

  /** The constraints of the schema, identifiers in normal form, and that generated ones avoid every name in use. */
  ghost predicate Schema(env: Env, s: Stores) {
    && (forall p | p in s.tables.members :: p.1 in s.tables.orgs)
    && (forall m, n | m in s.tables.orgs && n in s.tables.orgs ::
          s.tables.orgs[m].slug == s.tables.orgs[n].slug ==> m == n)
    && (forall n | n in s.tables.orgs :: n in s.issued && Normal(env, n))
    && (forall n | n in s.cluster.namespaces && Normal(env, n) :: n in s.issued)
  }

  predicate ValidRow(row: OrgRow) {
    Slugs.ValidSlug(row.slug) && LegalPlan(row.plan)
  }

  predicate ValidChange(c: OrgChange) {
    (c.slug.Some? ==> Slugs.ValidSlug(c.slug.value)) && (c.plan.Some? ==> LegalPlan(c.plan.value))
  }

  ghost predicate HasMember(t: Tables, n: string) {
    exists u :: (u, n) in t.members
  }

  ghost predicate Owned(t: Tables, n: string) {
    exists u :: (u, n) in t.members && t.members[(u, n)] == Owner
  }

  /** The user's role in the organization the text names. */
  function RoleOf(env: Env, t: Tables, user: string, text: string): Option<Role> {
    var n := env.uuid(text);
    if n.Some? && (user, n.value) in t.members then Some(t.members[(user, n.value)]) else None
  }

  // ---- Facts about one event ----

  predicate MakesRow(env: Env, e: Event, n: string) {
    && e.pc.Org? && e.pc.o.CreateInsert? && e.call == OnTables(InsertOrg(Some(n), e.pc.o.org))
    && n !in e.before.issued && n in e.after.issued && Normal(env, n)
    && !SlugTaken(e.before.tables, e.pc.o.org.slug, n)
    && e.after.tables == e.before.tables.(orgs := e.before.tables.orgs[n := e.pc.o.org])
    && (if e.fault.NoFault? then e.next == Org(CreateOwner(e.pc.o.user, n, e.pc.o.org))
        else e.fault.LostReply? && e.next.Finished?)
  }

  /** The point of a request whose next call deletes the row. */
  predicate AtRemoval(env: Env, pc: Pc, n: string) {
    pc == Org(CreateUndo(n)) || (pc.Org? && pc.o.DeleteRow? && Spells(env, pc.o.id, n))
  }

  predicate RemovesRow(env: Env, e: Event, n: string) {
    AtRemoval(env, e.pc, n) && e.call == OnTables(DeleteOrg(Some(n))) && e.next.Finished?
  }

  ghost predicate RowFacts(env: Env, e: Event) {
    && (forall n :: RowMade(e, n) ==> MakesRow(env, e, n))
    && (forall n :: RowGone(e, n) ==> RemovesRow(env, e, n))
  }

  predicate MakesSpace(e: Event, n: string) {
    && e.call == OnCluster(CreateNamespace(n))
    && ((e.pc.Org? && e.pc.o.CreateEnsure? && e.pc.o.id == n
         && (if e.fault.NoFault? then e.next.Finished? else e.next == Org(CreateUndo(n))))
        || (e.pc.Obj? && e.pc.b.Ensure? && e.pc.b.act.ns == n
            && (e.next.Finished? || (e.next.Obj? && e.next.b.First?))))
  }

  ghost predicate SpaceFacts(e: Event) {
    && (forall n :: SpaceMade(e, n) ==> MakesSpace(e, n) && !e.fault.FailStop?)
    && (forall n :: SpaceGone(e, n) ==> e.call == OnCluster(DeleteNamespace(n)))
    && (forall n :: Cleared(e, n) ==> n !in e.after.cluster.namespaces && e.pc == Org(DeleteSpace(n)))
  }

  /** The request will not create a namespace any more. */
  predicate PastEnsure(pc: Pc) {
    !Live(pc) || (pc.Obj? && !pc.b.Check? && !pc.b.Ensure?)
  }

  /** Where a request at one of the saga's points came from. */
  ghost predicate CameFrom(env: Env, e: Event) {
    && !e.next.Crashed?
    && (e.next.Gate? ==> e.pc.Gate?)
    && (PastEnsure(e.pc) ==> PastEnsure(e.next))
    && (e.next.Obj? && e.next.b.Check? ==> e.pc.Gate?)
    && (e.next.Obj? && e.next.b.Ensure? ==>
          var n := env.uuid(e.next.b.act.ns);
          e.pc.Obj? && e.pc.b.Check? && n.Some? && Admits(e, n.value))
    && (e.next.Org? ==> OrgCameFrom(env, e, e.next.o))
  }

  ghost predicate OrgCameFrom(env: Env, e: Event, q: OrgPc) {
    && (q.CreateInsert? ==> e.pc.Gate? && ValidRow(q.org) && q.org.name != "")
    && (q.DeleteRole? || q.UpdateRole? ==> e.pc.Gate?)
    && (q.CreateOwner? ==> MakesRow(env, e, q.id))
    && (q.CreateEnsure? ==> e.pc.Org? && e.pc.o.CreateOwner? && e.pc.o.id == q.id && Owned(e.after.tables, q.id))
    && (q.CreateUndo? ==> e.pc.Org? && (e.pc.o.CreateOwner? || e.pc.o.CreateEnsure?) && e.pc.o.id == q.id)
    && (q.DeleteSpace? ==> e.pc.Org? && e.pc.o.DeleteRole? && e.pc.o.id == q.id && MemberKnown(env, e, q.id))
    && (q.DeleteRow? ==> e.pc == Org(DeleteSpace(q.id)) && Cleared(e, q.id))
    && (q.UpdateWrite? ==> e.pc.Org? && e.pc.o.UpdateRole? && MemberKnown(env, e, q.id) && ValidChange(q.change)
                           && q.change == ChangeOf(e.pc.o.name, e.pc.o.slug, e.pc.o.plan))
  }

  /** The text names an organization that had a member. */
  ghost predicate MemberKnown(env: Env, e: Event, text: string) {
    env.uuid(text).Some? && HasMember(e.before.tables, env.uuid(text).value)
  }

  /** What may happen to the rows and memberships that were there. */
  ghost predicate TableFacts(env: Env, e: Event) {
    || e.after.tables == e.before.tables
    || (exists n :: MakesRow(env, e, n))
    || (exists n :: DropsRow(env, e, n))
    || AddsOwner(e)
    || ChangesRow(env, e)
  }

  /** The row is deleted together with all its memberships. */
  predicate DropsRow(env: Env, e: Event, n: string) {
    && AtRemoval(env, e.pc, n)
    && e.after.tables.orgs == e.before.tables.orgs - {n}
    && e.after.tables.members == map p | p in e.before.tables.members && p.1 != n :: e.before.tables.members[p]
  }

  predicate AddsOwner(e: Event) {
    && e.pc.Org? && e.pc.o.CreateOwner? && e.pc.o.id in e.before.tables.orgs
    && e.after.tables == e.before.tables.(members := e.before.tables.members[(e.pc.o.user, e.pc.o.id) := Owner])
  }

  predicate ChangesRow(env: Env, e: Event) {
    && e.pc.Org? && e.pc.o.UpdateWrite? && env.uuid(e.pc.o.id).Some?
    && var orgs := e.before.tables.orgs;
       var n := env.uuid(e.pc.o.id).value;
       && n in orgs
       && (e.pc.o.change.slug.Some? ==> !SlugTaken(e.before.tables, e.pc.o.change.slug.value, n))
       && e.after.tables == e.before.tables.(orgs := orgs[n := Changed(orgs[n], e.pc.o.change)])
  }

  /** How a creation goes on after its row is there. */
  predicate CreateFacts(e: Event) {
    && (e.pc.Org? && e.pc.o.CreateOwner? ==>
          e.next.Org? && (e.next.o.CreateEnsure? || e.next.o.CreateUndo?) && e.next.o.id == e.pc.o.id)
    && (e.pc.Org? && e.pc.o.CreateUndo? ==>
          e.next.Finished? && (e.fault.FailStop? || e.pc.o.id !in e.after.tables.orgs))
  }

  /** The user and the organization whose membership a point checks, unless the text is no identifier. */
  function Checked(env: Env, pc: Pc): Option<(string, string)> {
    match pc
    case Org(o) =>
      if o.UpdateRole? || o.DeleteRole? || o.OrgRead? || o.MembersCheck? then With(o.user, env.uuid(o.id)) else None
    case Obj(b) => if b.Check? then With(b.user, env.uuid(b.act.ns)) else None
    case _ => None
  }

  function With(user: string, n: RowId): Option<(string, string)> {
    if n.Some? then Some((user, n.value)) else None
  }

  /** Where a check by someone who is not a member ends: organizations are not found by outsiders, their members
      and objects are denied to them; a check that fails says so. */
  function TurnedAway(e: Event): Pc {
    Reject(if !e.fault.NoFault? then Internal
           else if e.pc.Org? && !e.pc.o.MembersCheck? then NotFound else PermissionDenied)
  }

  /** The request ends here and changes nothing. */
  predicate EndsTurnedAway(e: Event) {
    e.next == TurnedAway(e) && e.after.tables == e.before.tables && e.after.cluster == e.before.cluster
  }

  /** A check by someone who is not a member ends the request there and changes nothing. */
  predicate CheckFacts(env: Env, e: Event) {
    Checked(env, e.pc).Some? && Checked(env, e.pc).value !in e.before.tables.members ==> EndsTurnedAway(e)
  }

  ghost predicate Facts(env: Env, e: Event) {
    && RowFacts(env, e) && SpaceFacts(e) && CameFrom(env, e) && TableFacts(env, e) && CreateFacts(e)
    && CheckFacts(env, e) && e.before.issued <= e.after.issued
  }

  // ---- Why the facts hold ----

  lemma FactsHold(env: Env, y: Sys, rid: ReqId, c: Choice)
    requires InFlight(y, rid)
    ensures Facts(env, NextEvent(env, y, rid, c))
  {
    RowFactsHold(env, y, rid, c);
    SpaceFactsHold(env, y, rid, c);
    CameFromHolds(env, y, rid, c);
    TableFactsHold(env, y, rid, c);
    CreateFactsHold(env, y, rid, c);
    CheckFactsHold(env, y, rid, c);
    hide CreateFacts, CheckFacts, Issue, ExecuteAccounts, ExecuteTables, ExecuteCluster, Resume, RowFacts, SpaceFacts;
    hide CameFrom, TableFacts;
  }

  lemma RowFactsHold(env: Env, y: Sys, rid: ReqId, c: Choice)
    requires InFlight(y, rid)
    ensures RowFacts(env, NextEvent(env, y, rid, c))
  {
    hide ExecuteAccounts, ExecuteCluster, ResumeGate, ResumeAccount, ResumeObj, IssueAccount;
  }

  lemma SpaceFactsHold(env: Env, y: Sys, rid: ReqId, c: Choice)
    requires InFlight(y, rid)
    ensures SpaceFacts(NextEvent(env, y, rid, c))
  {
    hide ExecuteAccounts, ExecuteTables, ResumeGate, ResumeAccount, IssueAccount, ViewOf;
  }

  /** The points a handler can start from. */
  predicate FirstPoint(pc: Pc) {
    match pc
    case Finished(_) => true
    case Crashed => false
    case Gate(_) => false
    case Account(_) => true
    case Org(o) => (o.CreateInsert? && ValidRow(o.org) && o.org.name != "") || o.UpdateRole? || o.DeleteRole?
                   || o.OrgRead? || o.OrgList? || o.MembersCheck?
    case Obj(b) => b.Check?
  }

  lemma EnterFirst(env: Env, now: nat, user: string, op: Op)
    ensures FirstPoint(Enter(env, now, user, op))
  {
  }

  lemma BeginFirst(env: Env, now: nat, req: Request)
    ensures FirstPoint(Begin(env, now, req)) || (Begin(env, now, req).Gate? && Begin(env, now, req).g.KeyLookup?)
  {
    forall user ensures FirstPoint(Enter(env, now, user, req.op)) {
      EnterFirst(env, now, user, req.op);
    }
    hide Enter, MethodOf;
  }

  lemma GateLeadsTo(env: Env, now: nat, p: GatePc, a: Answer)
    ensures FirstPoint(ResumeGate(env, now, p, a)) || ResumeGate(env, now, p, a).Gate?
  {
    forall user, op ensures FirstPoint(Enter(env, now, user, op)) {
      EnterFirst(env, now, user, op);
    }
    hide Enter, MethodOf;
  }

  lemma ObjLeadsTo(env: Env, now: nat, p: ObjPc, a: Answer)
    ensures var q := ResumeObj(env, now, p, a);
            && (q.Finished? || q.Obj?)
            && (q.Obj? ==> !q.b.Check? && (q.b.Ensure? ==> p.Check? && q.b.act == p.act && a == MemberIs(true)))
  {
  }

  lemma CameFromHolds(env: Env, y: Sys, rid: ReqId, c: Choice)
    requires InFlight(y, rid)
    ensures CameFrom(env, NextEvent(env, y, rid, c))
  {
    match y.procs[rid]
    case Gate(p) => GateCameFrom(env, y, rid, c);
    case Account(_) => AccountCameFrom(env, y, rid, c);
    case Org(p) => OrgCameFromHolds(env, y, rid, c);
    case Obj(p) => ObjCameFrom(env, y, rid, c);
  }

  lemma GateCameFrom(env: Env, y: Sys, rid: ReqId, c: Choice)
    requires InFlight(y, rid) && y.procs[rid].Gate?
    ensures CameFrom(env, NextEvent(env, y, rid, c))
  {
    var (s', a) := Perform(y.s, Issue(env, y.procs[rid], c.id), c.fault);
    GateLeadsTo(env, s'.now, y.procs[rid].g, a);
    hide Execute, Issue, ResumeGate;
  }

  lemma AccountCameFrom(env: Env, y: Sys, rid: ReqId, c: Choice)
    requires InFlight(y, rid) && y.procs[rid].Account?
    ensures CameFrom(env, NextEvent(env, y, rid, c))
  {
    hide Execute, Issue;
  }

  lemma OrgCameFromHolds(env: Env, y: Sys, rid: ReqId, c: Choice)
    requires InFlight(y, rid) && y.procs[rid].Org?
    ensures CameFrom(env, NextEvent(env, y, rid, c))
  {
    hide ExecuteAccounts, ResumeGate, ResumeAccount, ResumeObj, IssueAccount, IssueObj;
    var e := NextEvent(env, y, rid, c);
    var q := e.next;
    if q.Org? && q.o.CreateEnsure? {
      assert (e.pc.o.user, q.o.id) in e.after.tables.members;
    } else if q.Org? && (q.o.DeleteSpace? || q.o.UpdateWrite?) {
      assert (e.pc.o.user, env.uuid(q.o.id).value) in e.before.tables.members;
    }
  }

  lemma ObjCameFrom(env: Env, y: Sys, rid: ReqId, c: Choice)
    requires InFlight(y, rid) && y.procs[rid].Obj?
    ensures CameFrom(env, NextEvent(env, y, rid, c))
  {
    var (s', a) := Perform(y.s, Issue(env, y.procs[rid], c.id), c.fault);
    ObjLeadsTo(env, s'.now, y.procs[rid].b, a);
    hide ExecuteAccounts, ExecuteCluster, ResumeGate, ResumeAccount, ResumeObj, IssueAccount, IssueOrg;
  }

  lemma TableFactsHold(env: Env, y: Sys, rid: ReqId, c: Choice)
    requires InFlight(y, rid)
    ensures TableFacts(env, NextEvent(env, y, rid, c))
  {
    hide ExecuteAccounts, ExecuteCluster, ResumeGate, ResumeAccount, ResumeObj, IssueAccount;
    var e := NextEvent(env, y, rid, c);
    if e.pc.Org? && e.pc.o.CreateInsert? {
      assert e.after.tables == e.before.tables || MakesRow(env, e, c.id);
    } else if e.pc.Org? && (e.pc.o.CreateUndo? || e.pc.o.DeleteRow?) {
      assert e.after.tables == e.before.tables || DropsRow(env, e, e.call.t.orgId.value);
    }
  }

  lemma CreateFactsHold(env: Env, y: Sys, rid: ReqId, c: Choice)
    requires InFlight(y, rid)
    ensures CreateFacts(NextEvent(env, y, rid, c))
  {
    hide ExecuteAccounts, ExecuteCluster, ResumeGate, ResumeAccount, ResumeObj, IssueAccount, IssueObj;
  }

  lemma CheckFactsHold(env: Env, y: Sys, rid: ReqId, c: Choice)
    requires InFlight(y, rid)
    ensures CheckFacts(env, NextEvent(env, y, rid, c))
  {
    hide ExecuteAccounts, ExecuteCluster, ResumeGate, ResumeAccount, IssueAccount, IssueFirst, AfterFirst, Validated;
  }
}
