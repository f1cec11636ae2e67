/** Tenants do not interfere: builder and template requests of users who are not members of an organization can
    be taken out of any sequential run without anyone noticing who works with that organization. This holds for
    the organization's own namespace as for one named by another spelling of its id. */
module Isolation {
  import opened Stores
  import opened Programs
  import opened Sequential
  import opened Lifecycle

  // ---- States that look the same from organization n ----

  /** The same namespace with the same objects; resource versions and other namespaces may differ. */
  predicate SameIn(n: string, c: Cluster, d: Cluster) {
    && (n in c.namespaces <==> n in d.namespaces)
    && (forall k | k in c.objects && k.ns == n :: k in d.objects && d.objects[k].content == c.objects[k].content)
    && (forall k | k in d.objects && k.ns == n :: k in c.objects)
  }

  predicate Alike(n: string, s: Stores, t: Stores) {
    t == s.(cluster := t.cluster) && SameIn(n, s.cluster, t.cluster)
  }

  lemma AlikeChain(n: string, s: Stores, t: Stores, u: Stores)
    requires Alike(n, s, t) && Alike(n, t, u)
    ensures Alike(n, s, u)
  {
  }

  lemma AlikeBack(n: string, s: Stores, t: Stores)
    requires Alike(n, s, t)
    ensures Alike(n, t, s)
  {
  }

  // ---- Requests on other namespaces ----

  predicate WorksOn(pc: Pc, m: string) {
    pc.Obj? && !pc.b.Reporting? && pc.b.act.ns == m
  }

  lemma OtherSpaceCall(n: string, c: Cluster, call: ClusterCall)
    requires match call
      case CreateNamespace(m) => m != n
      case DeleteNamespace(m) => m != n
      case CreateObject(k, _) => k.ns != n
      case UpdateObject(k, _) => k.ns != n
      case PatchObject(k, _) => k.ns != n
      case DeleteObject(k) => k.ns != n
      case ReportStatus(k, _) => k.ns != n
      case _ => true
    ensures SameIn(n, c, ExecuteCluster(c, call).0)
  {
    hide WithStatus;
  }

  lemma OtherSpaceStep(env: Env, s: Stores, pc: Pc, c: Choice, n: string, m: string)
    requires WorksOn(pc, m) && m != n
    ensures var (s', q) := Step(env, s, pc, c); Alike(n, s, s') && (q.Finished? || WorksOn(q, m))
  {
    var call := Issue(env, pc, c.id);
    if call.OnCluster? {
      OtherSpaceCall(n, s.cluster, call.c);
    }
    hide ExecuteCluster, ExecuteAccounts, ViewOf, NewBody, WakePatch, Respec;
  }

  lemma {:induction false} OtherSpaceAlone(env: Env, s: Stores, pc: Pc, choices: seq<Choice>, n: string, m: string)
    requires (pc.Finished? || WorksOn(pc, m)) && m != n
    ensures Alike(n, s, RunAlone(env, s, pc, choices).0)
    decreases CallsLeft(pc)
  {
    if !pc.Finished? {
      var (s', q) := Step(env, s, pc, Head(choices));
      OtherSpaceStep(env, s, pc, Head(choices), n, m);
      AloneStep(env, s, pc, choices);
      ResumeAdvances(env, s'.now, pc, Perform(s, Issue(env, pc, Head(choices).id), Head(choices).fault).1);
      OtherSpaceAlone(env, s', q, Rest(choices), n, m);
      AlikeChain(n, s, s', RunAlone(env, s', q, Rest(choices)).0);
    }
    hide Issue, Execute, Resume, SameIn;
  }

  // ---- The same request in two states that look alike ----

  predicate Writes(pc: Pc) {
    pc.Obj? && (pc.b.WriteBack? || pc.b.PatchBack?)
  }

  /** The snapshot is the object as it still is. */
  predicate Current(c: Cluster, pc: Pc)
    requires Writes(pc)
  {
    KeyOf(pc.b.act) in c.objects && c.objects[KeyOf(pc.b.act)] == pc.b.snapshot
  }

  predicate SameWrite(n: string, c: Cluster, d: Cluster, p: Pc, q: Pc)
    requires Writes(p) && Writes(q)
  {
    && p.b.act == q.b.act && p.b.act.ns == n && p.b.snapshot.content == q.b.snapshot.content
    && (p.b.WriteBack? <==> q.b.WriteBack?) && (p.b.PatchBack? ==> p.b.stamp == q.b.stamp)
    && Current(c, p) && Current(d, q)
  }

  /** The two runs of the request stand at the same point. */
  predicate InStep(n: string, s: Stores, t: Stores, p: Pc, q: Pc) {
    && Alike(n, s, t) && !p.Crashed? && !p.Gate?
    && if Writes(p) && Writes(q) then SameWrite(n, s.cluster, t.cluster, p, q)
       else p == q && !Writes(p) && (p.Obj? ==> WorksOn(p, n))
  }

  lemma AccountInStep(env: Env, s: Stores, t: Stores, p: AccountPc, c: Choice, n: string)
    requires Alike(n, s, t)
    ensures var (s', p') := Step(env, s, Account(p), c);
            var (t', q') := Step(env, t, Account(p), c);
            InStep(n, s', t', p', q')
  {
    hide ExecuteAccounts, ExecuteTables, ExecuteCluster, IssueAccount, SameIn;
  }

  lemma OrgInStep(env: Env, s: Stores, t: Stores, p: OrgPc, c: Choice, n: string)
    requires Alike(n, s, t)
    ensures var (s', p') := Step(env, s, Org(p), c);
            var (t', q') := Step(env, t, Org(p), c);
            InStep(n, s', t', p', q')
  {
    if p.CreateEnsure? || p.DeleteSpace? {
      SpaceInStep(env, s, t, p, c, n);
    }
    hide ExecuteAccounts, ExecuteTables, ExecuteCluster, SameIn;
  }

  /** Whether a namespace was there before makes no difference to its creator or its deleter. */
  lemma SpaceInStep(env: Env, s: Stores, t: Stores, p: OrgPc, c: Choice, n: string)
    requires Alike(n, s, t) && (p.CreateEnsure? || p.DeleteSpace?)
    ensures var (s', p') := Step(env, s, Org(p), c);
            var (t', q') := Step(env, t, Org(p), c);
            InStep(n, s', t', p', q')
  {
    hide ExecuteAccounts, ExecuteTables, ResumeGate, ResumeObj, ResumeAccount;
  }

  lemma ChecksInStep(env: Env, s: Stores, t: Stores, b: ObjPc, c: Choice, n: string)
    requires Alike(n, s, t) && (b.Check? || b.Ensure?) && b.act.ns == n
    ensures var (s', p') := Step(env, s, Obj(b), c);
            var (t', q') := Step(env, t, Obj(b), c);
            InStep(n, s', t', p', q')
  {
    hide ExecuteAccounts, ResumeGate, ResumeOrg, ResumeAccount, AfterFirst;
  }

  lemma FirstInStep(env: Env, c: Cluster, d: Cluster, now: nat, act: Act, n: string)
    requires SameIn(n, c, d) && act.ns == n
    ensures var (c', a) := ExecuteCluster(c, IssueFirst(env, act));
            var (d', b) := ExecuteCluster(d, IssueFirst(env, act));
            var p, q := AfterFirst(env, now, act, a), AfterFirst(env, now, act, b);
            && SameIn(n, c', d') && !p.Crashed? && !p.Gate?
            && if Writes(p) && Writes(q) then SameWrite(n, c', d', p, q) else p == q && p.Finished?
  {
    hide ViewOf, NewBody, WithSpec, WithStatus;
    var (c', a) := ExecuteCluster(c, IssueFirst(env, act));
    var (d', b) := ExecuteCluster(d, IssueFirst(env, act));
    if act.List? {
      assert a.objects.Keys == b.objects.Keys;
      assert (map k | k in a.objects :: ViewOf(env, a.objects[k].content))
          == (map k | k in b.objects :: ViewOf(env, b.objects[k].content));
    }
  }

  lemma WriteInStep(env: Env, c: Cluster, d: Cluster, now: nat, p: Pc, q: Pc, n: string)
    requires SameIn(n, c, d) && Writes(p) && Writes(q) && SameWrite(n, c, d, p, q)
    ensures IssueObj(env, p.b).OnCluster? && IssueObj(env, q.b).OnCluster?
    ensures var (c', a) := ExecuteCluster(c, IssueObj(env, p.b).c);
            var (d', b) := ExecuteCluster(d, IssueObj(env, q.b).c);
            && SameIn(n, c', d')
            && ResumeObj(env, now, p.b, a) == ResumeObj(env, now, q.b, b)
            && ResumeObj(env, now, p.b, a).Finished?
  {
    hide ViewOf, WithSpec, WithStatus, WakePatch;
  }

  lemma ObjInStep(env: Env, s: Stores, t: Stores, p: Pc, q: Pc, c: Choice, n: string)
    requires InStep(n, s, t, p, q) && p.Obj? && !p.b.Check? && !p.b.Ensure?
    ensures var (s', p') := Step(env, s, p, c);
            var (t', q') := Step(env, t, q, c);
            InStep(n, s', t', p', q')
  {
    if p.b.First? {
      FirstInStep(env, s.cluster, t.cluster, s.now, p.b.act, n);
    } else {
      WriteInStep(env, s.cluster, t.cluster, s.now, p, q, n);
    }
    FailsInStep(env, s.now, p.b, q.b);
    hide ExecuteCluster, ExecuteTables, ExecuteAccounts, SameIn, SameWrite, AfterFirst, IssueFirst, ResumeGate;
    hide ResumeOrg, ResumeAccount;
  }

  lemma FailsInStep(env: Env, now: nat, p: ObjPc, q: ObjPc)
    requires p.First? || p.WriteBack? || p.PatchBack?
    requires q.First? || q.WriteBack? || q.PatchBack?
    ensures ResumeObj(env, now, p, Failed) == ResumeObj(env, now, q, Failed) == Reject(Internal)
  {
  }

  lemma StepInStep(env: Env, s: Stores, t: Stores, p: Pc, q: Pc, c: Choice, n: string)
    requires InStep(n, s, t, p, q) && Live(p)
    ensures Live(q)
    ensures var (s', p') := Step(env, s, p, c);
            var (t', q') := Step(env, t, q, c);
            InStep(n, s', t', p', q')
  {
    match p
    case Account(a) => AccountInStep(env, s, t, a, c, n);
    case Org(o) => OrgInStep(env, s, t, o, c, n);
    case Obj(b) =>
      if b.Check? || b.Ensure? {
        ChecksInStep(env, s, t, b, c, n);
      } else {
        ObjInStep(env, s, t, p, q, c, n);
      }
    hide Step, Alike, SameWrite;
  }

  lemma {:induction false} AloneInStep(env: Env, s: Stores, t: Stores, p: Pc, q: Pc, choices: seq<Choice>, n: string)
    requires InStep(n, s, t, p, q) && !q.Crashed?
    ensures var (s', p') := RunAlone(env, s, p, choices);
            var (t', q') := RunAlone(env, t, q, choices);
            Alike(n, s', t') && p' == q'
    decreases CallsLeft(p)
  {
    if Live(p) {
      var c := Head(choices);
      StepInStep(env, s, t, p, q, c, n);
      AloneStep(env, s, p, choices);
      AloneStep(env, t, q, choices);
      var (s', p') := Step(env, s, p, c);
      var (t', q') := Step(env, t, q, c);
      ResumeAdvances(env, s'.now, p, Perform(s, Issue(env, p, c.id), c.fault).1);
      AloneInStep(env, s', t', p', q', Rest(choices), n);
    }
    hide Issue, Execute, Resume, Alike, SameWrite;
  }

  // ---- Sequential runs ----

  /** Time passes, or a request is handled from beginning to end. */
  datatype Item = Pass(nanoseconds: nat) | Job(user: string, op: Op, choices: seq<Choice>)

  function After(env: Env, s: Stores, item: Item): Stores {
    match item
    case Pass(d) => s.(now := s.now + d)
    case Job(user, op, choices) => Handle(env, s, user, op, choices).0
  }

  function Final(env: Env, s: Stores, items: seq<Item>): Stores
    decreases |items|
  {
    if items == [] then s else Final(env, After(env, s, items[0]), items[1..])
  }

  /** A builder or template request by someone who is not a member of the organization the namespace is named after. */
  predicate Foreign(env: Env, s: Stores, n: string, item: Item) {
    item.Job? && item.op.OnObjects? && RoleOf(env, s.tables, item.user, n).None?
  }

  /** The run without the foreign requests. */
  function Purge(env: Env, n: string, s: Stores, items: seq<Item>): seq<Item>
    decreases |items|
  {
    if items == [] then []
    else (if Foreign(env, s, n, items[0]) then [] else [items[0]]) + Purge(env, n, After(env, s, items[0]), items[1..])
  }

  /** What the members of the organization get to see: the replies to their requests on its objects, and the
      replies to all requests on accounts and organizations. */
  predicate Observable(env: Env, s: Stores, n: string, item: Item) {
    item.Job? && (item.op.OnObjects? ==> item.op.act.ns == n && RoleOf(env, s.tables, item.user, n).Some?)
  }

  function Observed(env: Env, n: string, s: Stores, items: seq<Item>): seq<Reply>
    decreases |items|
  {
    if items == [] then []
    else
      var i := items[0];
      (if Observable(env, s, n, i) then [Handle(env, s, i.user, i.op, i.choices).1.reply] else [])
        + Observed(env, n, After(env, s, i), items[1..])
  }

  lemma EnterObjectsAt(env: Env, now: nat, user: string, op: Op)
    ensures var p := Enter(env, now, user, op);
            && !p.Crashed? && !p.Gate? && !Writes(p)
            && (p.Obj? ==> op.OnObjects? && p == Obj(Check(user, op.act)))
            && (op.OnObjects? ==> p.Finished? || p.Obj?)
  {
  }

  /** A request on objects by a non-member does nothing to the namespace, whichever namespace it names. */
  lemma ForeignIsInvisible(env: Env, n: string, s: Stores, item: Item)
    requires Foreign(env, s, n, item)
    ensures Alike(n, s, After(env, s, item))
  {
    var p := Enter(env, s.now, item.user, item.op);
    EnterObjectsAt(env, s.now, item.user, item.op);
    if p.Obj? {
      if item.op.act.ns == n {
        CheckTurnsAway(env, s, item.user, item.op.act, item.choices);
      } else {
        OtherSpaceAlone(env, s, p, item.choices, n, item.op.act.ns);
      }
    }
    hide Enter, RunAlone;
  }

  lemma CheckTurnsAway(env: Env, s: Stores, user: string, act: Act, choices: seq<Choice>)
    requires RoleOf(env, s.tables, user, act.ns).None?
    ensures RunAlone(env, s, Obj(Check(user, act)), choices).0 == s
  {
    AloneStep(env, s, Obj(Check(user, act)), choices);
    hide ResumeGate, ResumeAccount, ResumeOrg, IssueAccount, ExecuteAccounts, ExecuteCluster, AfterFirst, Validated;
  }

  /** A request that stays in the run. */
  lemma KeptItem(env: Env, n: string, s: Stores, t: Stores, item: Item)
    requires Alike(n, s, t) && !Foreign(env, s, n, item)
    ensures Alike(n, After(env, s, item), After(env, t, item))
    ensures Observable(env, s, n, item) ==>
              Handle(env, s, item.user, item.op, item.choices).1 == Handle(env, t, item.user, item.op, item.choices).1
  {
    if item.Job? {
      var p := Enter(env, s.now, item.user, item.op);
      EnterObjectsAt(env, s.now, item.user, item.op);
      if p.Obj? && p.b.act.ns != n {
        KeptElsewhere(env, n, s, t, p, item.choices);
      } else {
        AloneInStep(env, s, t, p, p, item.choices, n);
      }
    }
    hide Enter, RunAlone;
  }

  lemma KeptElsewhere(env: Env, n: string, s: Stores, t: Stores, p: Pc, choices: seq<Choice>)
    requires Alike(n, s, t) && p.Obj? && !p.b.Reporting? && p.b.act.ns != n
    ensures Alike(n, RunAlone(env, s, p, choices).0, RunAlone(env, t, p, choices).0)
  {
    OtherSpaceAlone(env, s, p, choices, n, p.b.act.ns);
    OtherSpaceAlone(env, t, p, choices, n, p.b.act.ns);
    var s', t' := RunAlone(env, s, p, choices).0, RunAlone(env, t, p, choices).0;
    AlikeBack(n, s, s');
    AlikeChain(n, s', s, t);
    AlikeChain(n, s', t, t');
    hide RunAlone, Alike;
  }

  /** Noninterference: taking all builder and template requests of non-members out of any sequential run leaves
      the contents of the organization's namespace, all tables and every observable reply as they were. */
  lemma {:induction false} Noninterference(env: Env, n: string, s: Stores, t: Stores, items: seq<Item>)
    requires Alike(n, s, t)
    ensures Alike(n, Final(env, s, items), Final(env, t, Purge(env, n, s, items)))
    ensures Observed(env, n, s, items) == Observed(env, n, t, Purge(env, n, s, items))
    decreases |items|
  {
    if items != [] {
      var item, rest := items[0], items[1..];
      var s' := After(env, s, item);
      var purged := Purge(env, n, s', rest);
      if Foreign(env, s, n, item) {
        ForeignIsInvisible(env, n, s, item);
        AlikeBack(n, s, s');
        AlikeChain(n, s', s, t);
        Noninterference(env, n, s', t, rest);
        assert Purge(env, n, s, items) == purged;
        assert Observed(env, n, s, items) == Observed(env, n, s', rest);
      } else {
        var t' := After(env, t, item);
        KeptItem(env, n, s, t, item);
        Noninterference(env, n, s', t', rest);
        var all := [item] + purged;
        assert Purge(env, n, s, items) == all && all[0] == item && all[1..] == purged;
        assert Final(env, t, all) == Final(env, t', purged);
        assert Observable(env, s, n, item) <==> Observable(env, t, n, item);
      }
    }
    hide After, Handle, SameIn;
  }
}
