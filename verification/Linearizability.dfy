/** Requests on builder and template objects act atomically. Updates and wakes read an object and write it
    back later; still every interleaved run leaves the contents, and gives the replies, of a run in which each
    request happens at once, at its last call. */
module Linearizability {
  import opened Stores
  import opened Programs
  import opened Runs
  import opened Saga
  import Lifecycle
  import Sessions

  /** What is stored, without the bookkeeping of resource versions. */
  function Contents(c: Cluster): map<Key, Content> {
    map k | k in c.objects :: c.objects[k].content
  }

  function Stamped(c: Content, stamp: string): Content {
    c.(annotations := c.annotations[LAST_USED := stamp])
  }

  /** The atomic specification of an object request: the new contents and the reply. */
  function Atomic(env: Env, spaces: set<string>, m: map<Key, Content>, act: Act, stamp: string)
    : (map<Key, Content>, Reply)
  {
    var key := KeyOf(act);
    match act
    case List(kind, ns) => (m, ObjectsReply(map k | k in m && k.kind == kind && k.ns == ns :: ViewOf(env, m[k])))
    case Get(_, _, _) => (m, if key in m then ObjectReply(key, ViewOf(env, m[key])) else Rejected(NotFound))
    case Create(_, _, arg) =>
      var content := Content(NewBody(env, arg, NO_STATUS), map[]);
      if key in m || key.ns !in spaces then (m, Rejected(Internal))
      else (m[key := content], ObjectReply(key, ViewOf(env, content)))
    case Update(_, _, arg) =>
      if key !in m then (m, Rejected(NotFound))
      else (m[key := WithSpec(env, m[key], arg)], ObjectReply(key, ViewOf(env, WithSpec(env, m[key], arg))))
    case Delete(_, _, _) => (m - {key}, Deleted)
    case Wake(_, _) =>
      if key !in m then (m, Rejected(NotFound))
      else (m[key := Stamped(m[key], stamp)], ObjectReply(key, ViewOf(env, m[key])))
  }

  /** The points of a request that may be its last. */
  predicate AtObject(pc: Pc) {
    pc.Obj? && (pc.b.First? || pc.b.WriteBack? || pc.b.PatchBack?)
  }

  function StampOf(b: ObjPc): string {
    if b.PatchBack? then b.stamp else ""
  }

  /** The wake's patch came out empty, because its snapshot already had the stamp, while the object no longer has it. */
  predicate SkipsWake(c: Cluster, b: ObjPc) {
    && b.PatchBack? && LAST_USED in b.snapshot.content.annotations
    && b.snapshot.content.annotations[LAST_USED] == b.stamp
    && KeyOf(b.act) in c.objects
    && !(LAST_USED in c.objects[KeyOf(b.act)].content.annotations
         && c.objects[KeyOf(b.act)].content.annotations[LAST_USED] == b.stamp)
  }

  /** Snapshots in flight are of the object with that version. */
  predicate Fits(c: Cluster, pc: Pc) {
    && (pc.Obj? && pc.b.WriteBack? ==>
          && pc.b.act.Update? && pc.b.snapshot.version <= c.version
          && (KeyOf(pc.b.act) in c.objects && c.objects[KeyOf(pc.b.act)].version == pc.b.snapshot.version ==>
                c.objects[KeyOf(pc.b.act)] == pc.b.snapshot))
    && (pc.Obj? && pc.b.PatchBack? ==> pc.b.act.Wake?)
  }

  predicate Versioned(c: Cluster) {
    forall k | k in c.objects :: c.objects[k].version <= c.version
  }

  predicate Succeeds(q: Pc) {
    q.Finished? && !q.reply.Rejected?
  }

  // ---- The last call ----

  lemma RewriteContents(c: Cluster, key: Key, content: Content)
    requires key in c.objects
    ensures Contents(Rewrite(c, key, content)) == Contents(c)[key := content]
    ensures key in Rewrite(c, key, content).objects && Rewrite(c, key, content).objects[key].content == content
  {
  }

  /** What one call on an object does, when the request stands at `b` and goes on at `q`. */
  predicate ActsAtomically(env: Env, c: Cluster, c': Cluster, b: ObjPc, q: Pc)
    requires b.First? || b.WriteBack? || b.PatchBack?
  {
    var (m, reply) := Atomic(env, c.namespaces, Contents(c), b.act, StampOf(b));
    && (Contents(c') == if Succeeds(q) && !SkipsWake(c, b) then m else Contents(c))
    && (Succeeds(q) || q == Reject(NotFound) ==> q.reply == reply)
    && (Succeeds(q) && SkipsWake(c, b) ==> m != Contents(c))
  }

  lemma ReadIsAtomic(env: Env, now: nat, c: Cluster, act: Act)
    requires act.List? || act.Get? || act.Update? || act.Wake?
    ensures var (c', a) := ExecuteCluster(c, IssueFirst(env, act));
            ActsAtomically(env, c, c', First(act), AfterFirst(env, now, act, a))
  {
    hide NewBody, ViewOf, WithSpec, WithStatus;
  }

  lemma CreateOrDeleteIsAtomic(env: Env, now: nat, c: Cluster, act: Act)
    requires act.Create? || act.Delete?
    ensures var (c', a) := ExecuteCluster(c, IssueFirst(env, act));
            ActsAtomically(env, c, c', First(act), AfterFirst(env, now, act, a))
  {
    hide NewBody, ViewOf, WithSpec, WithStatus;
  }

  lemma FirstIsAtomic(env: Env, now: nat, c: Cluster, act: Act)
    ensures var (c', a) := ExecuteCluster(c, IssueFirst(env, act));
            ActsAtomically(env, c, c', First(act), AfterFirst(env, now, act, a))
  {
    if act.Create? || act.Delete? {
      CreateOrDeleteIsAtomic(env, now, c, act);
    } else {
      ReadIsAtomic(env, now, c, act);
    }
    hide ExecuteCluster, IssueFirst, AfterFirst, ActsAtomically;
  }

  /** The same objects with the same annotations and the same status. */
  predicate SameMarks(c: Cluster, c': Cluster) {
    && (forall k | k in c'.objects :: k in c.objects)
    && (forall k | k in c.objects ::
          && k in c'.objects
          && var was, now := c.objects[k].content, c'.objects[k].content;
             && now.annotations == was.annotations
             && (was.body.BuilderBody? && now.body.BuilderBody? ==> now.body.status == was.body.status))
  }

  lemma WriteBackIsAtomic(env: Env, now: nat, c: Cluster, act: Act, snapshot: Object)
    requires Fits(c, Obj(WriteBack(act, snapshot)))
    ensures var (c', a) := ExecuteCluster(c, UpdateObject(KeyOf(act), Respec(env, act, snapshot)));
            && ActsAtomically(env, c, c', WriteBack(act, snapshot), ResumeObj(env, now, WriteBack(act, snapshot), a))
            && SameMarks(c, c')
  {
    if KeyOf(act) in c.objects {
      RewriteContents(c, KeyOf(act), Respec(env, act, snapshot).content);
    }
    hide ViewOf, WithSpec, Rewrite, NewBody;
  }

  lemma PatchBackIsAtomic(env: Env, now: nat, c: Cluster, act: Act, snapshot: Object, stamp: string)
    requires act.Wake?
    ensures var (c', a) := ExecuteCluster(c, PatchObject(KeyOf(act), WakePatch(snapshot.content.annotations, stamp)));
            var b := PatchBack(act, snapshot, stamp);
            ActsAtomically(env, c, c', b, ResumeObj(env, now, b, a))
  {
    var key := KeyOf(act);
    if key in c.objects {
      var was := c.objects[key].content;
      var patch := WakePatch(snapshot.content.annotations, stamp);
      RewriteContents(c, key, was.(annotations := was.annotations + patch));
      assert patch == map[] ==> was.annotations + patch == was.annotations;
      assert patch != map[] ==> was.annotations + patch == was.annotations[LAST_USED := stamp];
      assert LAST_USED in was.annotations && was.annotations[LAST_USED] == stamp ==> Stamped(was, stamp) == was;
      assert Stamped(was, stamp).annotations[LAST_USED] == stamp;
    }
    hide Rewrite;
  }

  // ---- One event ----

  /** Where the request would go on if the reply of its call arrived. */
  function Undisturbed(env: Env, e: Event): Pc
    requires Live(e.pc)
  {
    Resume(env, e.after.now, e.pc, Execute(e.before, e.call).1)
  }

  /** The event is the last call of an object request and does what was asked. */
  predicate Commits(env: Env, e: Event) {
    && AtObject(e.pc) && !e.fault.FailStop? && Succeeds(Undisturbed(env, e)) && !SkipsWake(e.before.cluster, e.pc.b)
  }

  /** The atomic effect of an event on the contents. */
  function Replayed(env: Env, m: map<Key, Content>, e: Event): map<Key, Content> {
    if Commits(env, e) then Atomic(env, e.before.cluster.namespaces, m, e.pc.b.act, StampOf(e.pc.b)).0
    else if e.fault.FailStop? || !e.call.OnCluster? then m
    else match e.call.c
      case ReportStatus(key, status) => if key in m then m[key := WithStatus(m[key], status)] else m
      case DeleteNamespace(n) =>
        if n in e.before.cluster.namespaces then map k | k in m && k.ns != n :: m[k] else m
      case _ => m
  }

  /** Replies are those of the atomic specification, and a request told of an error did nothing unless its
      reply was lost. */
  predicate AnswersAtomically(env: Env, m: map<Key, Content>, e: Event) {
    AtObject(e.pc) ==>
      && (Succeeds(e.next) || e.next == Reject(NotFound) ==>
            e.next.reply == Atomic(env, e.before.cluster.namespaces, m, e.pc.b.act, StampOf(e.pc.b)).1)
      && (Commits(env, e) ==> e.next.Finished?)
      && (!e.fault.LostReply? ==> (Commits(env, e) <==> Succeeds(e.next) && !SkipsWake(e.before.cluster, e.pc.b)))
  }

  lemma CallIsAtomic(env: Env, now: nat, c: Cluster, b: ObjPc)
    requires (b.First? || b.WriteBack? || b.PatchBack?) && Fits(c, Obj(b))
    ensures IssueObj(env, b).OnCluster?
    ensures var (c', a) := ExecuteCluster(c, IssueObj(env, b).c);
            ActsAtomically(env, c, c', b, ResumeObj(env, now, b, a))
  {
    match b
    case First(act) => FirstIsAtomic(env, now, c, act);
    case WriteBack(act, snapshot) => WriteBackIsAtomic(env, now, c, act, snapshot);
    case PatchBack(act, snapshot, stamp) => PatchBackIsAtomic(env, now, c, act, snapshot, stamp);
    hide ExecuteCluster, AfterFirst, IssueFirst, ActsAtomically, Respec, WakePatch;
  }

  lemma FailedCallEnds(env: Env, now: nat, b: ObjPc)
    requires b.First? || b.WriteBack? || b.PatchBack?
    ensures ResumeObj(env, now, b, Failed) == Reject(Internal)
  {
  }

  lemma ObjectEventIsAtomic(env: Env, y: Sys, rid: ReqId, c: Choice)
    requires InFlight(y, rid) && AtObject(y.procs[rid]) && Fits(y.s.cluster, y.procs[rid])
    ensures var e := NextEvent(env, y, rid, c);
            && Contents(e.after.cluster) == Replayed(env, Contents(e.before.cluster), e)
            && AnswersAtomically(env, Contents(e.before.cluster), e)
  {
    var b := y.procs[rid].b;
    CallIsAtomic(env, y.s.now, y.s.cluster, b);
    FailedCallEnds(env, y.s.now, b);
    hide ExecuteCluster, ExecuteTables, ExecuteAccounts, ResumeObj, IssueObj, SkipsWake, Atomic, Contents;
    var e := NextEvent(env, y, rid, c);
    assert e.call == IssueObj(env, b) && e.after.now == y.s.now;
    assert Undisturbed(env, e) == ResumeObj(env, y.s.now, b, ExecuteCluster(y.s.cluster, e.call.c).1);
  }

  lemma ClusterCallReplayed(c: Cluster, call: ClusterCall)
    requires call.ReportStatus? || call.DeleteNamespace? || call.CreateNamespace?
    ensures var m := Contents(c);
            Contents(ExecuteCluster(c, call).0) ==
            match call
            case ReportStatus(key, status) => if key in m then m[key := WithStatus(m[key], status)] else m
            case DeleteNamespace(n) => if n in c.namespaces then map k | k in m && k.ns != n :: m[k] else m
            case _ => m
  {
    if call.ReportStatus? && call.key in c.objects {
      RewriteContents(c, call.key, WithStatus(c.objects[call.key].content, call.status));
    }
    hide Rewrite, WithStatus;
  }

  /** The cluster calls of the points that are not an object request's last. */
  lemma OtherCalls(env: Env, pc: Pc, id: string)
    requires Live(pc) && !AtObject(pc)
    ensures var call := Issue(env, pc, id);
            call.OnCluster? ==> call.c.ReportStatus? || call.c.DeleteNamespace? || call.c.CreateNamespace?
  {
  }

  lemma OtherEventIsAtomic(env: Env, y: Sys, rid: ReqId, c: Choice)
    requires InFlight(y, rid) && !AtObject(y.procs[rid])
    ensures var e := NextEvent(env, y, rid, c);
            && Contents(e.after.cluster) == Replayed(env, Contents(e.before.cluster), e)
            && AnswersAtomically(env, Contents(e.before.cluster), e)
  {
    OtherCalls(env, y.procs[rid], c.id);
    var call := Issue(env, y.procs[rid], c.id);
    if call.OnCluster? {
      ClusterCallReplayed(y.s.cluster, call.c);
    }
    hide Issue, Resume, ExecuteTables, ExecuteAccounts, ExecuteCluster, Contents, WithStatus;
  }

  // ---- Snapshots ----

  /** Whatever is new in the cluster has a version never used before. */
  predicate Evolves(c: Cluster, c': Cluster) {
    && c.version <= c'.version
    && forall k | k in c'.objects ::
         || (k in c.objects && c'.objects[k] == c.objects[k])
         || c.version < c'.objects[k].version <= c'.version
  }

  lemma CallEvolves(c: Cluster, call: ClusterCall)
    ensures Evolves(c, ExecuteCluster(c, call).0)
  {
    hide WithStatus;
  }

  lemma StepEvolves(env: Env, s: Stores, pc: Pc, c: Choice)
    requires Live(pc)
    ensures Evolves(s.cluster, Step(env, s, pc, c).0.cluster)
  {
    var call := Issue(env, pc, c.id);
    if call.OnCluster? {
      CallEvolves(s.cluster, call.c);
    }
    hide Issue, Resume, ExecuteTables, ExecuteAccounts, ExecuteCluster;
  }

  lemma FitsStays(c: Cluster, c': Cluster, pc: Pc)
    requires Evolves(c, c') && Fits(c, pc)
    ensures Fits(c', pc)
  {
  }

  lemma FirstSnapshotFits(env: Env, now: nat, c: Cluster, act: Act)
    requires Versioned(c)
    ensures Fits(c, AfterFirst(env, now, act, ExecuteCluster(c, IssueFirst(env, act)).1))
    ensures Fits(c, AfterFirst(env, now, act, Failed))
  {
    hide NewBody, ViewOf, WithSpec;
  }

  /** A request that goes on to a write has just taken its snapshot. */
  lemma WritesFollowReads(env: Env, now: nat, pc: Pc, a: Answer)
    requires Live(pc)
    ensures var q := Resume(env, now, pc, a);
            q.Obj? && (q.b.WriteBack? || q.b.PatchBack?) ==>
              pc.Obj? && pc.b.First? && q == AfterFirst(env, now, pc.b.act, a)
  {
    if pc.Gate? {
      Lifecycle.GateLeadsTo(env, now, pc.g, a);
    }
    hide ResumeGate, AfterFirst;
  }

  lemma StepFits(env: Env, s: Stores, pc: Pc, c: Choice)
    requires Live(pc) && Versioned(s.cluster)
    ensures Fits(Step(env, s, pc, c).0.cluster, Step(env, s, pc, c).1)
  {
    var (s', a) := Perform(s, Issue(env, pc, c.id), c.fault);
    WritesFollowReads(env, s'.now, pc, a);
    StepEvolves(env, s, pc, c);
    if pc.Obj? && pc.b.First? {
      FirstSnapshotFits(env, s'.now, s.cluster, pc.b.act);
      assert a == Failed || a == ExecuteCluster(s.cluster, IssueFirst(env, pc.b.act)).1;
      FitsStays(s.cluster, s'.cluster, AfterFirst(env, s'.now, pc.b.act, a));
    }
    hide Resume, ExecuteTables, ExecuteAccounts, ExecuteCluster, AfterFirst, IssueFirst, IssueAccount, IssueOrg;
  }

  ghost predicate SnapshotsFit(y: Sys) {
    Versioned(y.s.cluster) && forall r | r in y.procs :: Fits(y.s.cluster, y.procs[r])
  }

  lemma NextKeepsSnapshots(env: Env, y: Sys, a: Action)
    requires SnapshotsFit(y)
    ensures SnapshotsFit(Next(env, y, a))
  {
    hide Next;
    var y' := Next(env, y, a);
    NextIsCallOrNot(env, y, a);
    if NoCall(y, y') {
      forall r | r in y'.procs ensures Fits(y'.s.cluster, y'.procs[r]) {
        if r !in y.procs { assert NewRequest(y'.procs[r]); }
      }
    } else {
      var e := NextEvent(env, y, a.rid, a.choice);
      StepEvolves(env, y.s, y.procs[a.rid], a.choice);
      StepFits(env, y.s, y.procs[a.rid], a.choice);
      forall r | r in y.procs ensures Fits(e.after.cluster, y.procs[r]) {
        FitsStays(y.s.cluster, e.after.cluster, y.procs[r]);
      }
      hide Fits;
    }
    hide Step, Issue;
  }

  // ---- Whole runs ----

  /** The contents after a run of atomic operations: one for each request that committed, in the order of
      their last calls, with status reports and namespace deletions in between. */
  function Replay(env: Env, m0: map<Key, Content>, log: seq<Event>): map<Key, Content> {
    if log == [] then m0 else Replayed(env, Replay(env, m0, log[..|log| - 1]), log[|log| - 1])
  }

  /** Up to event `i` the contents are those of the atomic run, and so is the reply of event `i`. */
  predicate Linear(env: Env, m0: map<Key, Content>, log: seq<Event>, i: nat)
    requires i < |log|
  {
    var m := Replay(env, m0, log[..i]);
    Contents(log[i].before.cluster) == m && AnswersAtomically(env, m, log[i])
  }

  lemma EventIsAtomic(env: Env, y: Sys, rid: ReqId, c: Choice)
    requires InFlight(y, rid) && SnapshotsFit(y)
    ensures var e := NextEvent(env, y, rid, c);
            && Contents(e.after.cluster) == Replayed(env, Contents(y.s.cluster), e)
            && AnswersAtomically(env, Contents(y.s.cluster), e)
            && e.before == y.s
  {
    if AtObject(y.procs[rid]) {
      ObjectEventIsAtomic(env, y, rid, c);
    } else {
      OtherEventIsAtomic(env, y, rid, c);
    }
    hide Step, Issue, Replayed, AnswersAtomically, Contents, AtObject, Fits;
  }

  ghost predicate AllLinear(env: Env, m0: map<Key, Content>, y: Sys) {
    Contents(y.s.cluster) == Replay(env, m0, y.log) && forall i: nat | i < |y.log| :: Linear(env, m0, y.log, i)
  }

  lemma RecordKeepsLinear(env: Env, m0: map<Key, Content>, y: Sys, e: Event)
    requires AllLinear(env, m0, y) && e.before == y.s
    requires Contents(e.after.cluster) == Replayed(env, Contents(y.s.cluster), e)
    requires AnswersAtomically(env, Contents(y.s.cluster), e)
    ensures AllLinear(env, m0, Record(y, e))
  {
    var log := y.log + [e];
    assert log[..|log| - 1] == y.log;
    forall i: nat | i < |log| ensures Linear(env, m0, log, i) {
      if i < |y.log| {
        assert Linear(env, m0, y.log, i);
        assert log[..i] == y.log[..i];
      }
    }
    hide Replayed, AnswersAtomically, Contents;
  }

  lemma NextKeepsLinear(env: Env, m0: map<Key, Content>, y: Sys, a: Action)
    requires AllLinear(env, m0, y) && SnapshotsFit(y)
    ensures AllLinear(env, m0, Next(env, y, a))
  {
    hide Next;
    NextIsCallOrNot(env, y, a);
    if !NoCall(y, Next(env, y, a)) {
      EventIsAtomic(env, y, a.rid, a.choice);
      RecordKeepsLinear(env, m0, y, NextEvent(env, y, a.rid, a.choice));
    }
    hide NextEvent, Linear, Replay, Contents, SnapshotsFit, Replayed, AnswersAtomically;
  }

  /** Linearizability: in every run the contents are at all times those of the atomic run, every success and
      every NotFound is what the atomic run replies, and a request told of an error did nothing unless its
      reply was lost. */
  lemma {:induction false} RunsAreLinearizable(env: Env, s0: Stores, acts: seq<Action>)
    requires Versioned(s0.cluster)
    ensures var y := Run(env, Boot(s0), acts); SnapshotsFit(y) && AllLinear(env, Contents(s0.cluster), y)
  {
    hide Next;
    if acts != [] {
      var k := |acts| - 1;
      RunsAreLinearizable(env, s0, acts[..k]);
      NextKeepsSnapshots(env, Run(env, Boot(s0), acts[..k]), acts[k]);
      NextKeepsLinear(env, Contents(s0.cluster), Run(env, Boot(s0), acts[..k]), acts[k]);
      hide SnapshotsFit, AllLinear;
    }
    hide Fits;
  }

  // ---- At most once ----

  /** A request that ended makes no further call. */
  ghost predicate EndsAreFinal(y: Sys) {
    && (forall i | 0 <= i < |y.log| :: y.log[i].rid in y.procs)
    && (forall i | 0 <= i < |y.log| && y.log[i].next.Finished? :: !Live(y.procs[y.log[i].rid]))
    && (forall i, j | 0 <= i < j < |y.log| && y.log[i].next.Finished? :: y.log[j].rid != y.log[i].rid)
  }

  lemma NextKeepsEndsFinal(env: Env, y: Sys, a: Action)
    requires EndsAreFinal(y)
    ensures EndsAreFinal(Next(env, y, a))
  {
    hide Next;
    NextIsCallOrNot(env, y, a);
    hide NextEvent, NewRequest;
    if !NoCall(y, Next(env, y, a)) {
      var e := NextEvent(env, y, a.rid, a.choice);
      EventRid(env, y, a.rid, a.choice);
      assert forall i | 0 <= i < |y.log| :: (y.log + [e])[i] == y.log[i];
    }
  }

  lemma EventRid(env: Env, y: Sys, rid: ReqId, c: Choice)
    requires InFlight(y, rid)
    ensures NextEvent(env, y, rid, c).rid == rid
  {
    hide Step, Issue;
  }

  lemma {:induction false} RunEndsAreFinal(env: Env, s0: Stores, acts: seq<Action>)
    ensures EndsAreFinal(Run(env, Boot(s0), acts))
  {
    hide Next;
    if acts != [] {
      RunEndsAreFinal(env, s0, acts[..|acts| - 1]);
      NextKeepsEndsFinal(env, Run(env, Boot(s0), acts[..|acts| - 1]), acts[|acts| - 1]);
    }
  }

  /** Each request commits at most once, by the last call it ever makes. */
  lemma CommitsOnce(env: Env, s0: Stores, acts: seq<Action>, i: nat, j: nat)
    requires Versioned(s0.cluster)
    requires var log := Run(env, Boot(s0), acts).log;
             i < |log| && j < |log| && Commits(env, log[i]) && log[j].rid == log[i].rid
    ensures j <= i
  {
    RunsAreLinearizable(env, s0, acts);
    RunEndsAreFinal(env, s0, acts);
    var y := Run(env, Boot(s0), acts);
    assert Linear(env, Contents(s0.cluster), y.log, i);
    hide Run, Replay, Contents, Commits, SnapshotsFit;
  }

  // ---- A wake that is skipped ----

  lemma StepFirst(env: Env, y: Sys, r: ReqId, act: Act)
    requires r in y.procs && y.procs[r] == Obj(First(act))
    ensures var (c', a) := ExecuteCluster(y.s.cluster, IssueFirst(env, act));
            Next(env, y, Call(r, OK)).s == y.s.(cluster := c')
            && Next(env, y, Call(r, OK)).procs == y.procs[r := AfterFirst(env, y.s.now, act, a)]
  {
    hide ResumeGate, ResumeAccount, ResumeOrg, AfterFirst, IssueOrg, IssueFirst, IssueAccount, ExecuteAccounts;
    hide ExecuteTables, ExecuteCluster;
  }

  lemma StepPatch(env: Env, y: Sys, r: ReqId, act: Act, snapshot: Object, stamp: string)
    requires r in y.procs && y.procs[r] == Obj(PatchBack(act, snapshot, stamp)) && KeyOf(act) in y.s.cluster.objects
    requires LAST_USED in snapshot.content.annotations && snapshot.content.annotations[LAST_USED] == stamp
    ensures var y' := Next(env, y, Call(r, OK));
            r in y'.procs && Succeeds(y'.procs[r]) && y'.s.cluster == y.s.cluster
  {
    var was := y.s.cluster.objects[KeyOf(act)].content;
    assert was.annotations + WakePatch(snapshot.content.annotations, stamp) == was.annotations;
    hide ResumeGate, ResumeAccount, ResumeOrg, AfterFirst, IssueOrg, IssueFirst, IssueAccount, ExecuteAccounts;
    hide ExecuteTables, ViewOf;
  }

  /** The exception is real: wake a builder twice within a second and, between the second wake's read and its
      patch, delete and re-create the builder. The second wake reports success, but the builder has no stamp. */
  lemma WakeCanBeSkipped(env: Env, y: Sys, w: ReqId, d: ReqId, c: ReqId, ns: string, name: string, arg: SpecArg)
    requires w in y.procs && d in y.procs && c in y.procs && w != d && w != c && d != c && KindOf(arg).BuilderKind?
    requires y.procs[w] == Obj(First(Wake(ns, name)))
    requires y.procs[d] == Obj(First(Delete(BuilderKind, ns, name)))
    requires y.procs[c] == Obj(First(Create(ns, name, arg)))
    requires var key := Key(BuilderKind, ns, name);
             && ns in y.s.cluster.namespaces && key in y.s.cluster.objects
             && var notes := y.s.cluster.objects[key].content.annotations;
                LAST_USED in notes && notes[LAST_USED] == env.stamp(y.s.now / Sessions.SECOND)
    ensures var key := Key(BuilderKind, ns, name);
            var y' := Next(env, Next(env, Next(env, Next(env, y, Call(w, OK)), Call(d, OK)), Call(c, OK)), Call(w, OK));
            && w in y'.procs && Succeeds(y'.procs[w])
            && key in y'.s.cluster.objects && LAST_USED !in y'.s.cluster.objects[key].content.annotations
  {
    hide Next;
    var y1 := Next(env, y, Call(w, OK));
    var y2 := Next(env, y1, Call(d, OK));
    var y3 := Next(env, y2, Call(c, OK));
    StepFirst(env, y, w, Wake(ns, name));
    StepFirst(env, y1, d, Delete(BuilderKind, ns, name));
    StepFirst(env, y2, c, Create(ns, name, arg));
    var snapshot := y.s.cluster.objects[Key(BuilderKind, ns, name)];
    StepPatch(env, y3, w, Wake(ns, name), snapshot, env.stamp(y.s.now / Sessions.SECOND));
    hide NewBody, ViewOf;
  }
}
