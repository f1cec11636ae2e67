/** A builder or template request that runs alone and without faults is its atomic specification, for every kind of
    request: no spurious error, no other effect. */
module ObjectRequests {
  import opened Stores
  import opened Programs
  import opened Lifecycle
  import opened Sequential
  import opened Linearizability
  import opened Sessions

  /** What a request must fill in: a name unless it lists, a spec if it creates or updates, and a template reference if
      it creates a builder. */
  predicate FilledIn(act: Act) {
    match act
    case List(_, _) => true
    case Get(_, _, name) => name != ""
    case Create(_, name, arg) => name != "" && !arg.NoSpec? && (arg.ForBuilder? ==> arg.b.templateRef != "")
    case Update(_, name, arg) => name != "" && !arg.NoSpec?
    case Delete(_, _, name) => name != ""
    case Wake(_, name) => name != ""
  }

  lemma ValidatedIff(act: Act)
    ensures Validated(act) == if FilledIn(act) then Obj(First(act)) else Reject(InvalidArgument)
  {
  }

  /** The contents after and the reply of the atomic specification. */
  predicate Exactly(env: Env, c: Cluster, c': Cluster, act: Act, stamp: string, q: Pc) {
    var (m, reply) := Atomic(env, c.namespaces, Contents(c), act, stamp);
    Contents(c') == m && q == Finished(reply) && c'.namespaces == c.namespaces
  }

  lemma OneCallIsExact(env: Env, now: nat, c: Cluster, act: Act, stamp: string)
    requires act.Update? || act.Wake? ==> KeyOf(act) !in c.objects
    ensures var (c', a) := ExecuteCluster(c, IssueFirst(env, act));
            Exactly(env, c, c', act, stamp, AfterFirst(env, now, act, a))
  {
    var (c', a) := ExecuteCluster(c, IssueFirst(env, act));
    if act.List? {
      assert (map k | k in a.objects :: ViewOf(env, a.objects[k].content))
          == (map k | k in Contents(c) && k.kind == act.kind && k.ns == act.ns :: ViewOf(env, Contents(c)[k]));
    } else if act.Delete? {
      assert Contents(c') == Contents(c) - {KeyOf(act)};
    }
    hide NewBody, ViewOf, WithSpec, WithStatus;
  }

  lemma ReadsItsTarget(env: Env, now: nat, c: Cluster, act: Act)
    requires (act.Update? || act.Wake?) && KeyOf(act) in c.objects
    ensures var (c', a) := ExecuteCluster(c, IssueFirst(env, act));
            && c' == c
            && AfterFirst(env, now, act, a) ==
               if act.Update? then Obj(WriteBack(act, c.objects[KeyOf(act)]))
               else Obj(PatchBack(act, c.objects[KeyOf(act)], env.stamp(now / SECOND)))
  {
  }

  lemma UpdateIsExact(env: Env, now: nat, c: Cluster, act: Act, stamp: string)
    requires act.Update? && KeyOf(act) in c.objects
    ensures var b := WriteBack(act, c.objects[KeyOf(act)]);
            var (c', a) := ExecuteCluster(c, UpdateObject(KeyOf(act), Respec(env, act, c.objects[KeyOf(act)])));
            Exactly(env, c, c', act, stamp, ResumeObj(env, now, b, a))
  {
    RewriteContents(c, KeyOf(act), Respec(env, act, c.objects[KeyOf(act)]).content);
    hide ViewOf, WithSpec, NewBody;
  }

  lemma WakeIsExact(env: Env, now: nat, c: Cluster, act: Act, stamp: string)
    requires act.Wake? && KeyOf(act) in c.objects
    ensures var o := c.objects[KeyOf(act)];
            var (c', a) := ExecuteCluster(c, PatchObject(KeyOf(act), WakePatch(o.content.annotations, stamp)));
            Exactly(env, c, c', act, stamp, ResumeObj(env, now, PatchBack(act, o, stamp), a))
  {
    var was := c.objects[KeyOf(act)].content;
    var patch := WakePatch(was.annotations, stamp);
    RewriteContents(c, KeyOf(act), was.(annotations := was.annotations + patch));
    assert patch == map[] ==> was.annotations + patch == was.annotations == was.annotations[LAST_USED := stamp];
    assert patch != map[] ==> was.annotations + patch == was.annotations[LAST_USED := stamp];
    hide Rewrite;
  }

  // ---- The request's own steps ----

  lemma WriteStep(env: Env, s: Stores, b: ObjPc, choices: seq<Choice>)
    requires (b.WriteBack? || b.PatchBack?) && FaultAt(choices, 0).NoFault?
    ensures IssueObj(env, b).OnCluster?
    ensures var (c', a) := ExecuteCluster(s.cluster, IssueObj(env, b).c);
            RunAlone(env, s, Obj(b), choices) == (s.(cluster := c'), ResumeObj(env, s.now, b, a))
  {
    AloneStep(env, s, Obj(b), choices);
    hide ResumeGate, ResumeAccount, ResumeOrg, IssueAccount, IssueOrg, ExecuteAccounts, ExecuteTables, ExecuteCluster;
    hide ViewOf, Respec, WakePatch;
  }

  lemma FirstStep(env: Env, s: Stores, act: Act, choices: seq<Choice>)
    requires FaultAt(choices, 0).NoFault?
    ensures var (c', a) := ExecuteCluster(s.cluster, IssueFirst(env, act));
            var q := AfterFirst(env, s.now, act, a);
            !q.Crashed? && RunAlone(env, s, Obj(First(act)), choices) ==
                RunAlone(env, s.(cluster := c'), q, Rest(choices))
  {
    AloneStep(env, s, Obj(First(act)), choices);
    hide ResumeGate, ResumeAccount, ResumeOrg, IssueAccount, IssueOrg, ExecuteAccounts, ExecuteTables, ExecuteCluster;
    hide AfterFirst, IssueFirst;
  }

  lemma FinishedAlone(env: Env, s: Stores, reply: Reply, choices: seq<Choice>)
    ensures RunAlone(env, s, Finished(reply), choices) == (s, Finished(reply))
  {
  }

  /** What a request leaves untouched besides the objects. */
  predicate OnlyObjects(s: Stores, s': Stores) {
    s' == s.(cluster := s'.cluster) && s'.cluster.namespaces == s.cluster.namespaces
  }

  lemma WriteAfterRead(env: Env, s: Stores, act: Act, choices: seq<Choice>)
    requires (act.Update? || act.Wake?) && KeyOf(act) in s.cluster.objects && FaultAt(choices, 0).NoFault?
    ensures var o := s.cluster.objects[KeyOf(act)];
            var stamp := env.stamp(s.now / SECOND);
            var b := if act.Update? then WriteBack(act, o) else PatchBack(act, o, stamp);
            var (s', end) := RunAlone(env, s, Obj(b), choices);
            Exactly(env, s.cluster, s'.cluster, act, stamp, end) && OnlyObjects(s, s')
  {
    var o := s.cluster.objects[KeyOf(act)];
    var stamp := env.stamp(s.now / SECOND);
    if act.Update? {
      UpdateIsExact(env, s.now, s.cluster, act, stamp);
      WriteStep(env, s, WriteBack(act, o), choices);
    } else {
      WakeIsExact(env, s.now, s.cluster, act, stamp);
      WriteStep(env, s, PatchBack(act, o, stamp), choices);
    }
    hide RunAlone, ExecuteCluster, ResumeObj, Respec, WakePatch, Atomic, Contents;
  }

  lemma EndsAfterFirst(env: Env, s: Stores, act: Act, choices: seq<Choice>)
    requires FaultAt(choices, 0).NoFault? && (act.Update? || act.Wake? ==> KeyOf(act) !in s.cluster.objects)
    ensures var (s', end) := RunAlone(env, s, Obj(First(act)), choices);
            Exactly(env, s.cluster, s'.cluster, act, env.stamp(s.now / SECOND), end) && OnlyObjects(s, s')
  {
    var stamp := env.stamp(s.now / SECOND);
    var c' := ExecuteCluster(s.cluster, IssueFirst(env, act)).0;
    var reply := Atomic(env, s.cluster.namespaces, Contents(s.cluster), act, stamp).1;
    FirstStep(env, s, act, choices);
    OneCallIsExact(env, s.now, s.cluster, act, stamp);
    FinishedAlone(env, s.(cluster := c'), reply, Rest(choices));
    hide RunAlone, ExecuteCluster, AfterFirst, IssueFirst, Atomic, Contents;
  }

  lemma FromFirst(env: Env, s: Stores, act: Act, choices: seq<Choice>)
    requires FaultFree(choices)
    ensures var (s', end) := RunAlone(env, s, Obj(First(act)), choices);
            Exactly(env, s.cluster, s'.cluster, act, env.stamp(s.now / SECOND), end) && OnlyObjects(s, s')
  {
    NoFaults(choices);
    NoFaults(Rest(choices));
    hide *;
    if (act.Update? || act.Wake?) && KeyOf(act) in s.cluster.objects {
      ReadsItsTarget(env, s.now, s.cluster, act);
      FirstStep(env, s, act, choices);
      WriteAfterRead(env, s, act, Rest(choices));
    } else {
      EndsAfterFirst(env, s, act, choices);
    }
  }

  // ---- The whole request ----

  lemma CheckStep(env: Env, s: Stores, user: string, act: Act, choices: seq<Choice>)
    requires FaultAt(choices, 0).NoFault? && RoleOf(env, s.tables, user, act.ns).Some?
    ensures var q := if act.Create? && KindOf(act.arg).BuilderKind? then Obj(Ensure(act)) else Validated(act);
            !q.Crashed? && RunAlone(env, s, Obj(Check(user, act)), choices) == RunAlone(env, s, q, Rest(choices))
  {
    AloneStep(env, s, Obj(Check(user, act)), choices);
    hide ResumeGate, ResumeAccount, ResumeOrg, IssueAccount, IssueOrg, ExecuteAccounts, ExecuteCluster, AfterFirst;
    hide Validated;
    hide IssueFirst, RunAlone;
  }

  /** The cluster a request's object call meets: a new builder's namespace has been made. */
  function Prepared(s: Stores, act: Act): Stores {
    if act.Create? && KindOf(act.arg).BuilderKind?
    then s.(cluster := s.cluster.(namespaces := s.cluster.namespaces + {act.ns})) else s
  }

  lemma EnsureStep(env: Env, s: Stores, act: Act, choices: seq<Choice>)
    requires FaultAt(choices, 0).NoFault? && act.Create? && KindOf(act.arg).BuilderKind?
    ensures !Validated(act).Crashed?
    ensures RunAlone(env, s, Obj(Ensure(act)), choices) ==
              RunAlone(env, Prepared(s, act), Validated(act), Rest(choices))
  {
    AloneStep(env, s, Obj(Ensure(act)), choices);
    assert act.ns in s.cluster.namespaces ==> s.cluster.namespaces + {act.ns} == s.cluster.namespaces;
    hide ResumeGate, ResumeAccount, ResumeOrg, IssueAccount, IssueOrg, ExecuteAccounts, ExecuteTables, AfterFirst;
    hide IssueFirst, RunAlone;
  }

  lemma EnterCheck(env: Env, now: nat, user: string, act: Act)
    requires user != "" && act.ns != ""
    ensures Enter(env, now, user, OnObjects(act)) == Obj(Check(user, act))
  {
  }

  /** A member's request with all it needs filled in, run alone and without faults, leaves exactly the contents and
      gives exactly the reply of the atomic specification; a new builder's namespace is made if it was missing, and
      nothing else changes. */
  lemma MembersRequestIsExact(env: Env, s: Stores, user: string, act: Act, choices: seq<Choice>)
    requires user != "" && act.ns != "" && RoleOf(env, s.tables, user, act.ns).Some? && FaultFree(choices)
    requires FilledIn(act)
    ensures var p := Prepared(s, act);
            var (s', end) := Handle(env, s, user, OnObjects(act), choices);
            Exactly(env, p.cluster, s'.cluster, act, env.stamp(s.now / SECOND), end) && OnlyObjects(p, s')
  {
    NoFaults(choices);
    NoFaults(Rest(choices));
    NoFaults(Rest(Rest(choices)));
    assert Prepared(s, act).now == s.now;
    assert !(act.Create? && KindOf(act.arg).BuilderKind?) ==> Prepared(s, act) == s;
    HandleRuns(env, s, user, OnObjects(act), choices);
    hide *;
    EnterCheck(env, s.now, user, act);
    ValidatedIff(act);
    CheckStep(env, s, user, act, choices);
    if act.Create? && KindOf(act.arg).BuilderKind? {
      EnsureStep(env, s, act, Rest(choices));
      FromFirst(env, Prepared(s, act), act, Rest(Rest(choices)));
    } else {
      FromFirst(env, s, act, Rest(choices));
    }
  }

  lemma StopsAtCheck(env: Env, s: Stores, user: string, act: Act, choices: seq<Choice>)
    requires FaultAt(choices, 0).NoFault? && RoleOf(env, s.tables, user, act.ns).None?
    ensures RunAlone(env, s, Obj(Check(user, act)), choices) ==
            (s, Reject(if env.uuid(act.ns).None? then Internal else PermissionDenied))
  {
    AloneStep(env, s, Obj(Check(user, act)), choices);
    hide ResumeGate, ResumeAccount, ResumeOrg, IssueAccount, IssueOrg, ExecuteAccounts, ExecuteCluster, AfterFirst;
    hide IssueFirst, Validated;
  }

  /** All other requests, run alone and without faults: text that names no organization fails, someone who is not a
      member is denied, and both change nothing. A member's request with something missing is rejected; if it was to
      create a builder, the namespace is there afterwards all the same. */
  lemma OtherRequestsAreRejected(env: Env, s: Stores, user: string, act: Act, choices: seq<Choice>)
    requires user != "" && act.ns != "" && FaultFree(choices)
    requires RoleOf(env, s.tables, user, act.ns).None? || !FilledIn(act)
    ensures Handle(env, s, user, OnObjects(act), choices) ==
            if env.uuid(act.ns).None? then (s, Reject(Internal))
            else if RoleOf(env, s.tables, user, act.ns).None? then (s, Reject(PermissionDenied))
            else (Prepared(s, act), Reject(InvalidArgument))
  {
    NoFaults(choices);
    NoFaults(Rest(choices));
    assert !(act.Create? && KindOf(act.arg).BuilderKind?) ==> Prepared(s, act) == s;
    assert env.uuid(act.ns).None? ==> RoleOf(env, s.tables, user, act.ns).None?;
    HandleRuns(env, s, user, OnObjects(act), choices);
    hide *;
    EnterCheck(env, s.now, user, act);
    if RoleOf(env, s.tables, user, act.ns).None? {
      StopsAtCheck(env, s, user, act, choices);
    } else {
      ValidatedIff(act);
      CheckStep(env, s, user, act, choices);
      if act.Create? && KindOf(act.arg).BuilderKind? {
        EnsureStep(env, s, act, Rest(choices));
        FinishedAlone(env, Prepared(s, act), Rejected(InvalidArgument), Rest(Rest(choices)));
      } else {
        FinishedAlone(env, s, Rejected(InvalidArgument), Rest(choices));
      }
    }
  }
}
