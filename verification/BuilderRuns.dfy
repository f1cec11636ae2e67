/** Reading a builder and writing back what was read: invisible for everything this service ever stores. */
module BuilderRuns {
  import opened Stores
  import opened Programs
  import opened Runs
  import opened Saga
  import opened Linearizability
  import B = Builders

  predicate SettledBody(b: Body) {
    b.BuilderBody? ==> B.Settled(b.builder)
  }

  ghost predicate AllSettled(c: Cluster) {
    forall k | k in c.objects :: SettledBody(c.objects[k].content.body)
  }

  lemma NewBodySettled(env: Env, arg: SpecArg, status: B.BuilderStatus)
    ensures SettledBody(NewBody(env, arg, status))
  {
  }

  lemma SettledCall(env: Env, c: Cluster, b: ObjPc)
    requires AllSettled(c) && Fits(c, Obj(b)) && IssueObj(env, b).OnCluster?
    ensures AllSettled(ExecuteCluster(c, IssueObj(env, b).c).0)
  {
    if b.First? && b.act.Create? { NewBodySettled(env, b.act.arg, NO_STATUS); }
    if b.WriteBack? {
      var was := b.snapshot.content.body;
      NewBodySettled(env, b.act.arg, if was.BuilderBody? then was.status else NO_STATUS);
    }
    hide NewBody, WakePatch;
  }

  lemma SettledStep(env: Env, s: Stores, pc: Pc, c: Choice)
    requires Live(pc) && AllSettled(s.cluster) && Fits(s.cluster, pc)
    ensures AllSettled(Step(env, s, pc, c).0.cluster)
  {
    var call := Issue(env, pc, c.id);
    if pc.Obj? && call.OnCluster? {
      SettledCall(env, s.cluster, pc.b);
    }
    hide Resume, ExecuteAccounts, ExecuteTables, IssueFirst, Respec, WakePatch, SettledBody;
  }

  lemma {:induction false} StoredBuildersAreSettled(env: Env, s0: Stores, acts: seq<Action>)
    requires Versioned(s0.cluster) && AllSettled(s0.cluster)
    ensures AllSettled(Run(env, Boot(s0), acts).s.cluster)
  {
    hide Next;
    if acts != [] {
      var k := |acts| - 1;
      var y := Run(env, Boot(s0), acts[..k]);
      StoredBuildersAreSettled(env, s0, acts[..k]);
      RunsAreLinearizable(env, s0, acts[..k]);
      NextIsCallOrNot(env, y, acts[k]);
      if !NoCall(y, Next(env, y, acts[k])) {
        SettledStep(env, y.s, y.procs[acts[k].rid], acts[k].choice);
      }
    }
    hide Step, Issue, Fits, AllLinear, AllSettled, NewRequest;
  }

  /** An update with exactly the spec a read has just shown gets the same builder back, for any stored builder
      exactly when its replicas and its timeout are each unset or positive. */
  lemma ReadThenUpdateIsInvisibleIff(env: Env, spaces: set<string>, m: map<Key, Content>, ns: string, name: string)
    requires Key(BuilderKind, ns, name) in m && m[Key(BuilderKind, ns, name)].body.BuilderBody?
    ensures var shown := Atomic(env, spaces, m, Get(BuilderKind, ns, name), "").1;
            && shown.ObjectReply? && shown.view.BuilderView?
            && (Atomic(env, spaces, m, Update(ns, name, ForBuilder(shown.view.b)), "").1 == shown <==>
                  B.Settled(m[Key(BuilderKind, ns, name)].body.builder))
  {
    B.ReadUpdateIsNoOpIffSettled(m[Key(BuilderKind, ns, name)].body.builder);
    hide B.Read, B.Write, B.Settled;
  }

  /** So it is invisible for every builder in every state reachable through the service. */
  lemma ReadThenUpdateIsInvisible(env: Env, s0: Stores, acts: seq<Action>, ns: string, name: string)
    requires Versioned(s0.cluster) && AllSettled(s0.cluster)
    requires var m := Contents(Run(env, Boot(s0), acts).s.cluster);
             Key(BuilderKind, ns, name) in m && m[Key(BuilderKind, ns, name)].body.BuilderBody?
    ensures var c := Run(env, Boot(s0), acts).s.cluster;
            var shown := Atomic(env, c.namespaces, Contents(c), Get(BuilderKind, ns, name), "").1;
            && shown.ObjectReply? && shown.view.BuilderView?
            && Atomic(env, c.namespaces, Contents(c), Update(ns, name, ForBuilder(shown.view.b)), "").1 == shown
  {
    var c := Run(env, Boot(s0), acts).s.cluster;
    StoredBuildersAreSettled(env, s0, acts);
    ReadThenUpdateIsInvisibleIff(env, c.namespaces, Contents(c), ns, name);
    assert SettledBody(c.objects[Key(BuilderKind, ns, name)].content.body);
    hide Run, Atomic, B.Settled;
  }
}
