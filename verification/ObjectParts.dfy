/** Every part of a stored object has one writer, over all interleaved runs: annotations change only by a wake's stamp,
    the status only by the operator's report, the spec only by an update, and objects come and go only by their own
    creation and deletion or with their namespace. */
module ObjectParts {
  import opened Stores
  import opened Programs
  import opened Runs
  import opened Saga
  import opened Linearizability
  import opened ObjectMeanings
  import B = Builders

  /** The body without the status. */
  function SpecOf(c: Content): Body {
    if c.body.BuilderBody? then BuilderBody(c.body.builder, B.BuilderStatus("", 0, "")) else c.body
  }

  predicate Stamps(pc: Pc, k: Key) {
    pc.Obj? && pc.b.PatchBack? && pc.b.act == Act.Wake(k.ns, k.name) && k.kind.BuilderKind?
  }

  predicate Respecs(pc: Pc, k: Key) {
    pc.Obj? && pc.b.WriteBack? && pc.b.act.Update? && Named(pc.b.act.ns, pc.b.act.name, pc.b.act.arg) == k
  }

  predicate Reports(pc: Pc, k: Key) {
    pc.Obj? && pc.b.Reporting? && pc.b.key == k
  }

  predicate Adds(pc: Pc, k: Key) {
    pc.Obj? && pc.b.First? && pc.b.act.Create? && Named(pc.b.act.ns, pc.b.act.name, pc.b.act.arg) == k
  }

  predicate Removes(pc: Pc, k: Key) {
    || (pc.Obj? && pc.b.First? && pc.b.act == Delete(k.kind, k.ns, k.name))
    || pc == Org(DeleteSpace(k.ns))
  }

  /** What a call at this point may do to the object with the key. */
  ghost predicate KeepsParts(env: Env, pc: Pc, k: Key, was: map<Key, Content>, now: map<Key, Content>) {
    && (k in was && k in now ==>
          && (now[k].annotations != was[k].annotations ==>
                && Stamps(pc, k)
                && now[k].annotations == was[k].annotations["builder.builder-hub.dev/last-used" := pc.b.stamp])
          && (SpecOf(now[k]) != SpecOf(was[k]) ==> Respecs(pc, k) && Rewritten(env, now[k].body, pc.b.act.arg))
          && (now[k].body.BuilderBody? && was[k].body.BuilderBody? && now[k].body.status != was[k].body.status ==>
                Reports(pc, k) && now[k].body.status == pc.b.status))
    && (k !in was && k in now ==>
          && Adds(pc, k) && Rewritten(env, now[k].body, pc.b.act.arg) && now[k].annotations == map[]
          && (now[k].body.BuilderBody? ==> now[k].body.status == B.BuilderStatus("", 0, "")))
    && (k in was && k !in now ==> Removes(pc, k))
  }

  /** The body has the fields of the request's spec. */
  ghost predicate Rewritten(env: Env, body: Body, arg: SpecArg) {
    !arg.NoSpec? ==> StoresArg(env, body, arg)
  }

  lemma NewBodyRewritten(env: Env, arg: SpecArg, status: B.BuilderStatus)
    ensures var body := NewBody(env, arg, status);
            Rewritten(env, body, arg) && (body.BuilderBody? ==> body.status == status)
  {
    if !arg.NoSpec? {
      NewBodyStores(env, arg, status);
    }
    hide StoresArg;
  }

  lemma WriteKeepsParts(env: Env, c: Cluster, b: ObjPc, k: Key)
    requires b.WriteBack? && Fits(c, Obj(b))
    ensures var c' := ExecuteCluster(c, UpdateObject(KeyOf(b.act), Respec(env, b.act, b.snapshot))).0;
            KeepsParts(env, Obj(b), k, Contents(c), Contents(c'))
  {
    var old' := b.snapshot.content;
    NewBodyRewritten(env, b.act.arg, if old'.body.BuilderBody? then old'.body.status else NO_STATUS);
    NamedIsKey(b.act.ns, b.act.name, b.act.arg);
    if KeyOf(b.act) in c.objects {
      RewriteContents(c, KeyOf(b.act), Respec(env, b.act, b.snapshot).content);
    }
    hide NewBody, Rewrite, Rewritten;
  }

  lemma PatchKeepsParts(env: Env, c: Cluster, b: ObjPc, k: Key)
    requires b.PatchBack? && Fits(c, Obj(b))
    ensures var call := PatchObject(KeyOf(b.act), WakePatch(b.snapshot.content.annotations, b.stamp));
            KeepsParts(env, Obj(b), k, Contents(c), Contents(ExecuteCluster(c, call).0))
  {
    if KeyOf(b.act) in c.objects {
      var was := c.objects[KeyOf(b.act)].content;
      var patch := WakePatch(b.snapshot.content.annotations, b.stamp);
      RewriteContents(c, KeyOf(b.act), was.(annotations := was.annotations + patch));
      assert patch == map[] ==> was.annotations + patch == was.annotations;
      assert patch != map[] ==>
          was.annotations + patch == was.annotations["builder.builder-hub.dev/last-used" := b.stamp];
    }
    hide Rewrite, Rewritten;
  }

  lemma FirstKeepsParts(env: Env, c: Cluster, act: Act, k: Key)
    ensures KeepsParts(env, Obj(First(act)), k, Contents(c), Contents(ExecuteCluster(c, IssueFirst(env, act)).0))
  {
    if act.Create? {
      NewBodyRewritten(env, act.arg, NO_STATUS);
      NamedIsKey(act.ns, act.name, act.arg);
    }
    hide NewBody, Rewritten;
  }

  lemma ReportKeepsParts(env: Env, c: Cluster, b: ObjPc, k: Key)
    requires b.Reporting?
    ensures KeepsParts(env, Obj(b), k, Contents(c), Contents(ExecuteCluster(c, ReportStatus(b.key, b.status)).0))
  {
    if b.key in c.objects {
      RewriteContents(c, b.key, WithStatus(c.objects[b.key].content, b.status));
    }
    hide Rewrite, Rewritten;
  }

  lemma SpaceKeepsParts(env: Env, c: Cluster, pc: Pc, n: string, k: Key)
    ensures KeepsParts(env, Org(DeleteSpace(n)), k, Contents(c), Contents(ExecuteCluster(c, DeleteNamespace(n)).0))
    ensures KeepsParts(env, pc, k, Contents(c), Contents(ExecuteCluster(c, CreateNamespace(n)).0))
    ensures KeepsParts(env, pc, k, Contents(c), Contents(c))
  {
    hide Rewritten;
  }

  lemma ObjectCallKeepsParts(env: Env, c: Cluster, b: ObjPc, k: Key)
    requires !b.Check? && Fits(c, Obj(b))
    ensures IssueObj(env, b).OnCluster?
    ensures KeepsParts(env, Obj(b), k, Contents(c), Contents(ExecuteCluster(c, IssueObj(env, b).c).0))
  {
    match b
    case Ensure(act) => SpaceKeepsParts(env, c, Obj(b), act.ns, k);
    case First(act) => FirstKeepsParts(env, c, act, k);
    case WriteBack(_, _) => WriteKeepsParts(env, c, b, k);
    case PatchBack(_, _, _) => PatchKeepsParts(env, c, b, k);
    case Reporting(_, _) => ReportKeepsParts(env, c, b, k);
    hide KeepsParts, ExecuteCluster, Contents, Fits, IssueFirst, Respec, WakePatch;
  }

  lemma CallKeepsParts(env: Env, s: Stores, pc: Pc, id: string, k: Key)
    requires Live(pc) && Fits(s.cluster, pc)
    ensures KeepsParts(env, pc, k, Contents(s.cluster), Contents(Execute(s, Issue(env, pc, id)).0.cluster))
  {
    SpaceKeepsParts(env, s.cluster, pc, "", k);
    if pc.Obj? && !pc.b.Check? {
      ObjectCallKeepsParts(env, s.cluster, pc.b, k);
    } else if pc.Org? && (pc.o.CreateEnsure? || pc.o.DeleteSpace?) {
      SpaceKeepsParts(env, s.cluster, pc, pc.o.id, k);
    }
    hide KeepsParts, ExecuteCluster, ExecuteTables, ExecuteAccounts, Contents, Fits, IssueFirst, Respec, WakePatch;
  }

  ghost predicate HasWriters(env: Env, e: Event) {
    forall k :: KeepsParts(env, e.pc, k, Contents(e.before.cluster), Contents(e.after.cluster))
  }

  lemma EventHasWriters(env: Env, y: Sys, rid: ReqId, c: Choice)
    requires InFlight(y, rid) && SnapshotsFit(y)
    ensures HasWriters(env, NextEvent(env, y, rid, c))
  {
    var pc := y.procs[rid];
    assert Fits(y.s.cluster, pc);
    forall k
      ensures KeepsParts(env, pc, k, Contents(y.s.cluster), Contents(Execute(y.s, Issue(env, pc, c.id)).0.cluster))
      ensures KeepsParts(env, pc, k, Contents(y.s.cluster), Contents(y.s.cluster))
    {
      CallKeepsParts(env, y.s, pc, c.id, k);
      SpaceKeepsParts(env, y.s.cluster, pc, "", k);
    }
    hide KeepsParts, Execute, Issue, Resume, Contents, Fits, SnapshotsFit;
  }

  /** Over every interleaved run with faults and crashes, each call keeps to the part of the object that is its own. */
  lemma {:induction false} EachPartHasItsWriter(env: Env, s0: Stores, acts: seq<Action>)
    requires Versioned(s0.cluster)
    ensures forall e | e in Run(env, Boot(s0), acts).log :: HasWriters(env, e)
  {
    hide Next;
    if acts != [] {
      var k := |acts| - 1;
      var y := Run(env, Boot(s0), acts[..k]);
      EachPartHasItsWriter(env, s0, acts[..k]);
      RunsAreLinearizable(env, s0, acts[..k]);
      NextIsCallOrNot(env, y, acts[k]);
      if !NoCall(y, Next(env, y, acts[k])) {
        EventHasWriters(env, y, acts[k].rid, acts[k].choice);
      }
    }
    hide HasWriters, NextEvent, SnapshotsFit, AllLinear, NewRequest;
  }
}
