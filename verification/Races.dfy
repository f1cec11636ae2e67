/** Two of the ways a namespace is left without its organization: from every state in which the
    requests stand at the critical points, a few more calls leave an orphan. */
module Races {
  import opened Stores
  import opened Programs
  import opened Runs
  import opened Saga

  lemma StepDeleteSpace(env: Env, y: Sys, r: ReqId, n: string)
    requires r in y.procs && y.procs[r] == Org(DeleteSpace(n))
    ensures var y' := Next(env, y, Call(r, OK));
            && y'.procs == y.procs[r := Org(DeleteRow(n))] && y.log <= y'.log
            && y'.s == y.s.(cluster := ExecuteCluster(y.s.cluster, DeleteNamespace(n)).0)
  {
    hide ResumeGate, ResumeAccount, ResumeObj, IssueObj, IssueAccount, ExecuteAccounts, ExecuteTables;
  }

  lemma StepDeleteRow(env: Env, y: Sys, r: ReqId, text: string, n: string)
    requires r in y.procs && y.procs[r] == Org(DeleteRow(text)) && Spells(env, text, n)
    ensures var y' := Next(env, y, Call(r, OK));
            && y'.procs == y.procs[r := if n in y.s.tables.orgs then Finished(Deleted) else Reject(NotFound)]
            && n !in y'.s.tables.orgs && y'.s.cluster == y.s.cluster && y.log <= y'.log
  {
    hide ResumeGate, ResumeAccount, ResumeObj, IssueObj, IssueAccount, ExecuteAccounts, ExecuteCluster;
  }

  lemma StepEnsure(env: Env, y: Sys, r: ReqId, act: Act)
    requires r in y.procs && y.procs[r] == Obj(Ensure(act))
    ensures var y' := Next(env, y, Call(r, OK));
            && y'.s == y.s.(cluster := ExecuteCluster(y.s.cluster, CreateNamespace(act.ns)).0)
            && y'.procs == y.procs[r := Validated(act)] && y.log <= y'.log
            && act.ns in y'.s.cluster.namespaces && y'.s.tables == y.s.tables
  {
    hide ResumeGate, ResumeAccount, ResumeOrg, IssueOrg, IssueFirst, IssueAccount, ExecuteAccounts, ExecuteTables;
    hide Validated;
  }

  lemma StepLostEnsure(env: Env, y: Sys, r: ReqId, n: string, org: OrgRow)
    requires r in y.procs && y.procs[r] == Org(CreateEnsure(n, org))
    ensures var y' := Next(env, y, Call(r, Choice(LostReply, "")));
            && y'.procs == y.procs[r := Org(CreateUndo(n))] && n in y'.s.cluster.namespaces
            && y'.s.tables == y.s.tables && y.log <= y'.log
  {
    hide ResumeGate, ResumeAccount, ResumeObj, IssueObj, IssueAccount, ExecuteAccounts, ExecuteTables;
  }

  lemma StepUndo(env: Env, y: Sys, r: ReqId, n: string)
    requires r in y.procs && y.procs[r] == Org(CreateUndo(n))
    ensures var y' := Next(env, y, Call(r, OK));
            && y'.procs == y.procs[r := Reject(Internal)]
            && n !in y'.s.tables.orgs && y'.s.cluster == y.s.cluster && y.log <= y'.log
  {
    hide ResumeGate, ResumeAccount, ResumeObj, IssueObj, IssueAccount, ExecuteAccounts, ExecuteCluster;
  }

  lemma HadRowLater(s0: Stores, y: Sys, log: seq<Event>, n: string)
    requires RowsAccounted(s0, y) && n in y.s.tables.orgs && y.log <= log
    ensures HadRow(s0, log, n)
  {
    assert HadRow(s0, y.log, n);
    if b :| 0 <= b < |y.log| && RowMade(y.log[b], n) {
      assert RowMade(log[b], n);
    }
  }

  lemma LeftBehind(s0: Stores, y: Sys, n: string)
    requires n in y.s.cluster.namespaces && n !in y.s.tables.orgs && HadRow(s0, y.log, n)
    ensures Orphan(s0, y, n)
  {
  }

  lemma DeletedMeanwhile(env: Env, y: Sys, creator: ReqId, deleter: ReqId, act: Act)
    requires creator in y.procs && y.procs[creator] == Obj(Ensure(act))
    requires deleter in y.procs && y.procs[deleter] == Org(DeleteSpace(act.ns))
    requires Normal(env, act.ns)
    ensures var y2 := Next(env, Next(env, y, Call(deleter, OK)), Call(deleter, OK));
            && creator in y2.procs && y2.procs[creator] == y.procs[creator]
            && act.ns !in y2.s.tables.orgs && y.log <= y2.log
  {
    assert Spells(env, act.ns, act.ns);
    hide *;
    StepDeleteSpace(env, y, deleter, act.ns);
    StepDeleteRow(env, Next(env, y, Call(deleter, OK)), deleter, act.ns, act.ns);
  }

  /** A builder creation between its membership check and its namespace call, while the organization is
      being deleted: the namespace comes back after the row is gone. */
  lemma RaceLeavesOrphan(env: Env, s0: Stores, y: Sys, creator: ReqId, deleter: ReqId, act: Act)
    requires Inv(env, s0, y) && act.ns in y.s.tables.orgs
    requires creator in y.procs && y.procs[creator] == Obj(Ensure(act))
    requires deleter in y.procs && y.procs[deleter] == Org(DeleteSpace(act.ns))
    ensures Orphan(s0, Next(env, Next(env, Next(env, y, Call(deleter, OK)), Call(deleter, OK)), Call(creator, OK)),
              act.ns)
  {
    InvGivesSchema(env, s0, y);
    assert Normal(env, act.ns);
    assert RowsAccounted(s0, y);
    hide *;
    var y2 := Next(env, Next(env, y, Call(deleter, OK)), Call(deleter, OK));
    DeletedMeanwhile(env, y, creator, deleter, act);
    StepEnsure(env, y2, creator, act);
    HadRowLater(s0, y, Next(env, y2, Call(creator, OK)).log, act.ns);
    LeftBehind(s0, Next(env, y2, Call(creator, OK)), act.ns);
  }

  /** An organization creation whose namespace call took effect but whose reply was lost takes its row back
      and leaves the namespace. */
  lemma LostReplyLeavesOrphan(env: Env, s0: Stores, y: Sys, creator: ReqId, n: string, org: OrgRow)
    requires Inv(env, s0, y) && n in y.s.tables.orgs
    requires creator in y.procs && y.procs[creator] == Org(CreateEnsure(n, org))
    ensures Orphan(s0, Next(env, Next(env, y, Call(creator, Choice(LostReply, ""))), Call(creator, OK)), n)
  {
    assert RowsAccounted(s0, y);
    hide *;
    var y1 := Next(env, y, Call(creator, Choice(LostReply, "")));
    StepLostEnsure(env, y, creator, n, org);
    StepUndo(env, y1, creator, n);
    HadRowLater(s0, y, Next(env, y1, Call(creator, OK)).log, n);
    LeftBehind(s0, Next(env, y1, Call(creator, OK)), n);
  }
}
