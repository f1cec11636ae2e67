/** The two-store saga of organizations over every interleaved run with faults and crashes. */
module Saga {
  import opened Stores
  import opened Programs
  import opened Runs
  import opened Lifecycle

  /** The event is the next one of a request in flight. */
  predicate Follows(y: Sys, e: Event) {
    InFlight(y, e.rid) && e.pc == y.procs[e.rid] && e.before == y.s
  }

  // ---- What the history says ----

  ghost predicate HadRow(s0: Stores, log: seq<Event>, n: string) {
    n in s0.tables.orgs || exists b | 0 <= b < |log| :: RowMade(log[b], n)
  }

  ghost predicate WasDeleted(log: seq<Event>, n: string) {
    exists d | 0 <= d < |log| :: RowGone(log[d], n)
  }

  /** From the event after `e` on, the namespace was always there. */
  ghost predicate Stays(log: seq<Event>, n: string, e: int) {
    forall i | e < i < |log| && 0 <= i :: n in log[i].before.cluster.namespaces && n in log[i].after.cluster.namespaces
  }

  /** The creation of the namespace that still stands. */
  ghost predicate Standing(log: seq<Event>, n: string, e: int) {
    0 <= e < |log| && SpaceMade(log[e], n) && Stays(log, n, e)
  }

  ghost predicate MadeBy(log: seq<Event>, n: string, rid: ReqId) {
    exists b | 0 <= b < |log| :: log[b].rid == rid && RowMade(log[b], n)
  }

  ghost predicate ClearedBy(log: seq<Event>, n: string, rid: ReqId) {
    exists b | 0 <= b < |log| :: log[b].rid == rid && Cleared(log[b], n)
  }

  ghost predicate AdmittedBy(env: Env, log: seq<Event>, text: string, rid: ReqId) {
    exists b | 0 <= b < |log| :: log[b].rid == rid && AdmitsTo(env, log[b], text)
  }

  /** The request was admitted to the organization the text names. */
  predicate AdmitsTo(env: Env, e: Event, text: string) {
    env.uuid(text).Some? && Admits(e, env.uuid(text).value)
  }

  /** A namespace named by some spelling of the organization's identifier was deleted, or found missing. */
  predicate ClearsFor(env: Env, e: Event, n: string) {
    e.call.OnCluster? && e.call.c.DeleteNamespace? && Spells(env, e.call.c.ns, n) && Cleared(e, e.call.c.ns)
  }

  /** What the request that deletes a row has done before. */
  predicate Paves(env: Env, e: Event, n: string) {
    ClearsFor(env, e, n) || RowMade(e, n)
  }

  // ---- Invariants ----

  /** Every event obeys the facts, every state the schema, and ids in use only accumulate. */
  ghost predicate Orderly(env: Env, s0: Stores, y: Sys) {
    && Schema(env, y.s) && s0.issued <= y.s.issued
    && (forall i | 0 <= i < |y.log| ::
          && Facts(env, y.log[i]) && Schema(env, y.log[i].before)
          && s0.issued <= y.log[i].before.issued && y.log[i].after.issued <= y.s.issued)
    && (forall i, b | 0 <= i < b < |y.log| :: y.log[i].after.issued <= y.log[b].before.issued)
  }

  /** Deleted rows stay deleted. */
  ghost predicate GoneForGood(y: Sys) {
    && (forall d, n | 0 <= d < |y.log| && RowGone(y.log[d], n) :: n in y.s.issued && n !in y.s.tables.orgs)
    && (forall d, i, n | 0 <= d < i < |y.log| && RowGone(y.log[d], n) ::
          n !in y.log[i].before.tables.orgs && n !in y.log[i].after.tables.orgs)
  }

  /** The rows there ever were are the rows there are and the deleted ones. */
  ghost predicate RowsAccounted(s0: Stores, y: Sys) {
    && (forall n | HadRow(s0, y.log, n) :: n in y.s.tables.orgs || WasDeleted(y.log, n))
    && (forall n | n in y.s.tables.orgs || WasDeleted(y.log, n) :: HadRow(s0, y.log, n))
  }

  /** Every namespace was there from the start or has a creation that still stands. */
  ghost predicate SpaceHistory(s0: Stores, y: Sys) {
    && (forall n | n in y.s.cluster.namespaces ::
          (n in s0.cluster.namespaces && Stays(y.log, n, -1)) || exists e :: Standing(y.log, n, e))
    && (y.log != [] ==> y.s.cluster.namespaces == y.log[|y.log| - 1].after.cluster.namespaces)
  }

  /** What the requests in the saga have done before. */
  ghost predicate RequestHistory(env: Env, y: Sys) {
    && (forall i | 0 <= i < |y.log| :: y.log[i].rid in y.procs)
    && (forall d, n | 0 <= d < |y.log| && RowGone(y.log[d], n) :: !Live(y.procs[y.log[d].rid]))
    && (forall e, n | 0 <= e < |y.log| && SpaceMade(y.log[e], n) ::
          y.log[e].fault.LostReply? || PastEnsure(y.procs[y.log[e].rid]))
    && (forall r | r in y.procs :: KnowsWhy(env, y.log, r, y.procs[r]))
  }

  ghost predicate KnowsWhy(env: Env, log: seq<Event>, r: ReqId, pc: Pc) {
    && (pc.Org? && (pc.o.CreateOwner? || pc.o.CreateEnsure? || pc.o.CreateUndo?) ==>
          MadeBy(log, pc.o.id, r) && Normal(env, pc.o.id))
    && (pc.Org? && pc.o.DeleteRow? ==> ClearedBy(log, pc.o.id, r))
    && (pc.Obj? && pc.b.Ensure? ==> AdmittedBy(env, log, pc.b.act.ns, r))
  }

  /** What the deleter of a row and the maker of a namespace have done before. */
  ghost predicate CauseHistory(env: Env, y: Sys) {
    && (forall d, n | 0 <= d < |y.log| && RowGone(y.log[d], n) ::
          exists b | 0 <= b < d :: y.log[b].rid == y.log[d].rid && Paves(env, y.log[b], n))
    && (forall e, n | 0 <= e < |y.log| && SpaceMade(y.log[e], n) ::
          exists c | 0 <= c < e :: y.log[c].rid == y.log[e].rid && AdmitsTo(env, y.log[c], n))
    && (forall d, e, n | 0 <= d < |y.log| && 0 <= e < |y.log| && RowGone(y.log[d], n) && SpaceMade(y.log[e], n) ::
          y.log[d].rid == y.log[e].rid ==> y.log[e].fault.LostReply?)
  }

  ghost predicate Inv(env: Env, s0: Stores, y: Sys) {
    && Orderly(env, s0, y) && GoneForGood(y) && RowsAccounted(s0, y)
    && SpaceHistory(s0, y) && RequestHistory(env, y) && CauseHistory(env, y)
  }

  // ---- One call keeps them ----

  lemma KeepsSchema(env: Env, e: Event)
    requires Facts(env, e) && Schema(env, e.before)
    requires forall n | SpaceMade(e, n) && Normal(env, n) :: n in e.before.issued
    ensures Schema(env, e.after)
  {
    KeepsSlugs(env, e);
    hide SpaceFacts, CameFrom;
  }

  lemma KeepsSlugs(env: Env, e: Event)
    requires TableFacts(env, e) && Schema(env, e.before)
    ensures forall m, n | m in e.after.tables.orgs && n in e.after.tables.orgs ::
              e.after.tables.orgs[m].slug == e.after.tables.orgs[n].slug ==> m == n
  {
  }

  lemma KeepsOrderly(env: Env, s0: Stores, y: Sys, e: Event)
    requires Orderly(env, s0, y) && Follows(y, e) && Facts(env, e) && Schema(env, e.after)
    ensures Orderly(env, s0, Record(y, e))
  {
    hide RowFacts, SpaceFacts, CameFrom, TableFacts, CreateFacts, CheckFacts, Schema;
  }

  lemma KeepsGone(env: Env, s0: Stores, y: Sys, e: Event)
    requires Orderly(env, s0, y) && GoneForGood(y) && Follows(y, e) && Facts(env, e)
    ensures GoneForGood(Record(y, e))
  {
    var y' := Record(y, e);
    forall n | n in y.s.issued && n !in y.s.tables.orgs ensures n !in e.after.tables.orgs {
      assert !RowMade(e, n);
    }
    forall n | RowGone(e, n) ensures n in y.s.issued {
    }
    hide Facts, Schema;
  }

  lemma KeepsRowsAccounted(s0: Stores, y: Sys, e: Event)
    requires RowsAccounted(s0, y) && Follows(y, e)
    ensures RowsAccounted(s0, Record(y, e))
  {
    var y' := Record(y, e);
    forall n | HadRow(s0, y'.log, n) && n !in y'.s.tables.orgs ensures WasDeleted(y'.log, n) {
      if n in y.s.tables.orgs {
        assert RowGone(y'.log[|y.log|], n);
      } else {
        assert HadRow(s0, y.log, n);
        var d :| 0 <= d < |y.log| && RowGone(y.log[d], n);
        assert RowGone(y'.log[d], n);
      }
    }
    forall n | n in y'.s.tables.orgs || WasDeleted(y'.log, n) ensures HadRow(s0, y'.log, n) {
      if n !in y.s.tables.orgs && n in y'.s.tables.orgs {
        assert RowMade(y'.log[|y.log|], n);
      } else {
        assert n in y.s.tables.orgs || WasDeleted(y.log, n);
        HadRowStays(s0, y.log, e, n);
      }
    }
  }

  lemma HadRowStays(s0: Stores, log: seq<Event>, e: Event, n: string)
    requires HadRow(s0, log, n)
    ensures HadRow(s0, log + [e], n)
  {
    if b :| 0 <= b < |log| && RowMade(log[b], n) {
      assert RowMade((log + [e])[b], n);
    }
  }

  lemma KeepsSpaceHistory(s0: Stores, y: Sys, e: Event)
    requires SpaceHistory(s0, y) && Follows(y, e)
    ensures SpaceHistory(s0, Record(y, e))
  {
    var y' := Record(y, e);
    forall n | n in y'.s.cluster.namespaces
      ensures (n in s0.cluster.namespaces && Stays(y'.log, n, -1)) || exists e :: Standing(y'.log, n, e)
    {
      if n !in y.s.cluster.namespaces {
        assert Standing(y'.log, n, |y.log|);
      } else if k :| Standing(y.log, n, k) {
        assert Standing(y'.log, n, k);
      } else {
        assert Stays(y'.log, n, -1);
      }
    }
  }

  /** The past of a request is not forgotten. */
  lemma StillKnowsWhy(env: Env, log: seq<Event>, e: Event, r: ReqId, pc: Pc)
    requires KnowsWhy(env, log, r, pc)
    ensures KnowsWhy(env, log + [e], r, pc)
  {
    forall i | 0 <= i < |log| ensures (log + [e])[i] == log[i] {
    }
  }

  lemma NowKnowsWhy(env: Env, y: Sys, e: Event)
    requires Follows(y, e) && Facts(env, e) && Schema(env, y.s)
    requires KnowsWhy(env, y.log, e.rid, e.pc)
    ensures KnowsWhy(env, y.log + [e], e.rid, e.next)
  {
    hide RowFacts, SpaceFacts, TableFacts;
    var log := y.log + [e];
    assert log[|y.log|] == e;
    StillKnowsWhy(env, y.log, e, e.rid, e.pc);
    if e.next.Org? && e.next.o.CreateOwner? {
      assert RowMade(log[|y.log|], e.next.o.id);
    } else if e.next.Org? && e.next.o.DeleteRow? {
      assert Cleared(log[|y.log|], e.next.o.id);
    } else if e.next.Obj? && e.next.b.Ensure? {
      assert AdmitsTo(env, log[|y.log|], e.next.b.act.ns);
    }
  }

  lemma KeepsRequestHistory(env: Env, y: Sys, e: Event)
    requires RequestHistory(env, y) && Follows(y, e) && Facts(env, e) && Schema(env, y.s)
    ensures RequestHistory(env, Record(y, e))
  {
    var y' := Record(y, e);
    forall r | r in y'.procs ensures KnowsWhy(env, y'.log, r, y'.procs[r]) {
      if r == e.rid {
        NowKnowsWhy(env, y, e);
      } else {
        StillKnowsWhy(env, y.log, e, r, y.procs[r]);
      }
    }
    KeepsEndings(env, y, e);
    hide Facts, KnowsWhy, Schema;
  }

  lemma KeepsEndings(env: Env, y: Sys, e: Event)
    requires RequestHistory(env, y) && Follows(y, e) && Facts(env, e)
    ensures var y' := Record(y, e);
            && (forall d, n | 0 <= d < |y'.log| && RowGone(y'.log[d], n) :: !Live(y'.procs[y'.log[d].rid]))
            && (forall k, n | 0 <= k < |y'.log| && SpaceMade(y'.log[k], n) ::
                  y'.log[k].fault.LostReply? || PastEnsure(y'.procs[y'.log[k].rid]))
  {
    var y' := Record(y, e);
    hide TableFacts, KnowsWhy, OrgCameFrom;
    assert forall i | 0 <= i < |y.log| :: y'.log[i] == y.log[i];
    assert forall n | RowGone(e, n) :: e.next.Finished?;
    assert forall n | SpaceMade(e, n) :: e.fault.LostReply? || PastEnsure(e.next);
    hide RowFacts, SpaceFacts;
  }

  lemma KeepsCauseHistory(env: Env, y: Sys, e: Event)
    requires CauseHistory(env, y) && RequestHistory(env, y) && Follows(y, e) && Facts(env, e)
    ensures CauseHistory(env, Record(y, e))
  {
    var log := y.log + [e];
    assert forall i | 0 <= i < |y.log| :: log[i] == y.log[i];
    forall d, n | 0 <= d < |log| && RowGone(log[d], n)
      ensures exists b | 0 <= b < d :: log[b].rid == log[d].rid && Paves(env, log[b], n)
    {
      if d == |y.log| {
        DeleterKnows(env, y, e, n);
        var b :| 0 <= b < |y.log| && y.log[b].rid == e.rid && Paves(env, y.log[b], n);
        assert log[b].rid == log[d].rid;
      } else {
        var b :| 0 <= b < d && y.log[b].rid == y.log[d].rid && Paves(env, y.log[b], n);
        assert log[b].rid == log[d].rid;
      }
    }
    forall k, n | 0 <= k < |log| && SpaceMade(log[k], n)
      ensures exists c | 0 <= c < k :: log[c].rid == log[k].rid && AdmitsTo(env, log[c], n)
    {
      if k == |y.log| {
        MakerKnows(env, y, e, n);
        var c :| 0 <= c < |y.log| && y.log[c].rid == e.rid && AdmitsTo(env, y.log[c], n);
        assert log[c].rid == log[k].rid;
      } else {
        var c :| 0 <= c < k && y.log[c].rid == y.log[k].rid && AdmitsTo(env, y.log[c], n);
        assert log[c].rid == log[k].rid;
      }
    }
    KeepsApart(env, y, e);
    hide Facts, KnowsWhy;
  }

  lemma DeleterKnows(env: Env, y: Sys, e: Event, n: string)
    requires RequestHistory(env, y) && Follows(y, e) && Facts(env, e) && RowGone(e, n)
    ensures exists b | 0 <= b < |y.log| :: y.log[b].rid == e.rid && Paves(env, y.log[b], n)
  {
    hide SpaceFacts, CameFrom, TableFacts;
    assert KnowsWhy(env, y.log, e.rid, e.pc);
  }

  lemma MakerKnows(env: Env, y: Sys, e: Event, n: string)
    requires RequestHistory(env, y) && Follows(y, e) && Facts(env, e) && SpaceMade(e, n)
    ensures exists c | 0 <= c < |y.log| :: y.log[c].rid == e.rid && AdmitsTo(env, y.log[c], n)
  {
    hide RowFacts, CameFrom, TableFacts;
    assert KnowsWhy(env, y.log, e.rid, e.pc);
    if e.pc.Org? {
      var b :| 0 <= b < |y.log| && y.log[b].rid == e.rid && RowMade(y.log[b], n);
      assert AdmitsTo(env, y.log[b], n);
    }
  }

  /** A request that deleted a row did not create that namespace before, unless the reply got lost. */
  lemma KeepsApart(env: Env, y: Sys, e: Event)
    requires CauseHistory(env, y) && RequestHistory(env, y) && Follows(y, e) && Facts(env, e)
    ensures var log := y.log + [e];
            forall d, k, n | 0 <= d < |log| && 0 <= k < |log| && RowGone(log[d], n) && SpaceMade(log[k], n) ::
              log[d].rid == log[k].rid ==> log[k].fault.LostReply?
  {
    var log := y.log + [e];
    hide CameFrom, TableFacts, KnowsWhy;
    forall d, k, n | 0 <= d < |log| && 0 <= k < |log| && RowGone(log[d], n) && SpaceMade(log[k], n)
                     && log[d].rid == log[k].rid
      ensures log[k].fault.LostReply?
    {
      assert d < |y.log| ==> log[d] == y.log[d];
      assert k < |y.log| ==> log[k] == y.log[k];
      if d == |y.log| {
        assert RemovesRow(env, e, n);
      }
    }
  }

  lemma AdmittedIsIssued(env: Env, s0: Stores, y: Sys, c: int, n: string)
    requires Orderly(env, s0, y) && 0 <= c < |y.log| && Admits(y.log[c], n)
    ensures n in y.s.issued && (n in y.log[c].before.tables.orgs || n in y.log[c].after.tables.orgs)
  {
    hide SpaceFacts, CameFrom, TableFacts;
    assert Facts(env, y.log[c]) && Schema(env, y.log[c].before);
  }

  lemma CallKeepsInv(env: Env, s0: Stores, y: Sys, e: Event)
    requires Inv(env, s0, y) && Follows(y, e) && Facts(env, e)
    ensures Inv(env, s0, Record(y, e))
  {
    forall n | SpaceMade(e, n) && Normal(env, n) ensures n in e.before.issued {
      MakerKnows(env, y, e, n);
      var c :| 0 <= c < |y.log| && y.log[c].rid == e.rid && AdmitsTo(env, y.log[c], n);
      AdmittedIsIssued(env, s0, y, c, n);
    }
    KeepsSchema(env, e);
    KeepsOrderly(env, s0, y, e);
    KeepsGone(env, s0, y, e);
    KeepsRowsAccounted(s0, y, e);
    KeepsSpaceHistory(s0, y, e);
    KeepsRequestHistory(env, y, e);
    KeepsCauseHistory(env, y, e);
    hide Facts, Orderly, GoneForGood, RowsAccounted, SpaceHistory, RequestHistory, CauseHistory;
  }

  predicate NoCallOnStores(y: Sys, y': Sys) {
    y'.log == y.log && y'.s == y.s.(now := y'.s.now)
  }

  /** Arrivals, crashes and time: no call is made. */
  ghost predicate NoCall(y: Sys, y': Sys) {
    && NoCallOnStores(y, y')
    && (forall r | r in y.procs ::
          r in y'.procs && (y'.procs[r] == y.procs[r] || (y'.procs[r].Crashed? && Live(y.procs[r]))))
    && (forall r | r in y'.procs && r !in y.procs :: NewRequest(y'.procs[r]))
  }

  /** A request that has made no call yet, or the operator. */
  predicate NewRequest(pc: Pc) {
    FirstPoint(pc) || (pc.Gate? && pc.g.KeyLookup?) || (pc.Obj? && pc.b.Reporting?)
  }

  lemma NoCallKeepsInv(env: Env, s0: Stores, y: Sys, y': Sys)
    requires Inv(env, s0, y) && NoCall(y, y')
    ensures Inv(env, s0, y')
  {
    NoCallKeepsRequests(env, y, y');
    NoCallKeepsOrderly(env, s0, y, y');
    NoCallKeepsHistory(env, s0, y, y');
    hide Orderly, RequestHistory, CauseHistory, GoneForGood, RowsAccounted, SpaceHistory, NoCall;
  }

  lemma NoCallKeepsOrderly(env: Env, s0: Stores, y: Sys, y': Sys)
    requires Orderly(env, s0, y) && NoCallOnStores(y, y')
    ensures Orderly(env, s0, y')
  {
    assert Schema(env, y'.s);
    hide Facts, Schema;
  }

  lemma NoCallKeepsHistory(env: Env, s0: Stores, y: Sys, y': Sys)
    requires NoCallOnStores(y, y')
    ensures GoneForGood(y) ==> GoneForGood(y')
    ensures RowsAccounted(s0, y) ==> RowsAccounted(s0, y')
    ensures SpaceHistory(s0, y) ==> SpaceHistory(s0, y')
    ensures CauseHistory(env, y) ==> CauseHistory(env, y')
  {
    hide RowGone, SpaceMade, Cleared, Admits, RowMade, HadRow, WasDeleted, Stays, Standing;
  }

  lemma NoCallKeepsRequests(env: Env, y: Sys, y': Sys)
    requires RequestHistory(env, y) && NoCall(y, y')
    ensures RequestHistory(env, y') && NoCallOnStores(y, y')
  {
    forall r | r in y'.procs ensures KnowsWhy(env, y'.log, r, y'.procs[r]) {
      if r in y.procs {
        assert KnowsWhy(env, y.log, r, y.procs[r]);
      } else {
        assert NewRequest(y'.procs[r]);
      }
    }
    hide KnowsWhy, NewRequest;
  }

  lemma NextIsCallOrNot(env: Env, y: Sys, a: Action)
    ensures var y' := Next(env, y, a);
            NoCall(y, y') || (a.Call? && InFlight(y, a.rid) && y' == Record(y, NextEvent(env, y, a.rid, a.choice)))
  {
    if a.Arrive? { BeginFirst(env, y.s.now, a.req); }
    hide Begin, NextEvent;
  }

  /** An action makes no call, or records an event that obeys the facts. */
  lemma NextIsEvent(env: Env, y: Sys, a: Action)
    ensures var y' := Next(env, y, a);
            NoCall(y, y') || (a.Call? && InFlight(y, a.rid)
                              && var e := NextEvent(env, y, a.rid, a.choice);
                                 y' == Record(y, e) && Follows(y, e) && Facts(env, e))
  {
    NextIsCallOrNot(env, y, a);
    if a.Call? && InFlight(y, a.rid) {
      FactsHold(env, y, a.rid, a.choice);
    }
    hide Next, Step, Issue, Facts, NoCall;
  }

  lemma InvGivesSchema(env: Env, s0: Stores, y: Sys)
    requires Inv(env, s0, y)
    ensures Schema(env, y.s) && Orderly(env, s0, y) && RequestHistory(env, y)
  {
    hide Facts, Schema, GoneForGood, RowsAccounted, SpaceHistory, RequestHistory, CauseHistory;
  }

  lemma NextKeepsInv(env: Env, s0: Stores, y: Sys, a: Action)
    requires Inv(env, s0, y)
    ensures Inv(env, s0, Next(env, y, a))
  {
    NextIsEvent(env, y, a);
    hide *;
    if NoCall(y, Next(env, y, a)) {
      NoCallKeepsInv(env, s0, y, Next(env, y, a));
    } else {
      CallKeepsInv(env, s0, y, NextEvent(env, y, a.rid, a.choice));
    }
  }

  lemma {:induction false} RunKeepsInv(env: Env, s0: Stores, acts: seq<Action>)
    requires Schema(env, s0)
    ensures Inv(env, s0, Run(env, Boot(s0), acts))
  {
    hide Next;
    if acts == [] {
    } else {
      var n := |acts| - 1;
      RunKeepsInv(env, s0, acts[..n]);
      NextKeepsInv(env, s0, Run(env, Boot(s0), acts[..n]), acts[n]);
      hide Inv;
    }
  }

  // ---- Orphaned namespaces ----

  /** A namespace of an organization that was deleted. */
  ghost predicate Orphan(s0: Stores, y: Sys, n: string) {
    n in y.s.cluster.namespaces && n !in y.s.tables.orgs && HadRow(s0, y.log, n)
  }

  /** A request admitted to the organization at `c` made the namespace that still stands at `e`; a request
      that cleared the namespace or made the row at `b` deleted the row at `d`; the two spans overlap. */
  ghost predicate Overlap(log: seq<Event>, n: string, c: int, e: int, b: int, d: int) {
    && 0 <= c < e < |log| && log[c].rid == log[e].rid && Admits(log[c], n) && Standing(log, n, e)
    && 0 <= b < d < |log| && log[b].rid == log[d].rid
    && (Cleared(log[b], n) || RowMade(log[b], n)) && RowGone(log[d], n)
    && c < d && b < e
  }

  /** The two requests differ, or the one request lost the reply of its own namespace creation. */
  predicate TwoRequestsOrLostReply(log: seq<Event>, e: int, d: int)
    requires 0 <= e < |log| && 0 <= d < |log|
  {
    log[e].rid != log[d].rid || log[e].fault.LostReply?
  }

  /** Two overlapping requests left the namespace behind, or one creation that lost a reply. */
  ghost predicate LeftByOverlap(log: seq<Event>, n: string) {
    exists c, e, b, d :: Overlap(log, n, c, e, b, d) && TwoRequestsOrLostReply(log, e, d)
  }

  /** A request that deleted the row cleared the namespace of another spelling of its identifier. */
  ghost predicate ClearsElsewhere(env: Env, log: seq<Event>, n: string, b: int, d: int) {
    && 0 <= b < d < |log| && log[b].rid == log[d].rid
    && ClearsFor(env, log[b], n) && log[b].call.c.ns != n && RowGone(log[d], n)
  }

  /** The namespace was there from the start or was made, and nobody deleted it since. */
  ghost predicate StandsNow(s0: Stores, log: seq<Event>, n: string) {
    (n in s0.cluster.namespaces && Stays(log, n, -1)) || exists e :: Standing(log, n, e)
  }

  ghost predicate LeftByOtherName(env: Env, s0: Stores, log: seq<Event>, n: string) {
    StandsNow(s0, log, n) && exists b, d :: ClearsElsewhere(env, log, n, b, d)
  }

  lemma OverlapMakesOrphan(s0: Stores, y: Sys, n: string, c: int, e: int, b: int, d: int)
    requires GoneForGood(y) && RowsAccounted(s0, y) && SpaceHistory(s0, y) && Overlap(y.log, n, c, e, b, d)
    ensures Orphan(s0, y, n)
  {
    StandingIsThere(s0, y, n, e);
    DeletedIsGone(s0, y, n, d);
    hide GoneForGood, RowsAccounted, SpaceHistory;
  }

  lemma StandingIsThere(s0: Stores, y: Sys, n: string, e: int)
    requires SpaceHistory(s0, y) && Standing(y.log, n, e)
    ensures n in y.s.cluster.namespaces
  {
    var last := |y.log| - 1;
    assert e < last ==> n in y.log[last].after.cluster.namespaces;
  }

  lemma StandsNowIsThere(s0: Stores, y: Sys, n: string)
    requires SpaceHistory(s0, y) && StandsNow(s0, y.log, n) && y.log != []
    ensures n in y.s.cluster.namespaces
  {
    if e :| Standing(y.log, n, e) {
      StandingIsThere(s0, y, n, e);
    } else {
      assert n in y.log[|y.log| - 1].after.cluster.namespaces;
    }
  }

  lemma OtherNameMakesOrphan(env: Env, s0: Stores, y: Sys, n: string)
    requires GoneForGood(y) && RowsAccounted(s0, y) && SpaceHistory(s0, y) && LeftByOtherName(env, s0, y.log, n)
    ensures Orphan(s0, y, n)
  {
    var b, d :| ClearsElsewhere(env, y.log, n, b, d);
    StandsNowIsThere(s0, y, n);
    DeletedIsGone(s0, y, n, d);
    hide GoneForGood, RowsAccounted, SpaceHistory, StandsNow, ClearsFor;
  }

  /** Rows are stored under identifiers in normal form. */
  lemma RowsAreNormal(env: Env, s0: Stores, y: Sys, n: string)
    requires Orderly(env, s0, y) && Schema(env, s0) && HadRow(s0, y.log, n)
    ensures Normal(env, n)
  {
    if n !in s0.tables.orgs {
      var b :| 0 <= b < |y.log| && RowMade(y.log[b], n);
      assert Facts(env, y.log[b]);
    }
    hide SpaceFacts, CameFrom, TableFacts, CheckFacts;
  }

  lemma DeletedIsGone(s0: Stores, y: Sys, n: string, d: int)
    requires GoneForGood(y) && RowsAccounted(s0, y) && 0 <= d < |y.log| && RowGone(y.log[d], n)
    ensures n !in y.s.tables.orgs && HadRow(s0, y.log, n)
  {
    assert n !in y.s.tables.orgs;
    hide GoneForGood;
    assert WasDeleted(y.log, n);
  }

  /** A namespace from before the run that was never touched was neither cleared nor named anew. */
  lemma OldSpaceUntouched(env: Env, s0: Stores, y: Sys, n: string, b: int)
    requires Orderly(env, s0, y) && Schema(env, s0) && Normal(env, n)
    requires n in s0.cluster.namespaces && Stays(y.log, n, -1) && 0 <= b < |y.log|
    ensures !Cleared(y.log[b], n) && !RowMade(y.log[b], n)
  {
    assert Facts(env, y.log[b]) && s0.issued <= y.log[b].before.issued;
    hide CameFrom, TableFacts;
  }

  lemma DeletedAt(s0: Stores, y: Sys, n: string) returns (d: int)
    requires RowsAccounted(s0, y) && HadRow(s0, y.log, n) && n !in y.s.tables.orgs
    ensures 0 <= d < |y.log| && RowGone(y.log[d], n)
  {
    d :| 0 <= d < |y.log| && RowGone(y.log[d], n);
  }

  lemma CausedAt(env: Env, y: Sys, n: string, d: int) returns (b: int)
    requires CauseHistory(env, y) && 0 <= d < |y.log| && RowGone(y.log[d], n)
    ensures 0 <= b < d && y.log[b].rid == y.log[d].rid && Paves(env, y.log[b], n)
  {
    b :| 0 <= b < d && y.log[b].rid == y.log[d].rid && Paves(env, y.log[b], n);
  }

  lemma AdmittedAt(env: Env, y: Sys, n: string, e: int) returns (c: int)
    requires CauseHistory(env, y) && 0 <= e < |y.log| && SpaceMade(y.log[e], n)
    ensures 0 <= c < e && y.log[c].rid == y.log[e].rid && AdmitsTo(env, y.log[c], n)
  {
    c :| 0 <= c < e && y.log[c].rid == y.log[e].rid && AdmitsTo(env, y.log[c], n);
  }

  lemma MadeAt(s0: Stores, y: Sys, n: string) returns (e: int)
    requires SpaceHistory(s0, y) && n in y.s.cluster.namespaces
    requires n in s0.cluster.namespaces ==> !Stays(y.log, n, -1)
    ensures Standing(y.log, n, e)
  {
    e :| Standing(y.log, n, e);
  }

  lemma SameRequestLost(env: Env, y: Sys, n: string, e: int, d: int)
    requires CauseHistory(env, y) && 0 <= e < |y.log| && 0 <= d < |y.log|
    requires SpaceMade(y.log[e], n) && RowGone(y.log[d], n)
    ensures TwoRequestsOrLostReply(y.log, e, d)
  {
    hide Cleared, Admits, RowMade, SpaceMade, RowGone;
  }

  /** Who deleted the row cleared another name, or the standing namespace was made in between. */
  lemma OrphanHasCause(env: Env, s0: Stores, y: Sys, n: string)
    requires Inv(env, s0, y) && Schema(env, s0) && Orphan(s0, y, n)
    ensures LeftByOverlap(y.log, n) || LeftByOtherName(env, s0, y.log, n)
  {
    RowsAreNormal(env, s0, y, n);
    assert StandsNow(s0, y.log, n);
    var d := DeletedAt(s0, y, n);
    var b := CausedAt(env, y, n, d);
    if RowMade(y.log[b], n) || y.log[b].call.c.ns == n {
      MadeMeanwhile(env, s0, y, n, b, d);
    } else {
      assert ClearsElsewhere(env, y.log, n, b, d);
    }
    hide Orderly, RequestHistory, CauseHistory, GoneForGood, RowsAccounted, SpaceHistory, StandsNow, LeftByOverlap;
  }

  lemma MadeMeanwhile(env: Env, s0: Stores, y: Sys, n: string, b: int, d: int)
    requires Inv(env, s0, y) && Schema(env, s0) && Orphan(s0, y, n) && Normal(env, n)
    requires 0 <= b < d < |y.log| && y.log[b].rid == y.log[d].rid && RowGone(y.log[d], n)
    requires Cleared(y.log[b], n) || RowMade(y.log[b], n)
    ensures LeftByOverlap(y.log, n)
  {
    if n in s0.cluster.namespaces && Stays(y.log, n, -1) {
      OldSpaceUntouched(env, s0, y, n, b);
    }
    var e := MadeAt(s0, y, n);
    var c := AdmittedAt(env, y, n, e);
    AdmittedBeforeDeleted(env, s0, y, n, c, d);
    ClearedBeforeMade(env, s0, y, n, c, e, b);
    SameRequestLost(env, y, n, e, d);
    hide Orderly, RequestHistory, CauseHistory, GoneForGood, RowsAccounted, SpaceHistory, Stays;
    assert Overlap(y.log, n, c, e, b, d);
  }

  lemma RemovalAdmitsNobody(env: Env, e: Event, n: string)
    requires Facts(env, e) && RowGone(e, n)
    ensures !Admits(e, n)
  {
    hide SpaceFacts, CameFrom, TableFacts, CheckFacts;
  }

  lemma AdmittedBeforeDeleted(env: Env, s0: Stores, y: Sys, n: string, c: int, d: int)
    requires Orderly(env, s0, y) && GoneForGood(y)
    requires 0 <= c < |y.log| && 0 <= d < |y.log| && Admits(y.log[c], n) && RowGone(y.log[d], n)
    ensures c < d
  {
    AdmittedIsIssued(env, s0, y, c, n);
    RemovalAdmitsNobody(env, y.log[d], n);
    hide Facts, Schema, Admits;
  }

  lemma ClearedBeforeMade(env: Env, s0: Stores, y: Sys, n: string, c: int, e: int, b: int)
    requires Orderly(env, s0, y)
    requires 0 <= c < e && Standing(y.log, n, e) && Admits(y.log[c], n)
    requires 0 <= b < |y.log| && (Cleared(y.log[b], n) || RowMade(y.log[b], n))
    ensures b < e
  {
    assert Facts(env, y.log[b]) && Facts(env, y.log[e]) && Facts(env, y.log[c]);
    assert Schema(env, y.log[c].before);
    AdmittedIsIssued(env, s0, y, c, n);
    hide CameFrom, TableFacts;
  }

  /** A deleted organization's namespace is there exactly when two overlapping requests left it behind, one
      creation lost the reply of its own namespace call and took its row back, or the request that deleted the
      row spelled the identifier in another way and so cleared another name. */
  lemma OrphanIffOverlap(env: Env, s0: Stores, acts: seq<Action>, n: string)
    requires Schema(env, s0)
    ensures var y := Run(env, Boot(s0), acts);
            Orphan(s0, y, n) <==> LeftByOverlap(y.log, n) || LeftByOtherName(env, s0, y.log, n)
  {
    var y := Run(env, Boot(s0), acts);
    RunKeepsInv(env, s0, acts);
    if Orphan(s0, y, n) {
      OrphanHasCause(env, s0, y, n);
    }
    if c, e, b, d :| Overlap(y.log, n, c, e, b, d) && TwoRequestsOrLostReply(y.log, e, d) {
      OverlapMakesOrphan(s0, y, n, c, e, b, d);
    }
    if LeftByOtherName(env, s0, y.log, n) {
      OtherNameMakesOrphan(env, s0, y, n);
    }
    hide Orphan, Overlap, Inv, Run, LeftByOtherName;
  }

  // ---- Deletions by the normal form ----

  /** The text is an identifier's normal form, or no identifier at all. */
  predicate Tidy(env: Env, text: string) {
    env.uuid(text).Some? ==> Normal(env, text)
  }

  /** No request deletes an organization by another spelling of its identifier. */
  predicate TidyOp(env: Env, op: Op) {
    op.DeleteOrganization? ==> Tidy(env, op.id)
  }

  predicate TidyRun(env: Env, acts: seq<Action>) {
    forall a | a in acts :: a.Arrive? ==> TidyOp(env, a.req.op)
  }

  predicate TidyPoint(env: Env, pc: Pc) {
    match pc
    case Gate(g) => TidyOp(env, g.op)
    case Org(o) => o.DeleteRole? || o.DeleteSpace? || o.DeleteRow? ==> Tidy(env, o.id)
    case _ => true
  }

  ghost predicate AllTidy(env: Env, y: Sys) {
    && (forall r | r in y.procs :: TidyPoint(env, y.procs[r]))
    && (forall i | 0 <= i < |y.log| :: TidyPoint(env, y.log[i].pc))
  }

  lemma EnterTidy(env: Env, now: nat, user: string, op: Op)
    requires TidyOp(env, op)
    ensures TidyPoint(env, Enter(env, now, user, op))
  {
  }

  lemma BeginTidy(env: Env, now: nat, req: Request)
    requires TidyOp(env, req.op)
    ensures TidyPoint(env, Begin(env, now, req))
  {
    forall user ensures TidyPoint(env, Enter(env, now, user, req.op)) {
      EnterTidy(env, now, user, req.op);
    }
    hide Enter, MethodOf;
  }

  lemma ResumeTidy(env: Env, now: nat, pc: Pc, a: Answer)
    requires Live(pc) && TidyPoint(env, pc)
    ensures TidyPoint(env, Resume(env, now, pc, a))
  {
    if pc.Gate? && pc.g.KeyTouch? {
      EnterTidy(env, now, pc.g.who.user, pc.g.op);
    }
    hide Enter, MethodOf, AfterFirst, Validated;
  }

  lemma StepTidy(env: Env, s: Stores, pc: Pc, c: Choice)
    requires Live(pc) && TidyPoint(env, pc)
    ensures TidyPoint(env, Step(env, s, pc, c).1)
  {
    var (s', a) := Perform(s, Issue(env, pc, c.id), c.fault);
    ResumeTidy(env, s'.now, pc, a);
    hide Perform, Issue, Resume, TidyPoint;
  }

  lemma NextTidy(env: Env, y: Sys, a: Action)
    requires AllTidy(env, y) && (a.Arrive? ==> TidyOp(env, a.req.op))
    ensures AllTidy(env, Next(env, y, a))
  {
    if a.Arrive? { BeginTidy(env, y.s.now, a.req); }
    if a.Call? && InFlight(y, a.rid) { StepTidy(env, y.s, y.procs[a.rid], a.choice); }
    hide Begin, Step, Issue, TidyOp;
  }

  lemma {:induction false} RunTidy(env: Env, s0: Stores, acts: seq<Action>)
    requires TidyRun(env, acts)
    ensures AllTidy(env, Run(env, Boot(s0), acts))
  {
    hide Next;
    if acts != [] {
      var k := |acts| - 1;
      RunTidy(env, s0, acts[..k]);
      assert acts[k] in acts;
      NextTidy(env, Run(env, Boot(s0), acts[..k]), acts[k]);
      hide AllTidy;
    }
    hide TidyOp;
  }

  lemma TidyClearsItsOwn(env: Env, s0: Stores, y: Sys, n: string)
    requires Orderly(env, s0, y) && AllTidy(env, y)
    ensures !LeftByOtherName(env, s0, y.log, n)
  {
    hide RowFacts, CameFrom, TableFacts, CheckFacts, StandsNow, Schema;
  }

  /** The calls of no two requests are interleaved. */
  ghost predicate SeparateRequests(log: seq<Event>) {
    forall i, j, k | 0 <= i < j < k < |log| :: log[i].rid == log[k].rid ==> log[j].rid == log[i].rid
  }

  ghost predicate NoLostReply(log: seq<Event>) {
    forall i | 0 <= i < |log| :: log[i].fault != LostReply
  }

  lemma {:induction false} FailStopLog(env: Env, s0: Stores, acts: seq<Action>)
    requires FailStopRun(acts)
    ensures NoLostReply(Run(env, Boot(s0), acts).log)
  {
    hide Next;
    if acts != [] {
      var n := |acts| - 1;
      FailStopLog(env, s0, acts[..n]);
      var y := Run(env, Boot(s0), acts[..n]);
      assert acts[n] in acts;
      NextIsCallOrNot(env, y, acts[n]);
      if !NoCall(y, Next(env, y, acts[n])) {
        assert NextEvent(env, y, acts[n].rid, acts[n].choice).fault != LostReply;
      }
    }
    hide Begin, Step, Issue;
  }

  /** Without lost replies, requests that do not overlap never leave such a namespace behind, provided that
      organizations are deleted by the normal form of their identifiers. */
  lemma SeparateRequestsLeaveNoOrphan(env: Env, s0: Stores, acts: seq<Action>, n: string)
    requires Schema(env, s0) && FailStopRun(acts) && TidyRun(env, acts)
    requires SeparateRequests(Run(env, Boot(s0), acts).log)
    ensures !Orphan(s0, Run(env, Boot(s0), acts), n)
  {
    var y := Run(env, Boot(s0), acts);
    RunKeepsInv(env, s0, acts);
    RunTidy(env, s0, acts);
    FailStopLog(env, s0, acts);
    InvGivesSchema(env, s0, y);
    hide *;
    if Orphan(s0, y, n) {
      OrphanHasCause(env, s0, y, n);
      TidyClearsItsOwn(env, s0, y, n);
      OverlapSpans(y.log, n);
    }
  }

  lemma OverlapSpans(log: seq<Event>, n: string)
    requires LeftByOverlap(log, n) && NoLostReply(log)
    ensures !SeparateRequests(log)
  {
    var c, e, b, d :| Overlap(log, n, c, e, b, d) && TwoRequestsOrLostReply(log, e, d);
    SpansInterleave(log, c, e, b, d);
    hide SeparateRequests, Standing, Admits, Cleared, RowMade, RowGone;
  }

  lemma SpansInterleave(log: seq<Event>, c: int, e: int, b: int, d: int)
    requires 0 <= c < e < |log| && 0 <= b < d < |log| && c < d && b < e
    requires log[c].rid == log[e].rid && log[b].rid == log[d].rid && log[e].rid != log[d].rid
    ensures !SeparateRequests(log)
  {
    assert b < c ==> b < c < d;
    assert c < b ==> c < b < e;
  }

  // ---- Tombstones ----

  /** After the row is gone there is no membership, nobody is admitted, and every check is turned down. */
  lemma Tombstones(env: Env, s0: Stores, acts: seq<Action>, d: nat, n: string)
    requires Schema(env, s0)
    requires d < |Run(env, Boot(s0), acts).log| && RowGone(Run(env, Boot(s0), acts).log[d], n)
    ensures var y := Run(env, Boot(s0), acts);
            && n !in y.s.tables.orgs && (forall u :: (u, n) !in y.s.tables.members)
            && forall i | d < i < |y.log| ::
                 && !Admits(y.log[i], n)
                 && (Checked(env, y.log[i].pc).Some? && Checked(env, y.log[i].pc).value.1 == n ==>
                       EndsTurnedAway(y.log[i]))
  {
    var y := Run(env, Boot(s0), acts);
    RunKeepsInv(env, s0, acts);
    assert n !in y.s.tables.orgs;
    forall i | d < i < |y.log|
      ensures !Admits(y.log[i], n)
      ensures Checked(env, y.log[i].pc).Some? && Checked(env, y.log[i].pc).value.1 == n ==>
                EndsTurnedAway(y.log[i])
    {
      TombstoneEvent(env, s0, y, d, i, n);
    }
    hide Facts, Run, RowsAccounted, SpaceHistory, RequestHistory, CauseHistory, GoneForGood, Checked;
  }

  lemma TombstoneEvent(env: Env, s0: Stores, y: Sys, d: int, i: int, n: string)
    requires Orderly(env, s0, y) && GoneForGood(y) && 0 <= d < i < |y.log| && RowGone(y.log[d], n)
    ensures !Admits(y.log[i], n)
    ensures Checked(env, y.log[i].pc).Some? && Checked(env, y.log[i].pc).value.1 == n ==>
              EndsTurnedAway(y.log[i])
  {
    assert Facts(env, y.log[i]) && Schema(env, y.log[i].before);
    assert n !in y.log[i].before.tables.orgs && n !in y.log[i].after.tables.orgs;
    hide Orderly, GoneForGood, RowFacts, SpaceFacts, CameFrom, TableFacts, CreateFacts;
  }

  // ---- Names of namespaces ----

  /** The rows an event found were there from the start or made before it. */
  ghost predicate RowsFound(s0: Stores, log: seq<Event>) {
    forall i, n | 0 <= i < |log| && n in log[i].before.tables.orgs :: HadRow(s0, log[..i], n)
  }

  lemma {:induction false} RunRowsFound(env: Env, s0: Stores, acts: seq<Action>)
    requires Schema(env, s0)
    ensures RowsFound(s0, Run(env, Boot(s0), acts).log)
  {
    hide Next;
    if acts != [] {
      var k := |acts| - 1;
      var y := Run(env, Boot(s0), acts[..k]);
      RunRowsFound(env, s0, acts[..k]);
      RunKeepsInv(env, s0, acts[..k]);
      NextIsCallOrNot(env, y, acts[k]);
      if !NoCall(y, Next(env, y, acts[k])) {
        KeepsRowsFound(s0, y, NextEvent(env, y, acts[k].rid, acts[k].choice));
      }
    }
    hide NextEvent, Orderly, RequestHistory, CauseHistory, SpaceHistory, GoneForGood, RowsAccounted, RowsFound;
  }

  lemma KeepsRowsFound(s0: Stores, y: Sys, e: Event)
    requires RowsFound(s0, y.log) && RowsAccounted(s0, y) && e.before == y.s
    ensures RowsFound(s0, y.log + [e])
  {
    var log := y.log + [e];
    forall i, n | 0 <= i < |log| && n in log[i].before.tables.orgs ensures HadRow(s0, log[..i], n) {
      if i < |y.log| {
        assert log[..i] == y.log[..i] && log[i] == y.log[i];
      } else {
        assert log[..i] == y.log;
      }
    }
  }

  lemma HadRowBefore(s0: Stores, log: seq<Event>, n: string, c: int, e: int)
    requires 0 <= c <= e <= |log| && HadRow(s0, log[..c], n)
    ensures HadRow(s0, log[..e], n)
  {
    if b :| 0 <= b < c && RowMade(log[..c][b], n) {
      assert RowMade(log[..e][b], n);
    }
  }

  /** Whoever was admitted found the row. */
  lemma AdmittedFoundRow(env: Env, s0: Stores, y: Sys, c: int, e: int, n: string)
    requires Orderly(env, s0, y) && RowsFound(s0, y.log) && 0 <= c < e <= |y.log| && Admits(y.log[c], n)
    ensures HadRow(s0, y.log[..e], n)
  {
    if RowMade(y.log[c], n) {
      assert RowMade(y.log[..e][c], n);
    } else {
      assert Schema(env, y.log[c].before);
      HadRowBefore(s0, y.log, n, c, e);
    }
    hide Orderly, HadRow;
  }

  lemma SpaceIsNamedAfterRow(env: Env, s0: Stores, y: Sys, e: nat, n: string)
    requires Orderly(env, s0, y) && CauseHistory(env, y) && RowsFound(s0, y.log) && Schema(env, s0)
    requires e < |y.log| && SpaceMade(y.log[e], n)
    ensures env.uuid(n).Some? && HadRow(s0, y.log[..e], env.uuid(n).value)
    ensures HadRow(s0, y.log[..e], n) <==> Normal(env, n)
  {
    var c := AdmittedAt(env, y, n, e);
    hide Orderly, CauseHistory, RowsFound, HadRow;
    AdmittedFoundRow(env, s0, y, c, e, env.uuid(n).value);
    if HadRow(s0, y.log[..e], n) {
      assert y.log[..|y.log|] == y.log;
      HadRowBefore(s0, y.log, n, e, |y.log|);
      RowsAreNormal(env, s0, y, n);
    }
  }

  /** Every namespace the service ever makes is named by a spelling of an identifier that had a row before. It is
      the identifier of a row itself exactly if that spelling is the normal form. */
  lemma SpacesAreNamedAfterRows(env: Env, s0: Stores, acts: seq<Action>, e: nat, n: string)
    requires Schema(env, s0)
    requires e < |Run(env, Boot(s0), acts).log| && SpaceMade(Run(env, Boot(s0), acts).log[e], n)
    ensures var log := Run(env, Boot(s0), acts).log;
            && env.uuid(n).Some? && HadRow(s0, log[..e], env.uuid(n).value)
            && (HadRow(s0, log[..e], n) <==> Normal(env, n))
  {
    RunKeepsInv(env, s0, acts);
    RunRowsFound(env, s0, acts);
    SpaceIsNamedAfterRow(env, s0, Run(env, Boot(s0), acts), e, n);
    hide Run, Inv, RowsFound, HadRow, SpaceMade;
  }
}
