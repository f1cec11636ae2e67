/** Interleaved runs: any number of requests in flight, split at their calls, with failing calls, lost
    replies, crashes, the passing of time, and the operator reporting the status of builders. */
module Runs {
  import opened Wrappers
  import opened Stores
  import opened Programs
  import B = Builders

  type ReqId = nat

  const OK := Choice(NoFault, "")

  /** One call that was made, with the stores before and after it. */
  datatype Event = Event(rid: ReqId, pc: Pc, call: Call, fault: Fault, before: Stores, after: Stores, next: Pc)

  datatype Sys = Sys(s: Stores, procs: map<ReqId, Pc>, log: seq<Event>)

  datatype Action =
    | Arrive(rid: ReqId, req: Request)
    | Operate(rid: ReqId, key: Key, status: B.BuilderStatus)
    | Call(rid: ReqId, choice: Choice)
    | Crash(rids: set<ReqId>)
    | Tick(nanoseconds: nat)

  predicate InFlight(y: Sys, rid: ReqId) {
    rid in y.procs && Live(y.procs[rid])
  }

  /** The event of request `rid` making its next call. */
  function NextEvent(env: Env, y: Sys, rid: ReqId, c: Choice): Event
    requires InFlight(y, rid)
  {
    var pc := y.procs[rid];
    var (s', pc') := Step(env, y.s, pc, c);
    Event(rid, pc, Issue(env, pc, c.id), c.fault, y.s, s', pc')
  }

  function Record(y: Sys, e: Event): Sys {
    Sys(e.after, y.procs[e.rid := e.next], y.log + [e])
  }

  /** One action; an action that is not possible changes nothing. */
  function Next(env: Env, y: Sys, a: Action): Sys {
    match a
    case Arrive(rid, req) =>
      if rid in y.procs then y else y.(procs := y.procs[rid := Begin(env, y.s.now, req)])
    case Operate(rid, key, status) =>
      if rid in y.procs then y else y.(procs := y.procs[rid := Obj(Reporting(key, status))])
    case Call(rid, c) => if InFlight(y, rid) then Record(y, NextEvent(env, y, rid, c)) else y
    case Crash(rids) =>
      y.(procs := map r | r in y.procs :: if r in rids && Live(y.procs[r]) then Crashed else y.procs[r])
    case Tick(d) => y.(s := y.s.(now := y.s.now + d))
  }

  function Boot(s: Stores): Sys {
    Sys(s, map[], [])
  }

  function Run(env: Env, y: Sys, acts: seq<Action>): Sys {
    if acts == [] then y else Next(env, Run(env, y, acts[..|acts| - 1]), acts[|acts| - 1])
  }

  lemma {:induction false} RunAppend(env: Env, y: Sys, a: seq<Action>, b: seq<Action>)
    ensures Run(env, y, a + b) == Run(env, Run(env, y, a), b)
    decreases |b|
  {
    if b == [] {
      assert a + b == a;
    } else {
      var n := |b| - 1;
      RunAppend(env, y, a, b[..n]);
      assert (a + b)[..|a + b| - 1] == a + b[..n];
    }
  }

  /** In a fail-stop run no reply of a call that took effect is lost. */
  predicate FailStopRun(acts: seq<Action>) {
    forall a | a in acts :: a.Call? ==> a.choice.fault != LostReply
  }

  // What an event did to the tables and the cluster.

  predicate RowMade(e: Event, n: string) {
    n !in e.before.tables.orgs && n in e.after.tables.orgs
  }

  predicate RowGone(e: Event, n: string) {
    n in e.before.tables.orgs && n !in e.after.tables.orgs
  }

  predicate SpaceMade(e: Event, n: string) {
    n !in e.before.cluster.namespaces && n in e.after.cluster.namespaces
  }

  predicate SpaceGone(e: Event, n: string) {
    n in e.before.cluster.namespaces && n !in e.after.cluster.namespaces
  }

  /** The request was admitted to work on organization `n`: it saw a membership, or made the row. */
  predicate Admits(e: Event, n: string) {
    || RowMade(e, n)
    || (e.call.OnTables? && e.call.t.CheckMember? && e.call.t.orgId == Some(n) && e.fault.NoFault?
        && (e.call.t.user, n) in e.before.tables.members)
  }

  /** The namespace was deleted, or found missing, and the request knows it. */
  predicate Cleared(e: Event, n: string) {
    e.call == OnCluster(DeleteNamespace(n)) && e.fault.NoFault?
  }
}
