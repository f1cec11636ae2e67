/** When requests are refused before any call, and what becomes of a request whose call fails. */
module Refusals {
  import opened Text
  import opened Stores
  import opened Programs
  import opened Runs
  import opened Saga
  import opened Sequential
  import opened AccessRules

  /** Handlers that need a caller refuse to work for nobody. */
  lemma NobodyIsRefused(env: Env, s: Stores, op: Op, choices: seq<Choice>)
    requires !OpenToAll(op)
    ensures Handle(env, s, "", op, choices) == (s, Reject(Unauthenticated))
  {
    HandleRuns(env, s, "", op, choices);
    hide Handle;
  }

  /** The one text field without which a request means nothing, as the handler takes it: identifiers of organizations
      and names of namespaces as they come, and the rest trimmed. */
  predicate Blank(op: Op) {
    match op
    case GetOrganization(id) => id == ""
    case UpdateOrganization(id, _, _, _) => id == ""
    case DeleteOrganization(id) => id == ""
    case ListOrganizationMembers(id) => TrimSpace(id) == ""
    case RevokeUserApiKey(id) => TrimSpace(id) == ""
    case UpdateProfile(name) => TrimSpace(name) == ""
    case OnObjects(act) => act.ns == ""
    case _ => false
  }

  /** A request that leaves it out is rejected and changes nothing. */
  lemma BlankIsRejected(env: Env, s: Stores, user: string, op: Op, choices: seq<Choice>)
    requires user != "" && Blank(op)
    ensures Handle(env, s, user, op, choices) == (s, Reject(InvalidArgument))
  {
    HandleRuns(env, s, user, op, choices);
    hide Handle, TrimSpace;
  }

  /** Where a request goes on whose call failed or lost its reply: a creation takes its row back, a key that cannot be
      looked up is not accepted, the note of its use does not matter, and every other request ends with an internal
      error. */
  predicate FailsProperly(env: Env, e: Event) {
    match e.pc
    case Gate(KeyLookup(_, _)) => e.next == Reject(Unauthenticated)
    case Gate(KeyTouch(op, _, who)) => e.next == Admit(env, e.after.now, who, op)
    case Org(CreateOwner(_, id, _)) => e.next == Org(CreateUndo(id))
    case Org(CreateEnsure(id, _)) => e.next == Org(CreateUndo(id))
    case Obj(Reporting(_, _)) => e.next.Finished?
    case _ => e.next == Reject(Internal)
  }

  lemma FailedStep(env: Env, y: Sys, rid: ReqId, c: Choice)
    requires InFlight(y, rid) && !c.fault.NoFault?
    ensures FailsProperly(env, NextEvent(env, y, rid, c))
  {
    hide Execute, Issue, Admit, ViewOf;
  }

  lemma WorkingStep(env: Env, y: Sys, rid: ReqId, c: Choice)
    requires InFlight(y, rid)
    ensures NextEvent(env, y, rid, c).fault == c.fault
  {
    hide Step, Issue;
  }

  /** In every run, no failing call and no lost reply goes unnoticed. */
  lemma {:induction false} FailuresAreReported(env: Env, s0: Stores, acts: seq<Action>)
    ensures forall e | e in Run(env, Boot(s0), acts).log :: !e.fault.NoFault? ==> FailsProperly(env, e)
  {
    hide Next;
    if acts != [] {
      var k := |acts| - 1;
      var y := Run(env, Boot(s0), acts[..k]);
      FailuresAreReported(env, s0, acts[..k]);
      NextIsCallOrNot(env, y, acts[k]);
      if !NoCall(y, Next(env, y, acts[k])) {
        WorkingStep(env, y, acts[k].rid, acts[k].choice);
        if !acts[k].choice.fault.NoFault? { FailedStep(env, y, acts[k].rid, acts[k].choice); }
      }
    }
    hide NextEvent, FailsProperly, NewRequest;
  }
}
