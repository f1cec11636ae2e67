/** Who owns the organization rows, which rows are stranded without an owner, and what every row looks like. */
module Ownership {
  import opened Wrappers
  import opened Stores
  import opened Programs
  import opened Runs
  import opened Lifecycle
  import opened Saga
  import L = Linearizability
  import Slugs

  // ---- Stored rows are valid ----

  predicate CarriesValid(pc: Pc) {
    && (pc.Org? && pc.o.CreateInsert? ==> ValidRow(pc.o.org))
    && (pc.Org? && pc.o.UpdateWrite? ==> ValidChange(pc.o.change))
  }

  ghost predicate RowsValid(y: Sys) {
    && (forall n | n in y.s.tables.orgs :: ValidRow(y.s.tables.orgs[n]))
    && (forall r | r in y.procs :: CarriesValid(y.procs[r]))
  }

  lemma CallKeepsRowsValid(env: Env, y: Sys, e: Event)
    requires RowsValid(y) && Follows(y, e) && Facts(env, e)
    ensures RowsValid(Record(y, e))
  {
    hide RowFacts, SpaceFacts, Slugs.ValidSlug, LegalPlan;
    assert CarriesValid(e.pc);
    assert CarriesValid(e.next);
  }

  /** Starting from valid rows, every row ever stored has a slug of the grammar, shared with no other row,
      and a legal plan. */
  lemma {:induction false} RowsStayValid(env: Env, s0: Stores, acts: seq<Action>)
    requires Schema(env, s0) && forall n | n in s0.tables.orgs :: ValidRow(s0.tables.orgs[n])
    ensures var y := Run(env, Boot(s0), acts);
            RowsValid(y) && forall m, n | m in y.s.tables.orgs && n in y.s.tables.orgs ::
                              y.s.tables.orgs[m].slug == y.s.tables.orgs[n].slug ==> m == n
  {
    hide Next;
    RunKeepsInv(env, s0, acts);
    if acts != [] {
      var k := |acts| - 1;
      RowsStayValid(env, s0, acts[..k]);
      NextKeepsRowsValid(env, Run(env, Boot(s0), acts[..k]), acts[k]);
    }
    hide ValidRow, RowsValid, Facts, RequestHistory, CauseHistory, SpaceHistory, GoneForGood, RowsAccounted;
  }

  lemma NextKeepsRowsValid(env: Env, y: Sys, a: Action)
    requires RowsValid(y)
    ensures RowsValid(Next(env, y, a))
  {
    hide Next;
    NextIsCallOrNot(env, y, a);
    if NoCall(y, Next(env, y, a)) {
      NoCallKeepsRowsValid(y, Next(env, y, a));
    } else {
      FactsHold(env, y, a.rid, a.choice);
      CallKeepsRowsValid(env, y, NextEvent(env, y, a.rid, a.choice));
    }
    hide Facts, RowsValid, NoCall, Step, Issue;
  }

  lemma NoCallKeepsRowsValid(y: Sys, y': Sys)
    requires RowsValid(y) && NoCall(y, y')
    ensures RowsValid(y')
  {
    hide ValidRow, ValidChange;
  }

  // ---- Owners ----

  /** A creation of `n` that has its row but has not decided yet whether to keep it. */
  predicate Creating(pc: Pc, n: string) {
    pc.Org? && (pc.o.CreateOwner? || pc.o.CreateUndo?) && pc.o.id == n
  }

  /** The creation that made the row lost the reply, crashed, or failed to take the row back. */
  ghost predicate BrokenOff(y: Sys, n: string, b: int) {
    && 0 <= b < |y.log| && RowMade(y.log[b], n)
    && (|| y.log[b].fault.LostReply?
        || (y.log[b].rid in y.procs && y.procs[y.log[b].rid].Crashed?)
        || exists d | b < d < |y.log| ::
             y.log[d].rid == y.log[b].rid && y.log[d].pc == Org(CreateUndo(n)) && y.log[d].fault.FailStop?)
  }

  ghost predicate Accounted(y: Sys, n: string) {
    || Owned(y.s.tables, n)
    || (exists r | r in y.procs :: Creating(y.procs[r], n))
    || (exists b :: BrokenOff(y, n, b))
  }

  ghost predicate AllAccounted(y: Sys) {
    forall n | n in y.s.tables.orgs :: Accounted(y, n)
  }

  lemma BreakStays(y: Sys, e: Event, n: string, b: int)
    requires BrokenOff(y, n, b) && Follows(y, e) && 0 <= b < |y.log| && y.log[b].rid in y.procs
    ensures BrokenOff(Record(y, e), n, b)
  {
    var y' := Record(y, e);
    assert forall i | 0 <= i < |y.log| :: y'.log[i] == y.log[i];
    if d :|
      b < d < |y.log| && y.log[d].rid == y.log[b].rid && y.log[d].pc == Org(CreateUndo(n)) && y.log[d].fault.FailStop?
    {
      assert y'.log[d].rid == y'.log[b].rid;
    }
  }

  lemma OwnedStays(env: Env, e: Event, n: string)
    requires TableFacts(env, e) && Owned(e.before.tables, n) && n in e.after.tables.orgs
    ensures Owned(e.after.tables, n)
  {
    var u :| (u, n) in e.before.tables.members && e.before.tables.members[(u, n)] == Owner;
    assert (u, n) in e.after.tables.members && e.after.tables.members[(u, n)] == Owner;
  }

  /** The request that was creating `n` moved on. */
  lemma CreatorMoved(env: Env, s0: Stores, y: Sys, e: Event, n: string)
    requires Orderly(env, s0, y) && RequestHistory(env, y) && Follows(y, e) && Facts(env, e)
    requires Creating(e.pc, n) && n in e.after.tables.orgs
    ensures Accounted(Record(y, e), n)
  {
    var y' := Record(y, e);
    hide RowFacts, SpaceFacts, TableFacts, Schema;
    if e.pc.o.CreateOwner? {
      if e.next.o.CreateUndo? {
        assert Creating(y'.procs[e.rid], n);
      }
    } else {
      assert KnowsWhy(env, y.log, e.rid, e.pc);
      var b :| 0 <= b < |y.log| && y.log[b].rid == e.rid && RowMade(y.log[b], n);
      assert y'.log[b] == y.log[b] && y'.log[|y.log|] == e;
      assert BrokenOff(y', n, b);
    }
  }

  lemma RowAccounted(env: Env, s0: Stores, y: Sys, e: Event, n: string)
    requires Orderly(env, s0, y) && RequestHistory(env, y) && Follows(y, e) && Facts(env, e)
    requires n in e.after.tables.orgs && (n in y.s.tables.orgs ==> Accounted(y, n))
    ensures Accounted(Record(y, e), n)
  {
    var y' := Record(y, e);
    hide CameFrom, SpaceFacts, KnowsWhy, Schema;
    if RowMade(e, n) {
      assert y'.log[|y.log|] == e;
      if e.fault.NoFault? {
        assert Creating(y'.procs[e.rid], n);
      } else {
        assert BrokenOff(y', n, |y.log|);
      }
    } else if Owned(y.s.tables, n) {
      OwnedStays(env, e, n);
    } else if Creating(e.pc, n) {
      CreatorMoved(env, s0, y, e, n);
    } else if r :| r in y.procs && Creating(y.procs[r], n) {
      assert Creating(y'.procs[r], n);
    } else {
      var b :| BrokenOff(y, n, b);
      BreakStays(y, e, n, b);
    }
  }

  lemma CallKeepsAccounted(env: Env, s0: Stores, y: Sys, e: Event)
    requires Orderly(env, s0, y) && RequestHistory(env, y) && Follows(y, e) && Facts(env, e) && AllAccounted(y)
    ensures AllAccounted(Record(y, e))
  {
    forall n | n in e.after.tables.orgs ensures Accounted(Record(y, e), n) {
      RowAccounted(env, s0, y, e, n);
    }
    hide Accounted, Facts, Orderly, RequestHistory;
  }

  lemma NoCallKeepsAccounted(env: Env, y: Sys, y': Sys)
    requires RequestHistory(env, y) && NoCall(y, y') && AllAccounted(y)
    ensures AllAccounted(y')
  {
    forall n | n in y'.s.tables.orgs ensures Accounted(y', n) {
      NoCallKeepsRowAccounted(env, y, y', n);
    }
    hide Accounted, RequestHistory, NewRequest;
  }

  lemma NoCallKeepsRowAccounted(env: Env, y: Sys, y': Sys, n: string)
    requires RequestHistory(env, y) && NoCall(y, y') && Accounted(y, n)
    ensures Accounted(y', n)
  {
    hide NewRequest;
    if r :| r in y.procs && Creating(y.procs[r], n) {
      if y'.procs[r].Crashed? {
        assert KnowsWhy(env, y.log, r, y.procs[r]);
        var b :| 0 <= b < |y.log| && y.log[b].rid == r && RowMade(y.log[b], n);
        assert BrokenOff(y', n, b);
      } else {
        assert Creating(y'.procs[r], n);
      }
    } else if b :| BrokenOff(y, n, b) {
      assert BrokenOff(y', n, b);
    }
  }

  lemma NextKeepsAccounted(env: Env, s0: Stores, y: Sys, a: Action)
    requires Inv(env, s0, y) && AllAccounted(y)
    ensures AllAccounted(Next(env, y, a))
  {
    NextIsEvent(env, y, a);
    InvGivesSchema(env, s0, y);
    hide *;
    if NoCall(y, Next(env, y, a)) {
      NoCallKeepsAccounted(env, y, Next(env, y, a));
    } else {
      CallKeepsAccounted(env, s0, y, NextEvent(env, y, a.rid, a.choice));
    }
  }

  /** Starting from owned organizations: in every reachable state each row is owned, belongs to a creation
      in flight, or was stranded by a creation that lost a reply, crashed, or failed to undo itself. */
  lemma {:induction false} EveryRowAccounted(env: Env, s0: Stores, acts: seq<Action>)
    requires Schema(env, s0) && forall n | n in s0.tables.orgs :: Owned(s0.tables, n)
    ensures AllAccounted(Run(env, Boot(s0), acts))
  {
    hide Next;
    if acts != [] {
      var k := |acts| - 1;
      EveryRowAccounted(env, s0, acts[..k]);
      RunKeepsInv(env, s0, acts[..k]);
      NextKeepsAccounted(env, s0, Run(env, Boot(s0), acts[..k]), acts[k]);
    }
    hide Inv, Accounted;
  }

  // ---- Stranded rows stay stranded ----

  /** A request that could still give the row an owner, change it or delete it. */
  predicate Touches(env: Env, pc: Pc, n: string) {
    && pc.Org?
    && (|| ((pc.o.CreateOwner? || pc.o.CreateEnsure? || pc.o.CreateUndo?) && pc.o.id == n)
        || ((pc.o.DeleteSpace? || pc.o.DeleteRow? || pc.o.UpdateWrite?) && Spells(env, pc.o.id, n)))
  }

  /** A row nobody is a member of and no request in flight is about to touch. */
  ghost predicate Stranded(env: Env, y: Sys, n: string) {
    n in y.s.tables.orgs && !HasMember(y.s.tables, n) && forall r | r in y.procs :: !Touches(env, y.procs[r], n)
  }

  lemma CallKeepsStranded(env: Env, y: Sys, e: Event, n: string)
    requires Schema(env, y.s) && Follows(y, e) && Facts(env, e) && Stranded(env, y, n)
    ensures Stranded(env, Record(y, e), n) && e.after.tables.orgs[n] == e.before.tables.orgs[n]
    ensures Checked(env, e.pc).Some? && Checked(env, e.pc).value.1 == n ==> EndsTurnedAway(e)
  {
    assert !Touches(env, e.pc, n);
    RowUntouched(env, e, n);
    assert (forall u :: (u, n) !in y.s.tables.members);
    NextDoesNotTouch(env, e, n);
    hide RowFacts, SpaceFacts, TableFacts, CameFrom, Schema;
  }

  lemma RowUntouched(env: Env, e: Event, n: string)
    requires Facts(env, e) && Schema(env, e.before) && n in e.before.tables.orgs
    requires !HasMember(e.before.tables, n) && !Touches(env, e.pc, n)
    ensures n in e.after.tables.orgs && e.after.tables.orgs[n] == e.before.tables.orgs[n]
    ensures !HasMember(e.after.tables, n)
  {
    hide RowFacts, SpaceFacts, CameFrom, CheckFacts;
  }

  lemma NextDoesNotTouch(env: Env, e: Event, n: string)
    requires Facts(env, e) && Schema(env, e.before) && n in e.before.tables.orgs
    requires !HasMember(e.before.tables, n) && !Touches(env, e.pc, n)
    ensures !Touches(env, e.next, n)
  {
    hide RowFacts, SpaceFacts, TableFacts, CheckFacts;
  }

  /** From `y` to `y'` nothing happened to the row: its slug is still taken, it is in nobody's listing, and
      every request that asked for it was turned down. */
  ghost predicate LeftAlone(env: Env, y: Sys, y': Sys, n: string)
    requires n in y.s.tables.orgs
  {
    && n in y'.s.tables.orgs && y'.s.tables.orgs[n] == y.s.tables.orgs[n]
    && (forall id | id != n :: SlugTaken(y'.s.tables, y.s.tables.orgs[n].slug, id))
    && (forall u :: n !in OrgsOf(y'.s.tables, u))
    && |y.log| <= |y'.log|
    && forall i | |y.log| <= i < |y'.log| ::
         Checked(env, y'.log[i].pc).Some? && Checked(env, y'.log[i].pc).value.1 == n ==> EndsTurnedAway(y'.log[i])
  }

  /** Such a row never gains a member and never changes. */
  lemma {:induction false} StrandedForever(env: Env, s0: Stores, past: seq<Action>, acts: seq<Action>, n: string)
    requires Schema(env, s0) && Stranded(env, Run(env, Boot(s0), past), n)
    ensures var y := Run(env, Boot(s0), past);
            Stranded(env, Run(env, y, acts), n) && LeftAlone(env, y, Run(env, y, acts), n)
  {
    hide Next;
    if acts != [] {
      var k := |acts| - 1;
      var start := Run(env, Boot(s0), past);
      var y := Run(env, start, acts[..k]);
      StrandedForever(env, s0, past, acts[..k], n);
      RunAppend(env, Boot(s0), past, acts[..k]);
      RunKeepsInv(env, s0, past + acts[..k]);
      NextIsCallOrNot(env, y, acts[k]);
      if NoCall(y, Next(env, y, acts[k])) {
        NoCallKeepsStranded(env, y, Next(env, y, acts[k]), n);
        NoCallLeavesAlone(env, start, y, Next(env, y, acts[k]), n);
      } else {
        FactsHold(env, y, acts[k].rid, acts[k].choice);
        CallKeepsStranded(env, y, NextEvent(env, y, acts[k].rid, acts[k].choice), n);
        CallLeavesAlone(env, start, y, NextEvent(env, y, acts[k].rid, acts[k].choice), n);
      }
    }
    hide NextEvent, Facts, NoCall, RequestHistory, CauseHistory, SpaceHistory, GoneForGood, RowsAccounted;
    hide Checked, Stranded;
  }

  lemma CallLeavesAlone(env: Env, start: Sys, y: Sys, e: Event, n: string)
    requires n in start.s.tables.orgs && LeftAlone(env, start, y, n) && Follows(y, e) && Stranded(env, Record(y, e), n)
    requires e.after.tables.orgs[n] == e.before.tables.orgs[n]
    requires Checked(env, e.pc).Some? && Checked(env, e.pc).value.1 == n ==> EndsTurnedAway(e)
    ensures LeftAlone(env, start, Record(y, e), n)
  {
    hide Checked;
  }

  lemma NoCallLeavesAlone(env: Env, start: Sys, y: Sys, y': Sys, n: string)
    requires n in start.s.tables.orgs && LeftAlone(env, start, y, n) && NoCall(y, y')
    ensures LeftAlone(env, start, y', n)
  {
    hide Checked;
  }

  lemma NoCallKeepsStranded(env: Env, y: Sys, y': Sys, n: string)
    requires NoCall(y, y') && Stranded(env, y, n)
    ensures Stranded(env, y', n)
  {
    forall r | r in y'.procs ensures !Touches(env, y'.procs[r], n) {
      if r !in y.procs { assert NewRequest(y'.procs[r]); }
    }
  }

  // ---- Ownerless rows are stranded ----

  predicate PastCheck(pc: Pc) {
    pc.Org? && (pc.o.CreateEnsure? || pc.o.DeleteSpace? || pc.o.DeleteRow? || pc.o.UpdateWrite?)
  }

  /** The row such a request works on. */
  function Target(env: Env, pc: Pc): RowId
    requires PastCheck(pc)
  {
    if pc.o.CreateEnsure? then Some(pc.o.id) else env.uuid(pc.o.id)
  }

  /** If the row is still there, it has members. */
  ghost predicate StillManned(s: Stores, target: RowId) {
    target.Some? ==>
      target.value in s.issued && (target.value in s.tables.orgs ==> HasMember(s.tables, target.value))
  }

  /** Requests past their membership check work on rows that have members, and rows with members have an owner. */
  ghost predicate MembersKnown(env: Env, y: Sys) {
    && (forall r | r in y.procs && PastCheck(y.procs[r]) :: StillManned(y.s, Target(env, y.procs[r])))
    && (forall n :: HasMember(y.s.tables, n) ==> Owned(y.s.tables, n))
  }

  lemma MemberStays(env: Env, e: Event, n: string)
    requires TableFacts(env, e) && HasMember(e.before.tables, n) && n in e.after.tables.orgs
    ensures HasMember(e.after.tables, n)
  {
    var u :| (u, n) in e.before.tables.members;
    assert (u, n) in e.after.tables.members;
  }

  lemma CheckerKnows(env: Env, e: Event)
    requires Facts(env, e) && Schema(env, e.before) && Schema(env, e.after) && PastCheck(e.next)
    requires PastCheck(e.pc) ==> StillManned(e.before, Target(env, e.pc))
    ensures StillManned(e.after, Target(env, e.next))
  {
    var target := Target(env, e.next);
    if target.Some? {
      var n := target.value;
      if e.next.o.CreateEnsure? {
        var u :| (u, n) in e.after.tables.members;
      } else {
        assert StillManned(e.before, target) by { CheckerKnew(env, e); }
        OthersKnow(env, e, target);
      }
    }
    hide Facts, HasMember;
  }

  lemma CheckerKnew(env: Env, e: Event)
    requires Facts(env, e) && Schema(env, e.before) && PastCheck(e.next) && !e.next.o.CreateEnsure?
    requires PastCheck(e.pc) ==> StillManned(e.before, Target(env, e.pc))
    ensures StillManned(e.before, Target(env, e.next))
  {
    hide RowFacts, SpaceFacts, TableFacts, CheckFacts, CreateFacts;
  }

  lemma OwnerStaysOrComes(env: Env, e: Event, n: string)
    requires TableFacts(env, e) && HasMember(e.after.tables, n)
    requires HasMember(e.before.tables, n) ==> Owned(e.before.tables, n)
    requires Schema(env, e.after)
    ensures Owned(e.after.tables, n)
  {
    var u :| (u, n) in e.after.tables.members;
    if HasMember(e.before.tables, n) {
      assert n in e.after.tables.orgs;
      OwnedStays(env, e, n);
    } else {
      assert (u, n) !in e.before.tables.members;
    }
  }

  lemma CallKeepsMembersKnown(env: Env, s0: Stores, y: Sys, e: Event)
    requires MembersKnown(env, y) && Follows(y, e) && Facts(env, e) && Schema(env, e.before) && Schema(env, e.after)
    ensures MembersKnown(env, Record(y, e))
  {
    var y' := Record(y, e);
    forall n | HasMember(y'.s.tables, n) ensures Owned(y'.s.tables, n) {
      OwnerStaysOrComes(env, e, n);
    }
    forall r | r in y'.procs && PastCheck(y'.procs[r]) ensures StillManned(y'.s, Target(env, y'.procs[r])) {
      if r == e.rid {
        CheckerKnows(env, e);
      } else {
        OthersKnow(env, e, Target(env, y.procs[r]));
      }
    }
    hide Facts, Schema, HasMember, Owned, StillManned, Target;
  }

  lemma OthersKnow(env: Env, e: Event, target: RowId)
    requires Facts(env, e) && StillManned(e.before, target)
    ensures StillManned(e.after, target)
  {
    hide SpaceFacts, CameFrom, CheckFacts, CreateFacts;
    if target.Some? && target.value in e.after.tables.orgs && target.value in e.before.tables.orgs {
      MemberStays(env, e, target.value);
    }
    assert target.Some? && target.value !in e.before.tables.orgs ==> !RowMade(e, target.value);
  }

  lemma NoCallKeepsMembersKnown(env: Env, y: Sys, y': Sys)
    requires MembersKnown(env, y) && NoCall(y, y')
    ensures MembersKnown(env, y')
  {
    forall r | r in y'.procs && r !in y.procs ensures !PastCheck(y'.procs[r]) {
      assert NewRequest(y'.procs[r]);
    }
  }

  lemma NextKeepsMembersKnown(env: Env, s0: Stores, y: Sys, a: Action)
    requires Inv(env, s0, y) && MembersKnown(env, y)
    ensures MembersKnown(env, Next(env, y, a))
  {
    NextIsEvent(env, y, a);
    NextKeepsInv(env, s0, y, a);
    InvGivesSchema(env, s0, y);
    InvGivesSchema(env, s0, Next(env, y, a));
    hide *;
    if NoCall(y, Next(env, y, a)) {
      NoCallKeepsMembersKnown(env, y, Next(env, y, a));
    } else {
      CallKeepsMembersKnown(env, s0, y, NextEvent(env, y, a.rid, a.choice));
    }
  }

  lemma {:induction false} RunKeepsMembersKnown(env: Env, s0: Stores, acts: seq<Action>)
    requires Schema(env, s0) && forall n | n in s0.tables.orgs :: Owned(s0.tables, n)
    ensures MembersKnown(env, Run(env, Boot(s0), acts))
  {
    hide Next;
    if acts != [] {
      var k := |acts| - 1;
      RunKeepsMembersKnown(env, s0, acts[..k]);
      RunKeepsInv(env, s0, acts[..k]);
      NextKeepsMembersKnown(env, s0, Run(env, Boot(s0), acts[..k]), acts[k]);
    } else {
      assert forall n :: HasMember(s0.tables, n) ==> n in s0.tables.orgs;
    }
    hide Inv, MembersKnown;
  }

  // ---- Exactly which rows have an owner ----

  /** The insertion of the owner took effect. */
  predicate Owns(e: Event, n: string) {
    AddsOwner(e) && e.pc.o.id == n
  }

  ghost predicate WasOwned(s0: Stores, log: seq<Event>, n: string) {
    n in s0.tables.orgs || exists i | 0 <= i < |log| :: Owns(log[i], n)
  }

  ghost predicate OwnedExactly(s0: Stores, y: Sys) {
    forall n | n in y.s.tables.orgs :: Owned(y.s.tables, n) <==> WasOwned(s0, y.log, n)
  }

  /** What an event does to the ownership of a row it finds. */
  lemma FoundRowOwned(env: Env, e: Event, n: string)
    requires Facts(env, e) && Schema(env, e.before) && n in e.before.tables.orgs && n in e.after.tables.orgs
    ensures Owned(e.after.tables, n) <==> Owned(e.before.tables, n) || Owns(e, n)
  {
    if Owned(e.before.tables, n) {
      OwnedStays(env, e, n);
    }
    if u :| (u, n) in e.after.tables.members && e.after.tables.members[(u, n)] == Owner {
      assert Owns(e, n) || ((u, n) in e.before.tables.members && e.before.tables.members[(u, n)] == Owner);
    }
    if Owns(e, n) {
      assert e.after.tables.members[(e.pc.o.user, n)] == Owner;
    }
    hide RowFacts, SpaceFacts, CameFrom, CheckFacts, CreateFacts;
  }

  /** A row just made has no owner yet, and its identifier never had one. */
  lemma MadeRowUnowned(env: Env, s0: Stores, y: Sys, e: Event, n: string)
    requires Orderly(env, s0, y) && Schema(env, s0) && Follows(y, e) && Facts(env, e) && RowMade(e, n)
    ensures !Owned(e.after.tables, n) && !WasOwned(s0, y.log + [e], n)
  {
    assert MakesRow(env, e, n) && n !in y.s.issued;
    forall i | 0 <= i < |y.log| ensures !Owns(y.log[i], n) {
      assert Schema(env, y.log[i].before) && Facts(env, y.log[i]);
    }
    assert forall i | 0 <= i < |y.log| :: (y.log + [e])[i] == y.log[i];
    hide SpaceFacts, CameFrom, TableFacts, CheckFacts, CreateFacts, RowFacts;
  }

  lemma CallKeepsOwnedExactly(env: Env, s0: Stores, y: Sys, e: Event)
    requires OwnedExactly(s0, y) && Orderly(env, s0, y) && Schema(env, s0) && Follows(y, e) && Facts(env, e)
    ensures OwnedExactly(s0, Record(y, e))
  {
    var log := y.log + [e];
    forall n | n in e.after.tables.orgs ensures Owned(e.after.tables, n) <==> WasOwned(s0, log, n) {
      if n in e.before.tables.orgs {
        FoundRowOwned(env, e, n);
        assert log[|y.log|] == e && forall i | 0 <= i < |y.log| :: log[i] == y.log[i];
        if i :| 0 <= i < |y.log| && Owns(y.log[i], n) {
          assert Owns(log[i], n);
        }
      } else {
        MadeRowUnowned(env, s0, y, e, n);
      }
    }
    hide Facts, Orderly, Schema, Owned, Owns;
  }

  /** Starting from owned organizations: in every run a stored row has an owner if and only if it was there at the
      start or the insertion of its owner, by the request that created it, took effect. */
  lemma {:induction false} OwnedIffOwnerInserted(env: Env, s0: Stores, acts: seq<Action>)
    requires Schema(env, s0) && forall n | n in s0.tables.orgs :: Owned(s0.tables, n)
    ensures OwnedExactly(s0, Run(env, Boot(s0), acts))
  {
    hide Next;
    if acts != [] {
      var k := |acts| - 1;
      var y := Run(env, Boot(s0), acts[..k]);
      OwnedIffOwnerInserted(env, s0, acts[..k]);
      RunKeepsInv(env, s0, acts[..k]);
      InvGivesSchema(env, s0, y);
      NextIsEvent(env, y, acts[k]);
      if !NoCall(y, Next(env, y, acts[k])) {
        CallKeepsOwnedExactly(env, s0, y, NextEvent(env, y, acts[k].rid, acts[k].choice));
      }
    }
    hide Inv, Orderly, RequestHistory, Facts, NextEvent, Owned, Owns, Schema, NewRequest;
  }

  /** The creation that made the row at `b` never got its owner in, and broke off: it lost the reply of the row's
      insertion, crashed, or failed to take the row back. */
  ghost predicate StrandedBy(y: Sys, n: string, b: int) {
    BrokenOff(y, n, b) && forall i | 0 <= i < |y.log| :: !Owns(y.log[i], n)
  }

  ghost predicate InCreation(y: Sys, n: string) {
    exists r | r in y.procs :: Creating(y.procs[r], n)
  }

  lemma MadeIsIssued(env: Env, e: Event, n: string)
    requires Facts(env, e) && RowMade(e, n)
    ensures n in e.after.issued && n !in e.before.issued
  {
    assert MakesRow(env, e, n);
    hide SpaceFacts, CameFrom, TableFacts, CheckFacts, CreateFacts;
  }

  lemma MakerOf(env: Env, y: Sys, n: string, r: ReqId) returns (b: int)
    requires RequestHistory(env, y) && r in y.procs && Creating(y.procs[r], n)
    ensures 0 <= b < |y.log| && y.log[b].rid == r && RowMade(y.log[b], n)
  {
    assert KnowsWhy(env, y.log, r, y.procs[r]);
    b :| 0 <= b < |y.log| && y.log[b].rid == r && RowMade(y.log[b], n);
    hide RequestHistory;
  }

  lemma IssuedGrows(env: Env, s0: Stores, y: Sys)
    requires Orderly(env, s0, y)
    ensures forall i, j | 0 <= i < j < |y.log| :: y.log[i].after.issued <= y.log[j].before.issued
  {
    hide Facts, Schema;
  }

  /** No row is made twice. */
  lemma MadeInOrder(env: Env, s0: Stores, y: Sys, n: string, i: int, j: int)
    requires Orderly(env, s0, y) && 0 <= i < |y.log| && 0 <= j < |y.log|
    requires RowMade(y.log[i], n) && RowMade(y.log[j], n)
    ensures i >= j
  {
    assert Facts(env, y.log[i]) && Facts(env, y.log[j]);
    hide *;
    IssuedGrows(env, s0, y);
    MadeIsIssued(env, y.log[i], n);
    MadeIsIssued(env, y.log[j], n);
  }

  /** Only the request that made the row is creating it. */
  lemma CreatorIsMaker(env: Env, s0: Stores, y: Sys, n: string, b: int, r: ReqId)
    requires Orderly(env, s0, y) && RequestHistory(env, y) && 0 <= b < |y.log| && RowMade(y.log[b], n)
    requires r in y.procs && Creating(y.procs[r], n)
    ensures r == y.log[b].rid
  {
    hide *;
    var b' := MakerOf(env, y, n, r);
    MadeInOrder(env, s0, y, n, b, b');
    MadeInOrder(env, s0, y, n, b', b);
  }

  lemma BrokenOffIsOver(env: Env, s0: Stores, y: Sys, n: string, b: int)
    requires Orderly(env, s0, y) && RequestHistory(env, y) && L.EndsAreFinal(y) && BrokenOff(y, n, b)
    ensures !InCreation(y, n)
  {
    assert forall i | 0 <= i < |y.log| :: Facts(env, y.log[i]);
    assert MakesRow(env, y.log[b], n);
    assert forall i | 0 <= i < |y.log| && y.log[i].pc == Org(CreateUndo(n)) :: y.log[i].next.Finished?;
    hide Facts, Schema, KnowsWhy, Orderly, RequestHistory;
    if r :| r in y.procs && Creating(y.procs[r], n) {
      CreatorIsMaker(env, s0, y, n, b, r);
    }
  }

  lemma BrokenOffFreshRow(env: Env, s0: Stores, y: Sys, n: string, b: int)
    requires Orderly(env, s0, y) && Schema(env, s0) && 0 <= b < |y.log| && RowMade(y.log[b], n)
    ensures n !in s0.tables.orgs
  {
    assert Facts(env, y.log[b]) && MakesRow(env, y.log[b], n);
    hide SpaceFacts, CameFrom, TableFacts, CheckFacts, CreateFacts, RowFacts;
  }

  /** Starting from owned organizations: a stored row outside a creation in flight is without an owner if and only
      if its creation broke off before the owner was in. Then it has no member at all, and no request is about to
      touch it. */
  lemma OwnerlessIffStranded(env: Env, s0: Stores, acts: seq<Action>, n: string)
    requires Schema(env, s0) && forall m | m in s0.tables.orgs :: Owned(s0.tables, m)
    requires n in Run(env, Boot(s0), acts).s.tables.orgs
    ensures var y := Run(env, Boot(s0), acts);
            && (!Owned(y.s.tables, n) && !InCreation(y, n) <==> exists b :: StrandedBy(y, n, b))
            && (!Owned(y.s.tables, n) && !InCreation(y, n) ==> Stranded(env, y, n))
  {
    var y := Run(env, Boot(s0), acts);
    RunKeepsInv(env, s0, acts);
    InvGivesSchema(env, s0, y);
    L.RunEndsAreFinal(env, s0, acts);
    OwnedIffOwnerInserted(env, s0, acts);
    assert Owned(y.s.tables, n) <==> WasOwned(s0, y.log, n);
    hide Run, Orderly, RequestHistory, BrokenOff, Inv, OwnedExactly, Owned, Owns, L.EndsAreFinal, Schema;
    if !Owned(y.s.tables, n) && !InCreation(y, n) {
      OwnerlessIsStranded(env, s0, acts, n);
      var b :| BrokenOff(y, n, b);
      assert StrandedBy(y, n, b);
    }
    if b :| StrandedBy(y, n, b) {
      BrokenOffIsOver(env, s0, y, n, b);
      assert 0 <= b < |y.log| && RowMade(y.log[b], n) by { BrokenOffHadRow(y, n, b); }
      BrokenOffFreshRow(env, s0, y, n, b);
    }
  }

  lemma BrokenOffHadRow(y: Sys, n: string, b: int)
    requires BrokenOff(y, n, b)
    ensures 0 <= b < |y.log| && RowMade(y.log[b], n)
  {
  }

  /** Half of it: an ownerless row outside a creation in flight comes from a creation that broke off and has no
      member at all. */
  lemma OwnerlessIsStranded(env: Env, s0: Stores, acts: seq<Action>, n: string)
    requires Schema(env, s0) && forall m | m in s0.tables.orgs :: Owned(s0.tables, m)
    requires var y := Run(env, Boot(s0), acts);
             n in y.s.tables.orgs && !Owned(y.s.tables, n) && forall r | r in y.procs :: !Creating(y.procs[r], n)
    ensures var y := Run(env, Boot(s0), acts); Stranded(env, y, n) && exists b :: BrokenOff(y, n, b)
  {
    EveryRowAccounted(env, s0, acts);
    RunKeepsMembersKnown(env, s0, acts);
    hide Run, BrokenOff;
  }
}
