/** The life of an API key over interleaved runs: from the request that creates it, through the header it is
    presented in, to its expiry or revocation. */
module KeyRuns {
  import opened Wrappers
  import opened Stores
  import opened Programs
  import opened Runs
  import opened Saga
  import ApiKeys
  import Bearer
  import Scopes
  import Text
  import B = Builders
  import K = KeyRequests

  /** The same key, but for the time of its last use. */
  predicate SameKey(r: KeyRow, q: KeyRow) {
    q == r.(lastUsedAt := q.lastUsedAt)
  }

  predicate InsertsKey(e: Event, h: string) {
    e.pc.Account? && e.pc.a.KeyInsert? && e.pc.a.hash == h
  }

  predicate Revoked(e: Event, h: string) {
    h in e.before.accounts.keys && h !in e.after.accounts.keys
  }

  predicate Expired(row: KeyRow, now: nat) {
    row.expiresAt.Some? && row.expiresAt.value <= now
  }

  /** The caller a key stands for. */
  function Holder(row: KeyRow): Scopes.Principal {
    Scopes.Principal(row.user, false, row.scopes)
  }

  predicate InsertFacts(e: Event, h: string) {
    h in e.after.accounts.keys && h !in e.before.accounts.keys ==>
      && InsertsKey(e, h)
      && e.after.accounts.keys[h] ==
           e.pc.a.row.(id := e.after.accounts.keys[h].id, createdAt := e.before.now, lastUsedAt := None)
  }

  /** The request names the key by one of the spellings of its id, and comes from its user. */
  predicate AsksToRevoke(env: Env, pc: Pc, row: KeyRow) {
    pc.Account? && pc.a.KeyDelete? && pc.a.user == row.user && Spells(env, pc.a.id, row.id)
  }

  predicate RevokeFacts(env: Env, e: Event, h: string) {
    Revoked(e, h) ==> AsksToRevoke(env, e.pc, e.before.accounts.keys[h])
  }

  /** A key in use keeps everything but the time of its last use, and that changes only right after a look-up of
      this very key. */
  predicate TouchFacts(e: Event, h: string) {
    h in e.before.accounts.keys && h in e.after.accounts.keys ==>
      var row := e.before.accounts.keys[h];
      var used := e.pc.Gate? && e.pc.g.KeyTouch? && e.pc.g.keyId == row.id && !e.fault.FailStop?;
      e.after.accounts.keys[h] == if used then row.(lastUsedAt := Some(e.before.now)) else row
  }

  predicate LookupFacts(e: Event) {
    && (e.pc.Account? && e.pc.a.KeyInsert? && e.next.Finished? && e.next.reply.KeyIssued? ==>
          e.pc.a.hash in e.after.accounts.keys && e.pc.a.hash !in e.before.accounts.keys)
    && (e.pc.Gate? && e.pc.g.KeyLookup? && e.fault.NoFault? ==>
          var keys := e.before.accounts.keys;
          var h := e.pc.g.hash;
          e.next == if h in keys && !Expired(keys[h], e.before.now)
                    then Gate(KeyTouch(e.pc.g.op, keys[h].id, Holder(keys[h])))
                    else Reject(Unauthenticated))
    && e.after.now == e.before.now
  }

  ghost predicate KeyFacts(env: Env, e: Event) {
    (forall h :: InsertFacts(e, h) && RevokeFacts(env, e, h) && TouchFacts(e, h)) && LookupFacts(e)
  }

  lemma AccountEventFacts(env: Env, y: Sys, rid: ReqId, c: Choice)
    requires InFlight(y, rid) && y.procs[rid].Account?
    ensures KeyFacts(env, NextEvent(env, y, rid, c))
  {
    hide ExecuteTables, ExecuteCluster, ResumeGate, ResumeOrg, ResumeObj, IssueOrg, IssueObj, SessionFor, HasUser;
  }

  lemma GateEventFacts(env: Env, y: Sys, rid: ReqId, c: Choice)
    requires InFlight(y, rid) && y.procs[rid].Gate?
    ensures KeyFacts(env, NextEvent(env, y, rid, c))
  {
    hide ExecuteTables, ExecuteCluster, ResumeAccount, ResumeOrg, ResumeObj, IssueOrg, IssueObj, IssueAccount, Admit;
  }

  lemma OtherEventFacts(env: Env, y: Sys, rid: ReqId, c: Choice)
    requires InFlight(y, rid) && (y.procs[rid].Org? || y.procs[rid].Obj?)
    ensures KeyFacts(env, NextEvent(env, y, rid, c))
  {
    hide ExecuteAccounts, ExecuteTables, ExecuteCluster, Resume;
  }

  lemma KeyFactsHold(env: Env, y: Sys, rid: ReqId, c: Choice)
    requires InFlight(y, rid)
    ensures KeyFacts(env, NextEvent(env, y, rid, c)) && NextEvent(env, y, rid, c).before == y.s
  {
    match y.procs[rid]
    case Account(_) => AccountEventFacts(env, y, rid, c);
    case Gate(_) => GateEventFacts(env, y, rid, c);
    case _ => OtherEventFacts(env, y, rid, c);
    hide Step, Issue, KeyFacts;
  }

  // ---- Whole runs ----

  /** Events follow one another, and accounts change only in events. */
  ghost predicate Chained(env: Env, y: Sys) {
    && (forall i | 0 <= i < |y.log| :: KeyFacts(env, y.log[i]))
    && (forall i | 0 <= i < |y.log| - 1 ::
          y.log[i].after.accounts == y.log[i + 1].before.accounts && y.log[i].after.now <= y.log[i + 1].before.now)
    && (y.log != [] ==>
          y.log[|y.log| - 1].after.accounts == y.s.accounts && y.log[|y.log| - 1].after.now <= y.s.now)
  }

  lemma RecordKeepsChained(env: Env, y: Sys, e: Event)
    requires Chained(env, y) && KeyFacts(env, e) && e.before == y.s
    ensures Chained(env, Record(y, e))
  {
    hide KeyFacts;
  }

  lemma NextKeepsChained(env: Env, y: Sys, a: Action)
    requires Chained(env, y)
    ensures Chained(env, Next(env, y, a))
  {
    hide Next;
    NextIsCallOrNot(env, y, a);
    TimeGoesOn(env, y, a);
    if NoCall(y, Next(env, y, a)) {
      hide KeyFacts;
    } else {
      KeyFactsHold(env, y, a.rid, a.choice);
      RecordKeepsChained(env, y, NextEvent(env, y, a.rid, a.choice));
      hide Chained;
    }
    hide NextEvent, KeyFacts, NewRequest;
  }

  lemma TimeGoesOn(env: Env, y: Sys, a: Action)
    ensures !a.Call? ==> y.s.now <= Next(env, y, a).s.now && Next(env, y, a).s.accounts == y.s.accounts
    ensures NoCall(y, Next(env, y, a)) ==> y.s.now <= Next(env, y, a).s.now
  {
    if a.Call? && InFlight(y, a.rid) { assert Next(env, y, a).log != y.log; }
    hide Begin, NextEvent, NewRequest;
  }

  lemma {:induction false} RunIsChained(env: Env, s0: Stores, acts: seq<Action>)
    ensures Chained(env, Run(env, Boot(s0), acts))
  {
    hide Next;
    if acts != [] {
      RunIsChained(env, s0, acts[..|acts| - 1]);
      NextKeepsChained(env, Run(env, Boot(s0), acts[..|acts| - 1]), acts[|acts| - 1]);
    }
    hide KeyFacts;
  }

  /** No other key with this hash is stored between the two events. */
  predicate NoCollision(log: seq<Event>, h: string, i: nat, k: nat) {
    forall j | i < j < k && j < |log| :: !InsertsKey(log[j], h)
  }

  predicate RevokedBetween(log: seq<Event>, h: string, i: nat, k: nat) {
    exists j | i < j < k && j < |log| :: Revoked(log[j], h)
  }

  /** From its creation at `i` until event `k`, a key is there unchanged unless it was revoked. */
  lemma {:induction false} KeyPersists(env: Env, y: Sys, h: string, i: nat, k: nat)
    requires Chained(env, y) && i < k < |y.log| && NoCollision(y.log, h, i, k)
    requires h in y.log[i].after.accounts.keys
    ensures var keys := y.log[k].before.accounts.keys;
            && (h in keys <==> !RevokedBetween(y.log, h, i, k))
            && (h in keys ==> SameKey(y.log[i].after.accounts.keys[h], keys[h]))
    decreases k
  {
    if k > i + 1 {
      KeyPersists(env, y, h, i, k - 1);
      var e := y.log[k - 1];
      assert KeyFacts(env, e);
      assert InsertFacts(e, h) && TouchFacts(e, h);
      assert !InsertsKey(e, h);
      if h in e.before.accounts.keys && h !in e.after.accounts.keys {
        assert Revoked(y.log[k - 1], h);
      }
    }
  }

  lemma {:induction false} TimePasses(env: Env, y: Sys, i: nat, k: nat)
    requires Chained(env, y) && i <= k < |y.log|
    ensures y.log[i].before.now <= y.log[k].before.now
    decreases k
  {
    if i < k {
      TimePasses(env, y, i, k - 1);
      assert KeyFacts(env, y.log[k - 1]);
    }
    hide Revoked, InsertFacts, RevokeFacts, SameKey;
  }

  /** A creation whose token was handed out. */
  predicate Issues(e: Event) {
    e.pc.Account? && e.pc.a.KeyInsert? && e.next.Finished? && e.next.reply.KeyIssued?
  }

  /** A look-up of the hash that did not fail. */
  predicate LooksUp(e: Event, h: string) {
    e.pc.Gate? && e.pc.g.KeyLookup? && e.pc.g.hash == h && e.fault.NoFault?
  }

  /** The key issued at event `i` works at a later look-up exactly while it is neither revoked nor expired, and
      then stands for the user who created it with the scopes it was created with. */
  lemma KeyWorksWhileItLasts(env: Env, s0: Stores, acts: seq<Action>, i: nat, k: nat)
    requires var log := Run(env, Boot(s0), acts).log;
             && i < k < |log|
             && Issues(log[i])
             && LooksUp(log[k], log[i].pc.a.hash)
             && NoCollision(log, log[i].pc.a.hash, i, k)
    ensures var log := Run(env, Boot(s0), acts).log;
            var row := log[i].pc.a.row;
            if RevokedBetween(log, log[i].pc.a.hash, i, k) || Expired(row, log[k].before.now)
            then log[k].next == Reject(Unauthenticated)
            else log[k].next.Gate? && log[k].next.g.KeyTouch? && log[k].next.g.who == Holder(row)
  {
    var y := Run(env, Boot(s0), acts);
    RunIsChained(env, s0, acts);
    var h := y.log[i].pc.a.hash;
    assert KeyFacts(env, y.log[i]) && KeyFacts(env, y.log[k]);
    assert InsertFacts(y.log[i], h);
    KeyPersists(env, y, h, i, k);
    hide Run, RevokedBetween, NoCollision, Chained;
  }

  /** Once a key was turned down at `j`, it is turned down at every later look-up. */
  lemma RejectedStaysRejected(env: Env, s0: Stores, acts: seq<Action>, i: nat, j: nat, k: nat)
    requires var log := Run(env, Boot(s0), acts).log;
             && i < j < k < |log|
             && Issues(log[i])
             && LooksUp(log[j], log[i].pc.a.hash)
             && LooksUp(log[k], log[i].pc.a.hash)
             && NoCollision(log, log[i].pc.a.hash, i, k)
             && log[j].next == Reject(Unauthenticated)
    ensures Run(env, Boot(s0), acts).log[k].next == Reject(Unauthenticated)
  {
    var y := Run(env, Boot(s0), acts);
    RunIsChained(env, s0, acts);
    TimePasses(env, y, j, k);
    KeyWorksWhileItLasts(env, s0, acts, i, j);
    KeyWorksWhileItLasts(env, s0, acts, i, k);
    hide Run, Chained, InsertFacts, RevokeFacts;
  }

  /** Between two look-ups nothing happens to a stored key: in every run each event leaves it alone, but for noting
      the time of its own use. */
  lemma StoredKeysAreLeftAlone(env: Env, s0: Stores, acts: seq<Action>, j: nat, h: string)
    requires j < |Run(env, Boot(s0), acts).log|
    ensures TouchFacts(Run(env, Boot(s0), acts).log[j], h)
  {
    RunIsChained(env, s0, acts);
    assert KeyFacts(env, Run(env, Boot(s0), acts).log[j]);
    hide Run, TouchFacts;
  }

  /** Only the request of the key's user, naming its id, takes a key away. */
  lemma OnlyItsUserRevokes(env: Env, s0: Stores, acts: seq<Action>, j: nat, h: string)
    requires j < |Run(env, Boot(s0), acts).log| && Revoked(Run(env, Boot(s0), acts).log[j], h)
    ensures var e := Run(env, Boot(s0), acts).log[j];
            AsksToRevoke(env, e.pc, e.before.accounts.keys[h])
  {
    RunIsChained(env, s0, acts);
    assert KeyFacts(env, Run(env, Boot(s0), acts).log[j]);
    assert RevokeFacts(env, Run(env, Boot(s0), acts).log[j], h);
    hide Run;
  }

  lemma CreationIsAccepted(env: Env, now: nat, user: string, name: string, scopes: seq<string>, days: B.int32,
                           secret: seq<ApiKeys.byte>)
    requires !EnterCreateKey(env, now, user, name, scopes, days, secret).Finished?
    ensures var p := EnterCreateKey(env, now, user, name, scopes, days, secret);
            var token := ApiKeys.Token(secret);
            && p.Account? && p.a.KeyInsert? && p.a.token == token && p.a.hash == env.hash(token)
            && p.a.row.prefix == ApiKeys.DisplayPrefix(token)
            && p.a.row.user == user && p.a.row.scopes == scopes && Scopes.Acceptable(scopes)
            && p.a.row.name == Text.TrimSpace(name)
            && K.DaysInOrder(days) && p.a.row.expiresAt == K.EndOf(days, now)
  {
    K.ExpiryIs(days, now);
    hide ApiKeys.Token, ApiKeys.DisplayPrefix, Scopes.Acceptable, Text.TrimSpace, KeyExpiry, K.EndOf;
  }

  lemma PresentedKeyIsLookedUp(env: Env, now: nat, secret: seq<ApiKeys.byte>, op: Op)
    requires |secret| == 32 && !Scopes.Public(MethodOf(op))
    ensures var token := ApiKeys.Token(secret);
            Begin(env, now, Request(op, Some([Bearer.SCHEME + token]))) == Gate(KeyLookup(op, env.hash(token)))
  {
    Bearer.IssuedKeyIsRecognised(secret);
    hide ApiKeys.Token, Bearer.Extract, Bearer.LooksLikeJWT, MethodOf, Enter, Admit;
  }

  /** From the accepted creation request to the presented header: the row carries the creator, the checked
      scopes as sent and the asked-for expiry; the token has its documented shape; and presenting it leads to a
      look-up under the stored hash on every method that is not public. */
  lemma IssuedKeyFindsItsRow(env: Env, now: nat, user: string, name: string, scopes: seq<string>, days: B.int32,
                             secret: seq<ApiKeys.byte>, later: nat, op: Op)
    requires |secret| == 32 && !Scopes.Public(MethodOf(op))
    requires !EnterCreateKey(env, now, user, name, scopes, days, secret).Finished?
    ensures var p := EnterCreateKey(env, now, user, name, scopes, days, secret);
            && p.Account? && p.a.KeyInsert?
            && |p.a.token| == 46 && |p.a.row.prefix| == 12 && p.a.row.prefix <= p.a.token
            && p.a.row.user == user && p.a.row.scopes == scopes && Scopes.Acceptable(scopes)
            && p.a.row.name == Text.TrimSpace(name)
            && K.DaysInOrder(days) && p.a.row.expiresAt == K.EndOf(days, now)
            && Begin(env, later, Request(op, Some([Bearer.SCHEME + p.a.token]))) == Gate(KeyLookup(op, p.a.hash))
  {
    ApiKeys.TokenShape(secret);
    CreationIsAccepted(env, now, user, name, scopes, days, secret);
    PresentedKeyIsLookedUp(env, later, secret, op);
    hide ApiKeys.Token, Scopes.Acceptable, MethodOf, Begin, ApiKeys.DisplayPrefix, EnterCreateKey, K.EndOf;
    hide Text.TrimSpace;
  }

  // ---- Only issued keys work ----

  /** A request about to store a key stores the hash of the token it will hand out. */
  predicate HashesToken(env: Env, pc: Pc) {
    pc.Account? && pc.a.KeyInsert? ==> pc.a.hash == env.hash(pc.a.token)
  }

  /** What is stored was there from the start or came with an event. */
  ghost predicate KeysHaveOrigin(env: Env, s0: Stores, y: Sys) {
    && (forall h | h in y.s.accounts.keys :: HasOrigin(s0, y.log, h, |y.log|))
    && (forall k, h | 0 <= k < |y.log| && h in y.log[k].before.accounts.keys :: HasOrigin(s0, y.log, h, k))
    && (forall i | 0 <= i < |y.log| :: HashesToken(env, y.log[i].pc))
    && (forall r | r in y.procs :: HashesToken(env, y.procs[r]))
  }

  ghost predicate HasOrigin(s0: Stores, log: seq<Event>, h: string, k: int) {
    h in s0.accounts.keys || exists i | 0 <= i < k && i < |log| :: InsertsKey(log[i], h)
  }

  lemma EnterHashes(env: Env, now: nat, user: string, op: Op)
    ensures HashesToken(env, Enter(env, now, user, op))
  {
    hide Scopes.Acceptable, ApiKeys.Token, ApiKeys.DisplayPrefix, Text.TrimSpace;
  }

  lemma BeginHashes(env: Env, now: nat, req: Request)
    ensures HashesToken(env, Begin(env, now, req))
  {
    forall user ensures HashesToken(env, Enter(env, now, user, req.op)) {
      EnterHashes(env, now, user, req.op);
    }
    hide Enter, MethodOf;
  }

  lemma ResumeHashes(env: Env, now: nat, pc: Pc, a: Answer)
    requires Live(pc)
    ensures HashesToken(env, Resume(env, now, pc, a))
  {
    if pc.Gate? && pc.g.KeyTouch? {
      EnterHashes(env, now, pc.g.who.user, pc.g.op);
    }
    hide Enter, MethodOf, AfterFirst, Validated, AfterUpdateRole;
  }

  lemma EventHashes(env: Env, y: Sys, rid: ReqId, c: Choice)
    requires InFlight(y, rid)
    ensures var e := NextEvent(env, y, rid, c); e.pc == y.procs[rid] && HashesToken(env, e.next)
  {
    var (s', a) := Perform(y.s, Issue(env, y.procs[rid], c.id), c.fault);
    ResumeHashes(env, s'.now, y.procs[rid], a);
    hide Resume, Execute, Issue;
  }

  lemma OriginStays(s0: Stores, log: seq<Event>, e: Event, h: string, k: int)
    requires HasOrigin(s0, log, h, k)
    ensures HasOrigin(s0, log + [e], h, k) && HasOrigin(s0, log + [e], h, |log| + 1)
  {
    if i :| 0 <= i < k && i < |log| && InsertsKey(log[i], h) {
      assert InsertsKey((log + [e])[i], h);
    }
  }

  lemma RecordKeepsOrigin(env: Env, s0: Stores, y: Sys, e: Event)
    requires KeysHaveOrigin(env, s0, y) && KeyFacts(env, e) && e.before == y.s
    requires HashesToken(env, e.pc) && HashesToken(env, e.next)
    ensures KeysHaveOrigin(env, s0, Record(y, e))
  {
    var log := y.log + [e];
    forall h | h in e.after.accounts.keys ensures HasOrigin(s0, log, h, |log|) {
      assert InsertFacts(e, h);
      if h in e.before.accounts.keys {
        OriginStays(s0, y.log, e, h, |y.log|);
      } else {
        assert InsertsKey(log[|y.log|], h);
      }
    }
    forall k, h | 0 <= k < |log| && h in log[k].before.accounts.keys ensures HasOrigin(s0, log, h, k) {
      OriginStays(s0, y.log, e, h, k);
    }
    hide HasOrigin, HashesToken, KeyFacts;
  }

  lemma {:induction false} RunKeysHaveOrigin(env: Env, s0: Stores, acts: seq<Action>)
    ensures KeysHaveOrigin(env, s0, Run(env, Boot(s0), acts))
  {
    hide Next;
    if acts != [] {
      var a := acts[|acts| - 1];
      var y := Run(env, Boot(s0), acts[..|acts| - 1]);
      RunKeysHaveOrigin(env, s0, acts[..|acts| - 1]);
      NextIsCallOrNot(env, y, a);
      if NoCall(y, Next(env, y, a)) {
        NoCallHashes(env, y, a);
      } else {
        KeyFactsHold(env, y, a.rid, a.choice);
        EventHashes(env, y, a.rid, a.choice);
        RecordKeepsOrigin(env, s0, y, NextEvent(env, y, a.rid, a.choice));
      }
    }
    hide NextEvent, KeyFacts, HashesToken, HasOrigin;
  }

  lemma NoCallHashes(env: Env, y: Sys, a: Action)
    requires NoCall(y, Next(env, y, a)) && forall r | r in y.procs :: HashesToken(env, y.procs[r])
    ensures forall r | r in Next(env, y, a).procs :: HashesToken(env, Next(env, y, a).procs[r])
  {
    if a.Arrive? { BeginHashes(env, y.s.now, a.req); }
    assert |Next(env, y, a).log| == |y.log|;
    hide Begin, NextEvent, NewRequest;
  }

  /** Without hash collisions, and for a token whose hash was not stored before the run, a look-up succeeds
      only for a token that a creation request in the run has stored before. */
  lemma OnlyIssuedKeysWork(env: Env, s0: Stores, acts: seq<Action>, k: nat, token: string)
    requires forall a, b :: env.hash(a) == env.hash(b) ==> a == b
    requires env.hash(token) !in s0.accounts.keys
    requires var log := Run(env, Boot(s0), acts).log;
             k < |log| && LooksUp(log[k], env.hash(token))
             && log[k].next != Reject(Unauthenticated)
    ensures var log := Run(env, Boot(s0), acts).log;
            exists i | 0 <= i < k :: log[i].pc.Account? && log[i].pc.a.KeyInsert? && log[i].pc.a.token == token
  {
    var y := Run(env, Boot(s0), acts);
    RunIsChained(env, s0, acts);
    RunKeysHaveOrigin(env, s0, acts);
    var h := env.hash(token);
    assert KeyFacts(env, y.log[k]);
    assert HasOrigin(s0, y.log, h, k);
    var i :| 0 <= i < k && InsertsKey(y.log[i], h);
    assert HashesToken(env, y.log[i].pc);
    hide Run, InsertFacts, RevokeFacts, Chained;
  }
}
