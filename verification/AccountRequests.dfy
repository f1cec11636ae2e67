/** Requests on the caller's own profile and keys, run without faults: what they show and what they change. */
module AccountRequests {
  import opened Wrappers
  import opened Text
  import opened Stores
  import opened Programs
  import opened Sequential

  /** The caller is shown exactly the keys stored for them, and nothing changes. */
  lemma KeyListingIsExact(env: Env, s: Stores, user: string, choices: seq<Choice>)
    requires user != "" && FaultFree(choices)
    ensures var (s', end) := Handle(env, s, user, ListUserApiKeys, choices);
            && s' == s && end.reply.KeysReply?
            && (forall h :: h in end.reply.keys <==> h in s.accounts.keys && s.accounts.keys[h].user == user)
            && (forall h | h in end.reply.keys :: end.reply.keys[h] == s.accounts.keys[h])
  {
    assert forall i | 0 <= i < |choices| :: choices[i] in choices;
    AloneStep(env, s, Account(KeysRead(user)), choices);
    hide ResumeGate, ResumeOrg, ResumeObj, IssueObj, IssueOrg, ExecuteTables, ExecuteCluster;
  }

  predicate Names(row: KeyRow, user: string, id: string) {
    row.id == id && row.user == user
  }

  /** The keys without the caller's key of that id. */
  function Without(keys: map<string, KeyRow>, user: string, id: string): map<string, KeyRow> {
    map h | h in keys && !Names(keys[h], user, id) :: keys[h]
  }

  lemma DeleteKeyCall(s: Stores, user: string, id: string)
    ensures var keys := s.accounts.keys;
            var (s', a) := Execute(s, OnAccounts(DeleteKey(user, Some(id))));
            && s' == s.(accounts := s.accounts.(keys := Without(keys, user, id)))
            && a.Done? && (a.rows == 0 <==> forall h | h in keys :: !Names(keys[h], user, id))
  {
    var keys := s.accounts.keys;
    var gone := set h | h in keys && keys[h].id == id && keys[h].user == user;
    assert keys - gone == Without(keys, user, id);
    if h :| h in keys && Names(keys[h], user, id) {
      assert h in gone;
    } else {
      assert gone == {};
    }
  }

  lemma EnterRevocation(env: Env, now: nat, user: string, id: string)
    requires user != "" && TrimSpace(id) != ""
    ensures Enter(env, now, user, RevokeUserApiKey(id)) == Account(KeyDelete(user, TrimSpace(id)))
  {
    hide TrimSpace;
  }

  lemma RevokeAlone(env: Env, s: Stores, user: string, id: string, choices: seq<Choice>)
    requires FaultAt(choices, 0).NoFault?
    ensures var (s', a) := Execute(s, OnAccounts(DeleteKey(user, env.uuid(id))));
            RunAlone(env, s, Account(KeyDelete(user, id)), choices) ==
            (s', if !a.Done? then Reject(Internal) else if a.rows == 0 then Reject(NotFound) else Finished(Deleted))
  {
    AloneStep(env, s, Account(KeyDelete(user, id)), choices);
    hide ResumeGate, ResumeOrg, ResumeObj, IssueObj, IssueOrg, Execute;
  }

  /** A revocation removes exactly the caller's key that the trimmed text names, in whatever spelling. It says
      NotFound exactly if there is none, and Internal exactly for text that is no identifier. */
  lemma RevocationIsExact(env: Env, s: Stores, user: string, id: string, choices: seq<Choice>)
    requires user != "" && TrimSpace(id) != "" && FaultFree(choices)
    ensures var keys := s.accounts.keys;
            Handle(env, s, user, RevokeUserApiKey(id), choices) ==
            match env.uuid(TrimSpace(id))
            case None => (s, Reject(Internal))
            case Some(keyId) =>
              (s.(accounts := s.accounts.(keys := Without(keys, user, keyId))),
               if forall h | h in keys :: !Names(keys[h], user, keyId) then Reject(NotFound) else Finished(Deleted))
  {
    NoFaults(choices);
    HandleRuns(env, s, user, RevokeUserApiKey(id), choices);
    NoKeyCall(s, user);
    hide *;
    EnterRevocation(env, s.now, user, id);
    RevokeAlone(env, s, user, TrimSpace(id), choices);
    if env.uuid(TrimSpace(id)).Some? {
      DeleteKeyCall(s, user, env.uuid(TrimSpace(id)).value);
    }
  }

  lemma NoKeyCall(s: Stores, user: string)
    ensures Execute(s, OnAccounts(DeleteKey(user, None))) == (s, Failed)
  {
  }

  /** The users with the caller's own rows renamed. */
  function Renamed(users: map<string, UserRow>, user: string, name: string): map<string, UserRow> {
    map e | e in users :: if users[e].id == user then users[e].(name := name) else users[e]
  }

  /** The caller's own rows. */
  function Own(users: map<string, UserRow>, user: string): map<string, UserRow> {
    map e | e in users && users[e].id == user :: users[e]
  }

  /** A row with the requested name is shown as it is. */
  lemma ProfileConfirmAlone(env: Env, s: Stores, user: string, name: string, choices: seq<Choice>)
    requires FaultAt(choices, 0).NoFault?
    requires forall e | e in s.accounts.users && s.accounts.users[e].id == user :: s.accounts.users[e].name == name
    ensures RunAlone(env, s, Account(ProfileConfirm(user, name)), choices) ==
            (s, if HasUser(s.accounts, user)
                then Finished(ProfileReply(Own(s.accounts.users, user)))
                else Reject(NotFound))
  {
    AloneStep(env, s, Account(ProfileConfirm(user, name)), choices);
    var own := Own(s.accounts.users, user);
    assert (map e | e in own :: own[e].(name := name)) == own;
    hide ResumeGate, ResumeOrg, ResumeObj, IssueObj, IssueOrg, ExecuteTables, ExecuteCluster, HasUser;
  }

  lemma RenameKeepsUser(a: Accounts, user: string, name: string)
    ensures HasUser(a.(users := Renamed(a.users, user, name)), user) == HasUser(a, user)
    ensures !HasUser(a, user) ==> Renamed(a.users, user, name) == a.users
  {
    if e :| e in a.users && a.users[e].id == user {
      assert Renamed(a.users, user, name)[e].id == user;
    } else {
      assert forall e | e in a.users :: Renamed(a.users, user, name)[e] == a.users[e];
    }
  }

  lemma ProfileWriteAlone(env: Env, s: Stores, user: string, name: string, choices: seq<Choice>)
    requires FaultAt(choices, 0).NoFault?
    ensures var s' := s.(accounts := s.accounts.(users := Renamed(s.accounts.users, user, name)));
            RunAlone(env, s, Account(ProfileWrite(user, name)), choices) ==
            if HasUser(s.accounts, user) then RunAlone(env, s', Account(ProfileConfirm(user, name)), Rest(choices))
            else (s', Reject(NotFound))
  {
    AloneStep(env, s, Account(ProfileWrite(user, name)), choices);
    hide ResumeGate, ResumeOrg, ResumeObj, IssueObj, IssueOrg, ExecuteTables, ExecuteCluster, HasUser;
  }

  /** A change of profile renames exactly the caller and replies with exactly the caller's new row; every other user
      and all keys stay as they were. A caller without a row is told so and nothing changes. */
  lemma ProfileChangeIsExact(env: Env, s: Stores, user: string, name: string, choices: seq<Choice>)
    requires user != "" && TrimSpace(name) != "" && FaultFree(choices)
    ensures var users := Renamed(s.accounts.users, user, TrimSpace(name));
            Handle(env, s, user, UpdateProfile(name), choices) ==
            if HasUser(s.accounts, user)
            then (s.(accounts := s.accounts.(users := users)),
                  Finished(ProfileReply(Own(users, user))))
            else (s, Reject(NotFound))
  {
    var name' := TrimSpace(name);
    var s' := s.(accounts := s.accounts.(users := Renamed(s.accounts.users, user, name')));
    assert forall i | 0 <= i < |choices| :: choices[i] in choices;
    RenameKeepsUser(s.accounts, user, name');
    assert forall e | e in s'.accounts.users && s'.accounts.users[e].id == user :: s'.accounts.users[e].name == name';
    ProfileWriteAlone(env, s, user, name', choices);
    ProfileConfirmAlone(env, s', user, name', Rest(choices));
    hide RunAlone, Renamed, HasUser, TrimSpace;
  }
}
