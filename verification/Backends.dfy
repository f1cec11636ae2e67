/** The database pool and the cluster client the handlers hold: the stores behind them, and how their next calls
    will turn out. */
module Backends {
  import opened Stores
  import opened Programs
  import opened Sequential
  import opened UpdateStatements

  class Backend {
    const env: Env
    var s: Stores
    var choices: seq<Choice>

    constructor (env: Env, s: Stores, choices: seq<Choice>)
      ensures this.env == env && this.s == s && this.choices == choices
    {
      this.env := env;
      this.s := s;
      this.choices := choices;
    }

    /** Makes one call. `at` is the point of the handler's program the call belongs to; what is left of the
        program continues with the answer. */
    method Exec(ghost at: Pc, call: Call) returns (a: Answer)
      requires Live(at) && call == Issue(env, at, Head(choices).id)
      modifies this
      ensures (s, a) == Perform(old(s), call, Head(old(choices)).fault) && choices == Rest(old(choices))
      ensures !Resume(env, s.now, at, a).Crashed?
      ensures RunAlone(env, old(s), at, old(choices)) == RunAlone(env, s, Resume(env, s.now, at, a), choices)
    {
      var c := if choices == [] then Choice(NoFault, "") else choices[0];
      AloneStep(env, s, at, choices);
      var (s', a') := Perform(s, call, c.fault);
      s, a := s', a';
      choices := if choices == [] then [] else choices[1..];
      hide Issue, Execute, Resume;
    }

    /** Sends a statement with its arguments; one the database does not understand fails. */
    method ExecStatement(ghost at: Pc, q: string, args: seq<string>) returns (a: Answer)
      requires Live(at)
      requires var t := ReadStatement(env, q, args); t.Some? ==> OnTables(t.value) == Issue(env, at, Head(choices).id)
      modifies this
      ensures choices == Rest(old(choices))
      ensures ReadStatement(env, q, args).None? ==> s == old(s) && a == Failed
      ensures var t := ReadStatement(env, q, args);
              t.Some? ==> && (s, a) == Perform(old(s), OnTables(t.value), Head(old(choices)).fault)
                          && !Resume(env, s.now, at, a).Crashed?
                          && RunAlone(env, old(s), at, old(choices)) ==
                               RunAlone(env, s, Resume(env, s.now, at, a), choices)
    {
      var t := ReadStatement(env, q, args);
      if t.Some? {
        a := Exec(at, OnTables(t.value));
      } else {
        a := Failed;
        choices := if choices == [] then [] else choices[1..];
      }
      hide Issue, Perform, Resume, ReadStatement, RunAlone;
    }

    /** The identifier the database will generate if the next call is an insertion. */
    function GeneratedId(): string
      reads this
    {
      Head(choices).id
    }

    /** Creates the namespace of an organization; one that is there already will do. */
    method EnsureOrgNamespace(ghost at: Pc, orgId: string) returns (ok: bool, ghost a: Answer)
      requires Live(at) && OnCluster(CreateNamespace(orgId)) == Issue(env, at, Head(choices).id)
      modifies this
      ensures ok == (a.Done? || a.Exists?)
      ensures ok ==> s == old(s).(cluster := old(s).cluster.(namespaces := old(s).cluster.namespaces + {orgId}))
      ensures !Resume(env, s.now, at, a).Crashed?
      ensures RunAlone(env, old(s), at, old(choices)) == RunAlone(env, s, Resume(env, s.now, at, a), choices)
    {
      var answer := Exec(at, OnCluster(CreateNamespace(orgId)));
      a := answer;
      if answer.Exists? {
        assert old(s).cluster.namespaces + {orgId} == old(s).cluster.namespaces;
        return true, a;
      }
      return answer.Done?, a;
    }

    /** Deletes the namespace with everything in it; one that is missing already will do. */
    method DeleteOrgNamespace(ghost at: Pc, orgId: string) returns (ok: bool, ghost a: Answer)
      requires Live(at) && OnCluster(DeleteNamespace(orgId)) == Issue(env, at, Head(choices).id)
      modifies this
      ensures ok == (a.Done? || a.Missing?)
      ensures ok ==> orgId !in s.cluster.namespaces && (a.Done? ==> forall k | k in s.cluster.objects :: k.ns != orgId)
      ensures ok ==> s.tables == old(s).tables && s.accounts == old(s).accounts
      ensures !Resume(env, s.now, at, a).Crashed?
      ensures RunAlone(env, old(s), at, old(choices)) == RunAlone(env, s, Resume(env, s.now, at, a), choices)
    {
      var answer := Exec(at, OnCluster(DeleteNamespace(orgId)));
      a := answer;
      if answer.Missing? {
        return true, a;
      }
      return answer.Done?, a;
    }
  }
}
