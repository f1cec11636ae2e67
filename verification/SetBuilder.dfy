/** The dynamic `UPDATE organizations SET …` statement: its text, its arguments and its meaning. */
module SetBuilder {
  import opened Wrappers

  /** One optional column of the statement; an absent value means the field is not changed. */
  datatype Field = Field(column: string, value: Option<string>)

  function Decimal(n: nat): string {
    if n < 10 then [('0' as int + n) as char] else Decimal(n / 10) + [('0' as int + n % 10) as char]
  }

  function Clause(column: string, n: nat): string {
    column + " = $" + Decimal(n)
  }

  function Clauses(fields: seq<Field>, argNum: nat): seq<string> {
    if fields == [] then []
    else if fields[0].value.Some? then
      [Clause(fields[0].column, argNum + 1)] + Clauses(fields[1..], argNum + 1)
    else Clauses(fields[1..], argNum)
  }

  function Arguments(fields: seq<Field>): seq<string> {
    if fields == [] then []
    else if fields[0].value.Some? then [fields[0].value.value] + Arguments(fields[1..])
    else Arguments(fields[1..])
  }

  const HEAD := "UPDATE organizations SET "
  const COMMA := ", "
  const WHERE := " WHERE id = $"

  function JoinComma(parts: seq<string>): string {
    if |parts| == 0 then "" else if |parts| == 1 then parts[0] else parts[0] + COMMA + JoinComma(parts[1..])
  }

  function Statement(fields: seq<Field>): string {
    HEAD + JoinComma(Clauses(fields, 1)) + WHERE + "1"
  }

  // What the database makes of a statement and its arguments.

  datatype Update = Update(sets: seq<(string, nat)>, idArgument: nat)

  predicate IsDigit(c: char) { '0' <= c <= '9' }
  predicate IsNameChar(c: char) { 'a' <= c <= 'z' || c == '_' }

  /** The length of the longest prefix whose characters satisfy `p`. */
  function Span(p: char -> bool, s: string): (n: nat)
    ensures n <= |s|
  {
    if s != "" && p(s[0]) then 1 + Span(p, s[1..]) else 0
  }

  function Number(digits: string): int {
    if digits == "" then 0
    else Number(digits[..|digits| - 1]) * 10 + (digits[|digits| - 1] as int - '0' as int)
  }

  /** `$` has been read: a placeholder number and what follows it. */
  function ParseNumber(s: string): (r: Option<(nat, string)>)
    ensures r.Some? ==> |r.value.1| < |s|
  {
    var n := Span(IsDigit, s);
    if n == 0 || Number(s[..n]) < 0 then None else Some((Number(s[..n]), s[n..]))
  }

  function ParseSet(s: string): (r: Option<((string, nat), string)>)
    ensures r.Some? ==> |r.value.1| < |s|
  {
    var n := Span(IsNameChar, s);
    if n == 0 || !(" = $" <= s[n..]) then None
    else match ParseNumber(s[n + 4..])
      case Some((k, rest)) => Some(((s[..n], k), rest))
      case None => None
  }

  function ParseSets(s: string): Option<(seq<(string, nat)>, string)>
    decreases |s|
  {
    match ParseSet(s)
    case Some((a, rest)) =>
      if ", " <= rest then
        (match ParseSets(rest[2..])
         case Some((more, rest')) => Some(([a] + more, rest'))
         case None => None)
      else Some(([a], rest))
    case None => None
  }

  function Parse(q: string): Option<Update> {
    var head, tail := "UPDATE organizations SET ", " WHERE id = $";
    if !(head <= q) then None
    else match ParseSets(q[|head|..])
      case Some((sets, rest)) =>
        if !(tail <= rest) then None
        else (match ParseNumber(rest[|tail|..])
          case Some((k, "")) => Some(Update(sets, k))
          case _ => None)
      case None => None
  }

  type Row = map<string, string>

  function Assign(sets: seq<(string, nat)>, args: seq<string>, row: Row): Option<Row> {
    if sets == [] then Some(row)
    else if 1 <= sets[0].1 <= |args| then Assign(sets[1..], args, row[sets[0].0 := args[sets[0].1 - 1]])
    else None
  }

  /** Runs a statement on a table keyed by id; `None` when it does not parse or an argument is missing. */
  function Execute(q: string, args: seq<string>, table: map<string, Row>): Option<map<string, Row>> {
    match Parse(q)
    case Some(u) =>
      if !(1 <= u.idArgument <= |args|) then None
      else
        var id := args[u.idArgument - 1];
        if id !in table then Some(table)
        else (match Assign(u.sets, args, table[id])
          case Some(row) => Some(table[id := row])
          case None => None)
    case None => None
  }

  /** The intended effect: every present field replaced, every other one kept. */
  function Direct(fields: seq<Field>, row: Row): Row {
    if fields == [] then row
    else if fields[0].value.Some? then Direct(fields[1..], row[fields[0].column := fields[0].value.value])
    else Direct(fields[1..], row)
  }

  predicate NamesAColumn(f: Field) {
    f.column != "" && forall c | c in f.column :: IsNameChar(c)
  }

  predicate Legal(fields: seq<Field>) {
    forall f | f in fields :: NamesAColumn(f)
  }

  predicate AnyPresent(fields: seq<Field>) {
    exists f :: f in fields && f.value.Some?
  }

  lemma {:induction false} SpanOf(p: char -> bool, word: string, rest: string)
    requires forall c | c in word :: p(c)
    requires rest == "" || !p(rest[0])
    ensures Span(p, word + rest) == |word|
  {
    if word == "" {
      assert word + rest == rest;
    } else {
      assert word[0] in word && (word + rest)[1..] == word[1..] + rest;
      SpanOf(p, word[1..], rest);
    }
  }

  lemma {:induction false} NumberOfDecimal(n: nat)
    ensures Number(Decimal(n)) == n
    ensures Decimal(n) != "" && forall c | c in Decimal(n) :: IsDigit(c)
  {
    if n >= 10 {
      NumberOfDecimal(n / 10);
      assert Decimal(n)[..|Decimal(n)| - 1] == Decimal(n / 10);
    }
  }

  lemma ParseDecimal(n: nat, rest: string)
    requires rest == "" || !IsDigit(rest[0])
    ensures ParseNumber(Decimal(n) + rest) == Some((n, rest))
  {
    NumberOfDecimal(n);
    SpanOf(IsDigit, Decimal(n), rest);
    var d := |Decimal(n)|;
    assert (Decimal(n) + rest)[..d] == Decimal(n) && (Decimal(n) + rest)[d..] == rest;
  }

  lemma ParseClause(column: string, n: nat, rest: string)
    requires column != "" && forall c | c in column :: IsNameChar(c)
    requires rest == "" || !IsDigit(rest[0])
    ensures ParseSet(column + " = $" + Decimal(n) + rest) == Some(((column, n), rest))
  {
    var tail := " = $" + Decimal(n) + rest;
    var s := column + tail;
    assert s == column + " = $" + Decimal(n) + rest;
    SpanOf(IsNameChar, column, tail);
    assert s[|column|..] == tail && s[..|column|] == column;
    assert " = $" <= tail && s[|column| + 4..] == Decimal(n) + rest;
    ParseDecimal(n, rest);
  }

  /** The assignments the clauses denote, with their placeholder numbers. */
  function Sets(fields: seq<Field>, argNum: nat): seq<(string, nat)> {
    if fields == [] then []
    else if fields[0].value.Some? then [(fields[0].column, argNum + 1)] + Sets(fields[1..], argNum + 1)
    else Sets(fields[1..], argNum)
  }

  lemma {:induction false} ClausesAndSets(fields: seq<Field>, argNum: nat)
    ensures |Clauses(fields, argNum)| == |Sets(fields, argNum)| == |Arguments(fields)|
    ensures Sets(fields, argNum) != [] <==> AnyPresent(fields)
  {
    if fields != [] {
      ClausesAndSets(fields[1..], if fields[0].value.Some? then argNum + 1 else argNum);
      assert fields == [fields[0]] + fields[1..];
      if AnyPresent(fields[1..]) {
        var f :| f in fields[1..] && f.value.Some?;
        assert f in fields;
      }
    }
  }

  lemma LastSet(s: string, a: (string, nat), rest: string)
    requires ParseSet(s) == Some((a, rest)) && !(COMMA <= rest)
    ensures ParseSets(s) == Some(([a], rest))
  {
  }

  lemma NextSet(s: string, a: (string, nat), rest: string, more: seq<(string, nat)>, rest': string)
    requires ParseSet(s) == Some((a, rest)) && COMMA <= rest
    requires ParseSets(rest[2..]) == Some((more, rest'))
    ensures ParseSets(s) == Some(([a] + more, rest'))
  {
  }

  lemma JoinFirst(first: string, later: seq<string>, rest: string)
    requires later != []
    ensures JoinComma([first] + later) + rest == first + (COMMA + (JoinComma(later) + rest))
  {
    assert ([first] + later)[1..] == later;
  }

  lemma MoreClauses(f: Field, n: nat, text: string, rest: string, sets: seq<(string, nat)>)
    requires NamesAColumn(f)
    requires ParseSets(text) == Some((sets, rest))
    ensures ParseSets(Clause(f.column, n) + (COMMA + text)) == Some(([(f.column, n)] + sets, rest))
  {
    var tail := COMMA + text;
    assert tail[0] == ',' && tail[2..] == text;
    ParseClause(f.column, n, tail);
    NextSet(Clause(f.column, n) + tail, (f.column, n), tail, sets, rest);
  }

  lemma OneClause(f: Field, n: nat, rest: string)
    requires NamesAColumn(f) && rest != "" && rest[0] == ' '
    ensures ParseSets(JoinComma([Clause(f.column, n)]) + rest) == Some(([(f.column, n)], rest))
  {
    ParseClause(f.column, n, rest);
    LastSet(Clause(f.column, n) + rest, (f.column, n), rest);
  }

  lemma {:induction false} ParseClauses(fields: seq<Field>, argNum: nat, rest: string)
    requires Legal(fields) && AnyPresent(fields)
    requires rest != "" && rest[0] == ' '
    ensures ParseSets(JoinComma(Clauses(fields, argNum)) + rest) == Some((Sets(fields, argNum), rest))
  {
    var f, more := fields[0], fields[1..];
    assert fields == [f] + more;
    assert f in fields;
    if f.value.None? {
      ParseClauses(more, argNum, rest);
    } else {
      ClausesAndSets(more, argNum + 1);
      if AnyPresent(more) {
        ParseClauses(more, argNum + 1, rest);
        var later := Clauses(more, argNum + 1);
        MoreClauses(f, argNum + 1, JoinComma(later) + rest, rest, Sets(more, argNum + 1));
        JoinFirst(Clause(f.column, argNum + 1), later, rest);
      } else {
        assert Clauses(fields, argNum) == [Clause(f.column, argNum + 1)];
        assert Sets(fields, argNum) == [(f.column, argNum + 1)];
        OneClause(f, argNum + 1, rest);
      }
    }
  }

  lemma ParseUpdate(sets: seq<(string, nat)>, body: string)
    requires ParseSets(body) == Some((sets, WHERE + "1"))
    ensures Parse(HEAD + body) == Some(Update(sets, 1))
  {
    assert (HEAD + body)[|HEAD|..] == body;
    assert (WHERE + "1")[|WHERE|..] == Decimal(1) + "";
    ParseDecimal(1, "");
  }

  /** The statement parses back to its assignments exactly when some field is present. */
  lemma ParseStatement(fields: seq<Field>)
    requires Legal(fields)
    ensures Parse(Statement(fields)) == if AnyPresent(fields) then Some(Update(Sets(fields, 1), 1)) else None
  {
    var rest := WHERE + "1";
    var body := JoinComma(Clauses(fields, 1)) + rest;
    assert Statement(fields) == HEAD + body;
    if AnyPresent(fields) {
      ParseClauses(fields, 1, rest);
      ParseUpdate(Sets(fields, 1), body);
    } else {
      ClausesAndSets(fields, 1);
      assert body == rest && Span(IsNameChar, rest) == 0;
      assert (HEAD + body)[|HEAD|..] == body;
    }
  }

  /** Each placeholder number points at its own argument, past the id in front. */
  lemma {:induction false} AssignIsDirect(fields: seq<Field>, args: seq<string>, argNum: nat, row: Row)
    requires argNum >= 1 && |args| == argNum + |Arguments(fields)|
    requires args[argNum..] == Arguments(fields)
    ensures Assign(Sets(fields, argNum), args, row) == Some(Direct(fields, row))
  {
    if fields != [] {
      var more := fields[1..];
      if fields[0].value.Some? {
        assert args[argNum] == Arguments(fields)[0] == fields[0].value.value;
        assert args[argNum + 1..] == Arguments(more);
        AssignIsDirect(more, args, argNum + 1, row[fields[0].column := fields[0].value.value]);
        assert Sets(fields, argNum)[1..] == Sets(more, argNum + 1);
      } else {
        AssignIsDirect(more, args, argNum, row);
      }
    }
  }

  /** Running the generated statement with its shifted arguments updates the row with the given id as
      intended and leaves every other row alone; it is a legal statement exactly when a field is present. */
  lemma StatementMeaning(fields: seq<Field>, id: string, table: map<string, Row>)
    requires Legal(fields)
    ensures Execute(Statement(fields), [id] + Arguments(fields), table) ==
            if !AnyPresent(fields) then None
            else Some(if id in table then table[id := Direct(fields, table[id])] else table)
  {
    ParseStatement(fields);
    var args := [id] + Arguments(fields);
    if AnyPresent(fields) && id in table {
      assert args[1..] == Arguments(fields);
      AssignIsDirect(fields, args, 1, table[id]);
    }
  }

  /** What `Direct` does to each column, for distinct columns. */
  lemma {:induction false} DirectColumn(fields: seq<Field>, row: Row, i: nat)
    requires i < |fields|
    requires forall j, k | 0 <= j < k < |fields| :: fields[j].column != fields[k].column
    requires fields[i].column in row
    ensures fields[i].column in Direct(fields, row)
    ensures Direct(fields, row)[fields[i].column] ==
            if fields[i].value.Some? then fields[i].value.value else row[fields[i].column]
  {
    var row' := if fields[0].value.Some? then row[fields[0].column := fields[0].value.value] else row;
    if i == 0 {
      DirectKeeps(fields[1..], row', fields[0].column);
    } else {
      DirectColumn(fields[1..], row', i - 1);
    }
  }

  lemma {:induction false} DirectKeeps(fields: seq<Field>, row: Row, column: string)
    requires column in row && forall f | f in fields :: f.column != column
    ensures column in Direct(fields, row) && Direct(fields, row)[column] == row[column]
  {
    if fields != [] {
      assert fields[0] in fields;
      DirectKeeps(fields[1..], if fields[0].value.Some? then row[fields[0].column := fields[0].value.value] else row,
          column);
    }
  }
}
