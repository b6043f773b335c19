/** The SQL clause builder (psygo/orm/clause/generator.go, clause.go). */
module Clauses {
  import opened Strings

  datatype Type = INSERT | VALUES | SELECT | LIMIT | WHERE | ORDERBY | UPDATE | DELETE | COUNT

  /** What Set is given, for each type. */
  datatype Input<A> =
    | Insert(table: string, fields: seq<string>)
    | Values(rows: seq<seq<A>>)
    | Select(table: string, fields: seq<string>)
    | Limit(args: seq<A>)
    | Where(desc: string, args: seq<A>)
    | OrderBy(desc: string)
    | Update(table: string, columns: map<string, A>)
    | Delete(table: string)
    | Count(table: string)
  {
    function Name(): Type {
      match this
      case Insert(_, _) => INSERT
      case Values(_) => VALUES
      case Select(_, _) => SELECT
      case Limit(_) => LIMIT
      case Where(_, _) => WHERE
      case OrderBy(_) => ORDERBY
      case Update(_, _) => UPDATE
      case Delete(_) => DELETE
      case Count(_) => COUNT
    }
  }

  // ---- VALUES ----

  function QuestionMarks(n: nat): (r: seq<string>)
    ensures |r| == n
  {
    seq(n, _ => "?")
  }

  function Binds(n: nat): string {
    Join(QuestionMarks(n), ", ")
  }

  method GenBindVars(num: nat) returns (r: string)
    ensures r == Binds(num)
  {
    var vars: seq<string> := [];
    for i := 0 to num
      invariant vars == QuestionMarks(i)
    {
      vars := vars + ["?"];
    }
    r := Join(vars, ", ");
  }

  /** The placeholders of a row: those used so far, unless there are none yet. */
  function RowBind<A>(row: seq<A>, bind: string): string {
    if bind == "" then Binds(|row|) else bind
  }

  /** The text of each row: all rows from the first non-empty one on get the placeholders of that one. */
  function RowTexts<A>(rows: seq<seq<A>>, bind: string): (r: seq<string>)
    ensures |r| == |rows|
  {
    if rows == [] then []
    else
      var b := RowBind(rows[0], bind);
      ["(" + b + ")"] + RowTexts(rows[1..], b)
  }

  function ValuesText<A>(rows: seq<seq<A>>): string {
    "VALUES " + Join(RowTexts(rows, ""), ", ")
  }

  /** Writing one row and the separator after it leaves the rest to be joined; its values leave the rest to follow. */
  lemma NextRow<A>(rows: seq<seq<A>>, i: nat, bind: string)
    requires i < |rows|
    ensures Join(RowTexts(rows[i..], bind), ", ")
         == ("(" + RowBind(rows[i], bind) + ")") + (if i + 1 == |rows| then "" else ", ")
            + Join(RowTexts(rows[i + 1..], RowBind(rows[i], bind)), ", ")
    ensures Flat(rows[i..]) == rows[i] + Flat(rows[i + 1..])
  {
    var b := RowBind(rows[i], bind);
    assert rows[i..][1..] == rows[i + 1..];
    JoinCons("(" + b + ")", RowTexts(rows[i + 1..], b), ", ");
  }

  lemma Regroup<B>(a: seq<B>, b: seq<B>, c: seq<B>, d: seq<B>)
    ensures a + (b + c + d) == a + b + c + d
    ensures c == [] ==> a + (b + d) == a + b + d && a + b + c == a + b
  {
  }

  lemma JoinCons(item: string, rest: seq<string>, separator: string)
    ensures Join([item] + rest, separator)
         == item + (if rest == [] then "" else separator) + Join(rest, separator)
  {
    assert ([item] + rest)[1..] == rest;
  }

  method GenValues<A>(rows: seq<seq<A>>) returns (sql: string, vars: seq<A>)
    ensures sql == ValuesText(rows) && vars == Flat(rows)
  {
    var bindStr := "";
    sql, vars := "VALUES ", [];
    for i := 0 to |rows|
      invariant sql + Join(RowTexts(rows[i..], bindStr), ", ") == ValuesText(rows)
      invariant vars + Flat(rows[i..]) == Flat(rows)
    {
      var v := rows[i];
      NextRow(rows, i, bindStr);
      if bindStr == "" {
        bindStr := GenBindVars(|v|);
      }
      Regroup(sql, "(" + bindStr + ")", if i + 1 == |rows| then "" else ", ",
              Join(RowTexts(rows[i + 1..], bindStr), ", "));
      Regroup(vars, v, [], Flat(rows[i + 1..]));
      sql := sql + ("(" + bindStr + ")");
      if i + 1 != |rows| {
        sql := sql + ", ";
      }
      vars := vars + v;
    }
  }

  // ---- UPDATE ----

  /** The keys of the map, in the order in which the range loop happens to visit them. */
  ghost predicate IsOrder<A>(order: seq<string>, columns: map<string, A>) {
    && |order| == |columns|
    && (forall k :: k in order <==> k in columns)
    && (forall i, j :: 0 <= i < j < |order| ==> order[i] != order[j])
  }

  function Assignments(order: seq<string>): (r: seq<string>)
    ensures |r| == |order| && forall i :: 0 <= i < |order| ==> r[i] == order[i] + " = ?"
  {
    seq(|order|, i requires 0 <= i < |order| => order[i] + " = ?")
  }

  /** The arguments go with the keys. */
  ghost predicate Paired<A>(order: seq<string>, columns: map<string, A>, vars: seq<A>) {
    |vars| == |order| && forall i :: 0 <= i < |order| ==> order[i] in columns && vars[i] == columns[order[i]]
  }

  function UpdateText(table: string, order: seq<string>): string {
    "UPDATE " + table + " SET " + Join(Assignments(order), ", ")
  }

  /** The text and the arguments go through the same keys in the same order. */
  ghost predicate Updates<A>(table: string, columns: map<string, A>, sql: string, vars: seq<A>) {
    exists order :: IsOrder(order, columns) && Paired(order, columns, vars) && sql == UpdateText(table, order)
  }

  method GenUpdate<A>(table: string, columns: map<string, A>) returns (sql: string, vars: seq<A>)
    ensures Updates(table, columns, sql, vars)
  {
    var keys: seq<string> := [];
    var left := columns.Keys;
    ghost var order: seq<string> := [];
    vars := [];
    while left != {}
      invariant left <= columns.Keys && |order| + |left| == |columns.Keys|
      invariant forall k :: k in columns <==> k in order || k in left
      invariant forall k :: k in order ==> k !in left
      invariant forall i, j :: 0 <= i < j < |order| ==> order[i] != order[j]
      invariant keys == Assignments(order) && Paired(order, columns, vars)
      decreases left
    {
      var k :| k in left;
      left := left - {k};
      keys, vars, order := keys + [k + " = ?"], vars + [columns[k]], order + [k];
    }
    sql := "UPDATE " + table + " SET " + Join(keys, ", ");
  }

  // ---- the other generators ----

  function InsertText(table: string, fields: seq<string>): string {
    "INSERT INTO " + table + " (" + Join(fields, ",") + ")"
  }

  function SelectText(table: string, fields: seq<string>): string {
    "SELECT " + Join(fields, ",") + " FROM " + table
  }

  /** What the generator of the input's type may produce. */
  ghost predicate Generates<A>(input: Input<A>, sql: string, vars: seq<A>) {
    match input
    case Insert(table, fields) => sql == InsertText(table, fields) && vars == []
    case Values(rows) => sql == ValuesText(rows) && vars == Flat(rows)
    case Select(table, fields) => sql == SelectText(table, fields) && vars == []
    case Limit(args) => sql == "LIMIT ?" && vars == args
    case Where(desc, args) => sql == "WHERE " + desc && vars == args
    case OrderBy(desc) => sql == "ORDER BY " + desc && vars == []
    case Update(table, columns) => Updates(table, columns, sql, vars)
    case Delete(table) => sql == "DELETE FROM " + table && vars == []
    case Count(table) => sql == SelectText(table, ["count(*)"]) && vars == []
  }

  method Generate<A>(input: Input<A>) returns (sql: string, vars: seq<A>)
    ensures Generates(input, sql, vars)
  {
    match input {
      case Insert(table, fields) => sql, vars := InsertText(table, fields), [];
      case Values(rows) => sql, vars := GenValues(rows);
      case Select(table, fields) => sql, vars := SelectText(table, fields), [];
      case Limit(args) => sql, vars := "LIMIT ?", args;
      case Where(desc, args) => sql, vars := "WHERE " + desc, args;
      case OrderBy(desc) => sql, vars := "ORDER BY " + desc, [];
      case Update(table, columns) => sql, vars := GenUpdate(table, columns);
      case Delete(table) => sql, vars := "DELETE FROM " + table, [];
      case Count(table) => sql, vars := SelectText(table, ["count(*)"]), [];
    }
  }

  // ---- Clause ----

  /** The texts, or the arguments, of these clauses. */
  function Look<B>(m: map<Type, B>, names: seq<Type>): (r: seq<B>)
    requires forall i :: 0 <= i < |names| ==> names[i] in m
    ensures |r| == |names| && forall i :: 0 <= i < |names| ==> r[i] == m[names[i]]
  {
    seq(|names|, i requires 0 <= i < |names| => m[names[i]])
  }

  lemma LookMore<B>(m: map<Type, B>, names: seq<Type>, t: Type)
    requires t in m && forall i :: 0 <= i < |names| ==> names[i] in m
    ensures Look(m, names + [t]) == Look(m, names) + [m[t]]
  {
  }

  /** The types asked for that have been set. */
  function Chosen(orders: seq<Type>, have: set<Type>): (r: seq<Type>)
    ensures forall i :: 0 <= i < |r| ==> r[i] in have
  {
    if orders == [] then []
    else (if orders[0] in have then [orders[0]] else []) + Chosen(orders[1..], have)
  }

  /** The types asked for are gone through in order, and each one counts if it has been set. */
  lemma {:induction false} ChosenInOrder(orders: seq<Type>, t: Type, have: set<Type>)
    ensures Chosen([], have) == []
    ensures Chosen(orders + [t], have) == Chosen(orders, have) + if t in have then [t] else []
  {
    if orders != [] {
      assert (orders + [t])[1..] == orders[1..] + [t];
      ChosenInOrder(orders[1..], t, have);
    }
  }

  /** The loop of Build. */
  method BuildFrom<A>(sql: map<Type, string>, sqlVars: map<Type, seq<A>>, orders: seq<Type>)
    returns (text: string, vars: seq<A>)
    requires sql.Keys == sqlVars.Keys
    ensures var chosen := Chosen(orders, sql.Keys);
            text == Join(Look(sql, chosen), " ") && vars == Flat(Look(sqlVars, chosen))
  {
    var sqls: seq<string> := [];
    vars := [];
    ghost var names: seq<Type> := [];
    for i := 0 to |orders|
      invariant names + Chosen(orders[i..], sql.Keys) == Chosen(orders, sql.Keys)
      invariant forall k :: 0 <= k < |names| ==> names[k] in sql
      invariant sqls == Look(sql, names) && vars == Flat(Look(sqlVars, names))
    {
      assert orders[i..][1..] == orders[i + 1..];
      var order := orders[i];
      if order in sql {
        LookMore(sql, names, order);
        LookMore(sqlVars, names, order);
        FlatAppend(Look(sqlVars, names), [sqlVars[order]]);
        FlatOne(sqlVars[order]);
        sqls := sqls + [sql[order]];
        vars := vars + sqlVars[order];
        names := names + [order];
      }
    }
    assert names == Chosen(orders, sql.Keys) by {
      assert Chosen(orders[|orders|..], sql.Keys) == [];
    }
    text := Join(sqls, " ");
  }

  class Clause<A> {
    var sql: map<Type, string>
    var sqlVars: map<Type, seq<A>>

    /** What each type was last set to. */
    ghost var inputs: map<Type, Input<A>>

    ghost predicate Valid()
      reads this
    {
      && sql.Keys == sqlVars.Keys == inputs.Keys
      && forall t :: t in inputs ==> inputs[t].Name() == t && Generates(inputs[t], sql[t], sqlVars[t])
    }

    constructor ()
      ensures Valid() && inputs == map[]
    {
      sql, sqlVars, inputs := map[], map[], map[];
    }

    method Set(input: Input<A>)
      requires Valid()
      modifies this
      ensures Valid() && inputs == old(inputs)[input.Name() := input]
    {
      var text, vars := Generate(input);
      sql, sqlVars := sql[input.Name() := text], sqlVars[input.Name() := vars];
      inputs := inputs[input.Name() := input];
    }

    method Build(orders: seq<Type>) returns (text: string, vars: seq<A>)
      requires Valid()
      ensures var chosen := Chosen(orders, inputs.Keys);
              text == Join(Look(sql, chosen), " ") && vars == Flat(Look(sqlVars, chosen))
    {
      text, vars := BuildFrom(sql, sqlVars, orders);
    }
  }
}
