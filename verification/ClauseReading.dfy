/** Reading the generated SQL back: every clause says what it was set to. */
module ClauseReading {
  import opened Options
  import opened Strings
  import opened Clauses

  /** What a clause says. */
  datatype Reading =
    | Inserts(table: string, fields: seq<string>)
    | Valued(widths: seq<nat>)
    | Selects(table: string, fields: seq<string>)
    | Limits
    | Filters(desc: string)
    | Orders(desc: string)
    | Updating(table: string, columns: seq<string>)
    | Deletes(table: string)
    | Counts(table: string)
    | Unreadable

  function TypeOf(r: Reading): Option<Type> {
    match r
    case Inserts(_, _) => Some(INSERT)
    case Valued(_) => Some(VALUES)
    case Selects(_, _) => Some(SELECT)
    case Limits => Some(LIMIT)
    case Filters(_) => Some(WHERE)
    case Orders(_) => Some(ORDERBY)
    case Updating(_, _) => Some(UPDATE)
    case Deletes(_) => Some(DELETE)
    case Counts(_) => Some(COUNT)
    case Unreadable => None
  }

  // ---- the reader: it knows the words of SQL, and nothing of the generators ----

  /** What stands before the first c, or everything. */
  function Before(s: string, c: char): (r: string)
    ensures |r| <= |s| && (c in s ==> |r| < |s|)
  {
    if s == "" || s[0] == c then "" else [s[0]] + Before(s[1..], c)
  }

  /** What stands after the first c, or nothing. */
  function Beyond(s: string, c: char): (r: string)
    ensures |r| <= |s| && (s != "" ==> |r| < |s|)
  {
    if s == "" then "" else if s[0] == c then s[1..] else Beyond(s[1..], c)
  }

  function Rest(s: string, word: string): string
    requires word <= s
  {
    s[|word|..]
  }

  /** Names separated by commas. */
  function ReadNames(s: string): seq<string>
    decreases |s|
  {
    if s == "" then [] else [Before(s, ',')] + ReadNames(Beyond(s, ','))
  }

  /** Placeholders separated by a comma and a space. */
  function ReadMarks(s: string): Option<nat> {
    if s == "" then Some(0)
    else if s == "?" then Some(1)
    else if "?, " <= s && |s| > 3 then
      var more := ReadMarks(s[3..]);
      if more.Some? then Some(1 + more.value) else None
    else None
  }

  /** Groups of placeholders in parentheses, separated by a comma and a space. */
  function ReadRows(s: string): Option<seq<nat>>
    decreases |s|
  {
    if s == "" then Some([])
    else if s[0] != '(' || ')' !in s then None
    else
      var width, rest := ReadMarks(Before(s[1..], ')')), Beyond(s[1..], ')');
      if width.None? then None
      else if rest == "" then Some([width.value])
      else if ", " <= rest && |rest| > 2 then
        var more := ReadRows(rest[2..]);
        if more.Some? then Some([width.value] + more.value) else None
      else None
  }

  /** Columns that are set to placeholders, separated by a comma and a space. */
  function ReadColumns(s: string): Option<seq<string>>
    decreases |s|
  {
    if s == "" then Some([])
    else
      var column, rest := Before(s, ' '), Beyond(s, ' ');
      if rest == "= ?" then Some([column])
      else if "= ?, " <= rest && |rest| > 5 then
        var more := ReadColumns(rest[5..]);
        if more.Some? then Some([column] + more.value) else None
      else None
  }

  function ReadInsert(s: string): Reading {
    var table, rest := Before(s, ' '), Beyond(s, ' ');
    if |rest| >= 2 && rest[0] == '(' && rest[|rest| - 1] == ')'
    then Inserts(table, ReadNames(rest[1..|rest| - 1])) else Unreadable
  }

  function ReadSelect(s: string): Reading {
    var what, rest := Before(s, ' '), Beyond(s, ' ');
    if !("FROM " <= rest) then Unreadable
    else if what == "count(*)" then Counts(Rest(rest, "FROM "))
    else Selects(Rest(rest, "FROM "), ReadNames(what))
  }

  function ReadUpdate(s: string): Reading {
    var table, rest := Before(s, ' '), Beyond(s, ' ');
    if !("SET " <= rest) then Unreadable
    else
      var columns := ReadColumns(Rest(rest, "SET "));
      if columns.Some? then Updating(table, columns.value) else Unreadable
  }

  function ReadValues(s: string): Reading {
    var widths := ReadRows(s);
    if widths.Some? then Valued(widths.value) else Unreadable
  }

  /** The reading of what comes after the words. */
  function ReadAfter(sql: string, words: string, reading: string -> Reading): Reading {
    if words <= sql then reading(Rest(sql, words)) else Unreadable
  }

  /** The first letter tells the clauses apart. */
  function Read(sql: string): Reading {
    if sql == "" then Unreadable
    else
      match sql[0]
      case 'I' => ReadAfter(sql, "INSERT INTO ", ReadInsert)
      case 'V' => ReadAfter(sql, "VALUES ", ReadValues)
      case 'S' => ReadAfter(sql, "SELECT ", ReadSelect)
      case 'L' => if sql == "LIMIT ?" then Limits else Unreadable
      case 'W' => ReadAfter(sql, "WHERE ", desc => Filters(desc))
      case 'O' => ReadAfter(sql, "ORDER BY ", desc => Orders(desc))
      case 'U' => ReadAfter(sql, "UPDATE ", ReadUpdate)
      case 'D' => ReadAfter(sql, "DELETE FROM ", table => Deletes(table))
      case _ => Unreadable
  }

  // ---- reading what was joined ----

  /** A table, a field or a column as SQL has it without quotes. */
  predicate IsName(s: string) {
    s != "" && ' ' !in s && ',' !in s && '(' !in s && ')' !in s
  }

  lemma {:induction false} AtFirst(a: string, c: char, b: string)
    requires c !in a
    ensures Before(a + [c] + b, c) == a && Beyond(a + [c] + b, c) == b
    ensures Before(a, c) == a && Beyond(a, c) == ""
  {
    if a == "" {
      assert a + [c] + b == [c] + b;
    } else {
      AtFirst(a[1..], c, b);
      assert (a + [c] + b)[1..] == a[1..] + [c] + b;
      assert [a[0]] + a[1..] == a;
    }
  }

  lemma {:induction false} NamesReadBack(names: seq<string>)
    requires forall i :: 0 <= i < |names| ==> IsName(names[i])
    ensures ReadNames(Join(names, ",")) == names
    ensures ' ' !in Join(names, ",") && (names != [] ==> Join(names, ",") != "")
    ensures '(' !in Join(names, ",")
  {
    if names != [] {
      var rest := Join(names[1..], ",");
      NamesReadBack(names[1..]);
      AtFirst(names[0], ',', rest);
      assert [names[0]] + names[1..] == names;
      if |names| == 1 {
        assert ReadNames("") == [];
      } else {
        assert Join(names, ",") == names[0] + "," + rest;
      }
    }
  }

  lemma {:induction false} MarksReadBack(n: nat)
    ensures ReadMarks(Binds(n)) == Some(n) && (Binds(n) == "" <==> n == 0) && ')' !in Binds(n)
  {
    if n > 1 {
      MarksReadBack(n - 1);
      assert QuestionMarks(n)[1..] == QuestionMarks(n - 1);
      assert Binds(n) == "?" + ", " + Binds(n - 1);
      assert Binds(n)[3..] == Binds(n - 1);
    } else if n == 1 {
      assert Binds(1) == "?";
    }
  }

  /** The length of the first row that is not empty. */
  function FirstWidth<A>(rows: seq<seq<A>>): nat {
    if rows == [] then 0 else if rows[0] != [] then |rows[0]| else FirstWidth(rows[1..])
  }

  /** The text begins with a group of placeholders in parentheses. */
  predicate BeginsWithRow(text: string, binds: string, after: string) {
    && text != "" && text[0] == '(' && ')' in text
    && Before(text[1..], ')') == binds && Beyond(text[1..], ')') == after
  }

  lemma RowBegins(text: string, binds: string, after: string)
    requires ')' !in binds && text == ['('] + binds + [')'] + after
    ensures BeginsWithRow(text, binds, after)
  {
    assert text[1..] == binds + [')'] + after;
    AtFirst(binds, ')', after);
    assert text[1 + |binds|] == ')';
  }

  lemma LastRowReads(text: string, width: nat)
    requires BeginsWithRow(text, Binds(width), "")
    ensures ReadRows(text) == Some([width])
  {
    MarksReadBack(width);
  }

  /** One row before the others. */
  lemma RowReads(text: string, width: nat, rest: string, after: string)
    requires BeginsWithRow(text, Binds(width), after) && after == ", " + rest
    requires rest != "" && ReadRows(rest).Some?
    ensures ReadRows(text) == Some([width] + ReadRows(rest).value)
  {
    MarksReadBack(width);
    assert after[2..] == rest && ", " <= after;
  }

  lemma FirstRowText<A>(rows: seq<seq<A>>, w: nat, w': nat)
    requires rows != [] && RowBind(rows[0], Binds(w)) == Binds(w')
    ensures RowTexts(rows, Binds(w)) == [['('] + Binds(w') + [')']] + RowTexts(rows[1..], Binds(w'))
  {
    assert "(" + Binds(w') + ")" == ['('] + Binds(w') + [')'];
  }

  lemma TwoTexts(row: string, texts: seq<string>)
    ensures Join([row] + texts, ", ") == row + (if texts == [] then "" else ", " + Join(texts, ", "))
  {
    JoinCons(row, texts, ", ");
    if texts == [] {
      assert row + "" + "" == row + "";
    } else {
      assert row + ", " + Join(texts, ", ") == row + (", " + Join(texts, ", "));
    }
  }

  /** The text of the first row, and of the others. */
  lemma RowsText<A>(rows: seq<seq<A>>, w: nat, w': nat, rest: string)
    requires rows != [] && RowBind(rows[0], Binds(w)) == Binds(w') && rest == Join(RowTexts(rows[1..], Binds(w')), ", ")
    ensures Join(RowTexts(rows, Binds(w)), ", ")
         == ['('] + Binds(w') + [')'] + (if |rows| > 1 then ", " + rest else "")
  {
    FirstRowText(rows, w, w');
    TwoTexts(['('] + Binds(w') + [')'], RowTexts(rows[1..], Binds(w')));
  }

  lemma NextRowReads(text: string, more: bool, width: nat, rest: string)
    requires text == ['('] + Binds(width) + [')'] + (if more then ", " + rest else "")
    requires (more <==> rest != "") && ReadRows(rest).Some?
    ensures ReadRows(text) == Some([width] + ReadRows(rest).value) && text != ""
  {
    MarksReadBack(width);
    var after := if more then ", " + rest else "";
    RowBegins(text, Binds(width), after);
    if more {
      RowReads(text, width, rest, after);
    } else {
      LastRowReads(text, width);
      EmptyReads();
      assert [width] + [] == [width];
    }
  }

  lemma FirstWidths<A>(rows: seq<seq<A>>, w: nat, w': nat, rest: seq<nat>)
    requires rows != [] && w' == (if w == 0 then |rows[0]| else w) && |rest| == |rows| - 1
    requires forall i :: 0 <= i < |rest| ==> rest[i] == if w' > 0 then w' else FirstWidth(rows[1..][..i + 1])
    ensures var widths := [w'] + rest;
            forall i :: 0 <= i < |rows| ==> widths[i] == if w > 0 then w else FirstWidth(rows[..i + 1])
  {
    var widths := [w'] + rest;
    forall i | 0 <= i < |rows| ensures widths[i] == if w > 0 then w else FirstWidth(rows[..i + 1]) {
      assert rows[..i + 1][1..] == rows[1..][..i];
    }
  }

  /** Every row has as many placeholders as the first row up to there that is not empty has values; w is what earlier
      rows have fixed. */
  lemma {:induction false} RowsReadBack<A>(rows: seq<seq<A>>, w: nat) returns (widths: seq<nat>)
    ensures ReadRows(Join(RowTexts(rows, Binds(w)), ", ")) == Some(widths) && |widths| == |rows|
    ensures forall i :: 0 <= i < |rows| ==> widths[i] == if w > 0 then w else FirstWidth(rows[..i + 1])
    ensures rows != [] <==> Join(RowTexts(rows, Binds(w)), ", ") != ""
  {
    if rows == [] {
      widths := [];
      EmptyReads();
    } else {
      var w' := if w == 0 then |rows[0]| else w;
      var widths' := RowsReadBack(rows[1..], w');
      widths := [w'] + widths';
      MarksReadBack(w);
      var rest := Join(RowTexts(rows[1..], Binds(w')), ", ");
      RowsText(rows, w, w', rest);
      NextRowReads(Join(RowTexts(rows, Binds(w)), ", "), |rows| > 1, w', rest);
      FirstWidths(rows, w, w', widths');
    }
  }

  lemma EmptyReads()
    ensures ReadRows("") == Some([]) && ReadColumns("") == Some([])
  {
  }

  lemma LastColumnReads(column: string)
    requires IsName(column)
    ensures ReadColumns(column + " = ?") == Some([column])
  {
    AtFirst(column, ' ', "= ?");
    assert column + " = ?" == column + [' '] + "= ?";
  }

  /** One column before the others. */
  lemma ColumnReads(column: string, rest: string)
    requires IsName(column) && rest != "" && ReadColumns(rest).Some?
    ensures ReadColumns(column + " = ?" + ", " + rest) == Some([column] + ReadColumns(rest).value)
  {
    AtFirst(column, ' ', "= ?, " + rest);
    assert column + " = ?" + ", " + rest == column + [' '] + ("= ?, " + rest);
    assert ("= ?, " + rest)[5..] == rest;
  }

  lemma {:induction false} ColumnsReadBack(order: seq<string>)
    requires forall i :: 0 <= i < |order| ==> IsName(order[i])
    ensures ReadColumns(Join(Assignments(order), ", ")) == Some(order)
    ensures order != [] <==> Join(Assignments(order), ", ") != ""
  {
    if order != [] {
      var rest := Join(Assignments(order[1..]), ", ");
      ColumnsReadBack(order[1..]);
      assert Assignments(order) == [order[0] + " = ?"] + Assignments(order[1..]);
      JoinCons(order[0] + " = ?", Assignments(order[1..]), ", ");
      NextColumnReads(order, rest);
    }
  }

  lemma NextColumnReads(order: seq<string>, rest: string)
    requires order != [] && IsName(order[0]) && ReadColumns(rest) == Some(order[1..]) && (rest != "" <==> |order| > 1)
    ensures ReadColumns(order[0] + " = ?" + (if |order| == 1 then "" else ", ") + rest) == Some(order)
  {
    assert [order[0]] + order[1..] == order;
    if |order| == 1 {
      LastColumnReads(order[0]);
      assert order[0] + " = ?" + "" + rest == order[0] + " = ?" && order == [order[0]];
    } else {
      ColumnReads(order[0], rest);
    }
  }

  // ---- the nine generators ----

  /** Tables, fields and columns are plain names. */
  predicate HasNames<A>(input: Input<A>) {
    match input
    case Insert(table, fields) => IsName(table) && forall i :: 0 <= i < |fields| ==> IsName(fields[i])
    case Select(table, fields) => forall i :: 0 <= i < |fields| ==> IsName(fields[i])
    case Update(table, columns) => IsName(table) && forall k :: k in columns ==> IsName(k)
    case _ => true
  }

  /** The reading, and the arguments that go with it, are those of the input. */
  ghost predicate Says<A>(input: Input<A>, r: Reading, vars: seq<A>) {
    match input
    case Insert(table, fields) => r == Inserts(table, fields) && vars == []
    case Values(rows) =>
      && r.Valued? && vars == Flat(rows) && |r.widths| == |rows|
      && forall i :: 0 <= i < |rows| ==> r.widths[i] == FirstWidth(rows[..i + 1])
    case Select(table, fields) => r == Selects(table, fields) && vars == []
    case Limit(args) => r == Limits && vars == args
    case Where(desc, args) => r == Filters(desc) && vars == args
    case OrderBy(desc) => r == Orders(desc) && vars == []
    case Update(table, columns) =>
      r.Updating? && r.table == table && IsOrder(r.columns, columns) && Paired(r.columns, columns, vars)
    case Delete(table) => r == Deletes(table) && vars == []
    case Count(table) => r == Counts(table) && vars == []
  }

  lemma ReadsOn(words: string, s: string, reading: string -> Reading)
    requires words != ""
    ensures ReadAfter(words + s, words, reading) == reading(s)
    ensures words + s != "" && (words + s)[0] == words[0]
  {
    assert (words + s)[|words|..] == s;
  }

  /** A blank at the end of one text, or at the beginning of the next. */
  lemma Blank(words: string, a: string, b: string, b': string, c: string)
    requires b == " " + b'
    ensures words + a + b + c == words + (a + [' '] + (b' + c))
  {
    assert a + b + c == a + [' '] + (b' + c);
    assert words + a + b + c == words + (a + b + c);
  }

  lemma InsertReads(table: string, names: string)
    requires IsName(table)
    ensures ReadInsert(table + [' '] + ("(" + names + ")")) == Inserts(table, ReadNames(names))
  {
    var rest := "(" + names + ")";
    AtFirst(table, ' ', rest);
    assert rest[1..|rest| - 1] == names;
  }

  lemma InsertReadsBack(table: string, fields: seq<string>)
    requires IsName(table) && forall i :: 0 <= i < |fields| ==> IsName(fields[i])
    ensures Read(InsertText(table, fields)) == Inserts(table, fields)
  {
    var names := Join(fields, ",");
    NamesReadBack(fields);
    InsertReads(table, names);
    Blank("INSERT INTO ", table, " (", "(", names + ")");
    ReadsOn("INSERT INTO ", table + [' '] + ("(" + (names + ")")), ReadInsert);
    assert "(" + (names + ")") == "(" + names + ")";
    assert InsertText(table, fields) == "INSERT INTO " + table + " (" + (names + ")");
  }

  lemma SelectReads(table: string, what: string)
    requires ' ' !in what
    ensures ReadSelect(what + [' '] + ("FROM " + table))
         == if what == "count(*)" then Counts(table) else Selects(table, ReadNames(what))
  {
    AtFirst(what, ' ', "FROM " + table);
    assert Rest("FROM " + table, "FROM ") == table;
  }

  lemma FromBlank()
    ensures " FROM " == " " + "FROM "
  {
  }

  lemma SelectReadsBack(table: string, what: string)
    requires ' ' !in what
    ensures Read("SELECT " + what + " FROM " + table)
         == if what == "count(*)" then Counts(table) else Selects(table, ReadNames(what))
  {
    SelectReads(table, what);
    FromBlank();
    Blank("SELECT ", what, " FROM ", "FROM ", table);
    ReadsOn("SELECT ", what + [' '] + ("FROM " + table), ReadSelect);
  }

  lemma SelectNamesReadBack(table: string, fields: seq<string>)
    requires forall i :: 0 <= i < |fields| ==> IsName(fields[i])
    ensures Read(SelectText(table, fields)) == Selects(table, fields)
  {
    NamesReadBack(fields);
    assert "count(*)"[5] == '(';
    SelectReadsBack(table, Join(fields, ","));
  }

  lemma UpdateReads(table: string, columns: string)
    requires IsName(table) && ReadColumns(columns).Some?
    ensures ReadUpdate(table + [' '] + ("SET " + columns)) == Updating(table, ReadColumns(columns).value)
  {
    AtFirst(table, ' ', "SET " + columns);
    assert Rest("SET " + columns, "SET ") == columns;
  }

  lemma UpdateReadsBack(table: string, order: seq<string>)
    requires IsName(table) && forall i :: 0 <= i < |order| ==> IsName(order[i])
    ensures Read(UpdateText(table, order)) == Updating(table, order)
  {
    var columns := Join(Assignments(order), ", ");
    ColumnsReadBack(order);
    UpdateReads(table, columns);
    Blank("UPDATE ", table, " SET ", "SET ", columns);
    ReadsOn("UPDATE ", table + [' '] + ("SET " + columns), ReadUpdate);
  }

  lemma ValuesReadBack<A>(rows: seq<seq<A>>) returns (widths: seq<nat>)
    ensures Read(ValuesText(rows)) == Valued(widths) && |widths| == |rows|
    ensures forall i :: 0 <= i < |rows| ==> widths[i] == FirstWidth(rows[..i + 1])
  {
    MarksReadBack(0);
    widths := RowsReadBack(rows, 0);
    ReadsOn("VALUES ", Join(RowTexts(rows, ""), ", "), ReadValues);
  }

  lemma CountReadsBack(table: string)
    ensures Read(SelectText(table, ["count(*)"])) == Counts(table)
  {
    assert Join(["count(*)"], ",") == "count(*)";
    SelectReadsBack(table, "count(*)");
  }

  lemma LimitReadsBack()
    ensures Read("LIMIT ?") == Limits
  {
    assert "LIMIT ?"[0] == 'L';
  }

  lemma OthersReadBack(s: string)
    ensures Read("WHERE " + s) == Filters(s) && Read("ORDER BY " + s) == Orders(s)
    ensures Read("DELETE FROM " + s) == Deletes(s)
  {
    ReadsOn("WHERE ", s, desc => Filters(desc));
    ReadsOn("ORDER BY ", s, desc => Orders(desc));
    ReadsOn("DELETE FROM ", s, table => Deletes(table));
  }

  lemma UpdateSays<A>(table: string, columns: map<string, A>, sql: string, vars: seq<A>)
    requires Generates(Update(table, columns), sql, vars) && HasNames(Update(table, columns))
    ensures Says(Update(table, columns), Read(sql), vars)
  {
    var order :| IsOrder(order, columns) && Paired(order, columns, vars) && sql == UpdateText(table, order);
    assert forall i :: 0 <= i < |order| ==> order[i] in order;
    UpdateReadsBack(table, order);
  }

  lemma ValuesSay<A>(rows: seq<seq<A>>)
    ensures Says(Values(rows), Read(ValuesText(rows)), Flat(rows))
  {
    var widths := ValuesReadBack(rows);
  }

  /** A clause that says what it was set to is of that type. */
  lemma SaysType<A>(input: Input<A>, r: Reading, vars: seq<A>)
    requires Says(input, r, vars)
    ensures TypeOf(r) == Some(input.Name())
  {
  }

  /** Whatever a generator produces reads as what it was given, by a reader of its own: the kind of clause, the table,
      the fields or columns in order with the arguments of each, the description, and the placeholders of each row. */
  lemma ReadsBack<A>(input: Input<A>, sql: string, vars: seq<A>)
    requires Generates(input, sql, vars) && HasNames(input)
    ensures Says(input, Read(sql), vars) && TypeOf(Read(sql)) == Some(input.Name())
  {
    match input {
      case Insert(table, fields) => InsertReadsBack(table, fields);
      case Values(rows) => ValuesSay(rows);
      case Select(table, fields) => SelectNamesReadBack(table, fields);
      case Limit(args) => LimitReadsBack();
      case Where(desc, args) => OthersReadBack(desc);
      case OrderBy(desc) => OthersReadBack(desc);
      case Update(table, columns) => UpdateSays(table, columns, sql, vars);
      case Delete(table) => OthersReadBack(table);
      case Count(table) => CountReadsBack(table);
    }
    SaysType(input, Read(sql), vars);
  }
}
