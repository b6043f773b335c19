/** When the placeholders of the SQL go with the arguments. */
module ClauseAlignment {
  import opened Strings
  import opened Clauses

  /** The number of placeholders that VALUES writes, when w are written for each row so far (0 for none yet). */
  function TotalBinds<A>(rows: seq<seq<A>>, w: nat): nat {
    if rows == [] then 0
    else
      var w' := if w == 0 then |rows[0]| else w;
      w' + TotalBinds(rows[1..], w')
  }

  /** The input asks for as many arguments as it brings: what a caller has to see to. */
  predicate Fits<A>(input: Input<A>) {
    match input
    case Insert(table, fields) => Plain(table) && forall i :: 0 <= i < |fields| ==> Plain(fields[i])
    case Values(rows) => TotalBinds(rows, 0) == |Flat(rows)|
    case Select(table, fields) => Plain(table) && forall i :: 0 <= i < |fields| ==> Plain(fields[i])
    case Limit(args) => |args| == 1
    case Where(desc, args) => Holes(desc) == |args|
    case OrderBy(desc) => Plain(desc)
    case Update(table, columns) => Plain(table) && forall k :: k in columns ==> Plain(k)
    case Delete(table) => Plain(table)
    case Count(table) => Plain(table)
  }

  // ---- counting placeholders ----

  lemma {:induction false} HolesOfMarks(n: nat)
    ensures SumHoles(QuestionMarks(n)) == n
  {
    if n > 0 {
      assert QuestionMarks(n)[1..] == QuestionMarks(n - 1);
      assert Holes("?") == 1;
      HolesOfMarks(n - 1);
    }
  }

  lemma HolesOfBinds(n: nat)
    ensures Holes(Binds(n)) == n && (Binds(n) == "" <==> n == 0)
  {
    HolesOfMarks(n);
    HolesOfJoin(QuestionMarks(n), ", ");
  }

  lemma {:induction false} HolesOfRows<A>(rows: seq<seq<A>>, w: nat)
    ensures SumHoles(RowTexts(rows, Binds(w))) == TotalBinds(rows, w)
  {
    if rows != [] {
      var w' := if w == 0 then |rows[0]| else w;
      HolesOfBinds(w);
      HolesOfBinds(w');
      HolesOfRows(rows[1..], w');
      var texts := RowTexts(rows, Binds(w));
      assert texts[0] == "(" + Binds(w') + ")" && texts[1..] == RowTexts(rows[1..], Binds(w'));
      HolesBetween("(", Binds(w'), ")");
    }
  }

  lemma HolesOfValues<A>(rows: seq<seq<A>>)
    ensures Holes(ValuesText(rows)) == TotalBinds(rows, 0)
  {
    HolesOfBinds(0);
    HolesOfRows(rows, 0);
    HolesOfJoin(RowTexts(rows, ""), ", ");
    PlainHasNone("VALUES ");
    HolesAdd("VALUES ", Join(RowTexts(rows, ""), ", "));
  }

  lemma AssignmentMark()
    ensures Holes(" = ?") == 1
  {
    PlainHasNone(" = ");
    HolesAdd(" = ", "?");
    assert " = " + "?" == " = ?" && Holes("?") == 1;
  }

  lemma {:induction false} HolesOfAssignments(order: seq<string>)
    ensures SumHoles(Assignments(order)) == |order| + SumHoles(order)
  {
    if order != [] {
      assert Assignments(order)[1..] == Assignments(order[1..]);
      HolesOfAssignments(order[1..]);
      HolesAdd(order[0], " = ?");
      AssignmentMark();
    }
  }

  lemma HolesOfUpdate(table: string, order: seq<string>)
    ensures Holes(UpdateText(table, order)) == Holes(table) + |order| + SumHoles(order)
  {
    HolesOfAssignments(order);
    HolesOfJoin(Assignments(order), ", ");
    HolesBetween("UPDATE ", table, " SET ");
    HolesAdd("UPDATE " + table + " SET ", Join(Assignments(order), ", "));
  }

  /** A text with a table's name and a list of fields, and fixed texts around them. */
  lemma HolesOfNames(a: string, table: string, b: string, fields: seq<string>, c: string)
    requires Plain(a) && Plain(b) && Plain(c)
    ensures Holes(a + table + b + Join(fields, ",") + c) == Holes(table) + SumHoles(fields)
  {
    HolesBetween(a, table, b);
    HolesAdd(a + table + b, Join(fields, ","));
    HolesOfJoin(fields, ",");
    PlainHasNone(c);
    HolesAdd(a + table + b + Join(fields, ","), c);
  }

  lemma HolesOfInsert(table: string, fields: seq<string>)
    ensures Holes(InsertText(table, fields)) == Holes(table) + SumHoles(fields)
  {
    HolesOfNames("INSERT INTO ", table, " (", fields, ")");
  }

  lemma HolesOfSelect(table: string, fields: seq<string>)
    ensures Holes(SelectText(table, fields)) == SumHoles(fields) + Holes(table)
  {
    HolesOfJoin(fields, ",");
    HolesBetween("SELECT ", Join(fields, ","), " FROM ");
    HolesAdd("SELECT " + Join(fields, ",") + " FROM ", table);
  }

  lemma HolesAfter(a: string, s: string)
    requires Plain(a)
    ensures Holes(a + s) == Holes(s)
  {
    PlainHasNone(a);
    HolesAdd(a, s);
  }

  /** The clauses that only name tables and columns. */
  lemma NamesFitIffPlain(table: string, fields: seq<string>)
    ensures Holes(InsertText(table, fields)) == 0
       <==> Plain(table) && forall i :: 0 <= i < |fields| ==> Plain(fields[i])
    ensures Holes(SelectText(table, fields)) == 0
       <==> Plain(table) && forall i :: 0 <= i < |fields| ==> Plain(fields[i])
    ensures Holes("DELETE FROM " + table) == 0 <==> Plain(table)
    ensures Holes("ORDER BY " + table) == 0 <==> Plain(table)
  {
    HolesOfInsert(table, fields);
    HolesOfSelect(table, fields);
    HolesAfter("DELETE FROM ", table);
    HolesAfter("ORDER BY ", table);
    PlainHasNone(table);
    PlainItems(fields);
  }

  lemma LimitMark()
    ensures Holes("LIMIT ?") == 1
  {
    assert "LIMIT ?" == "LIMIT " + "?" && Holes("?") == 1;
    HolesAfter("LIMIT ", "?");
  }

  /** A generated clause has as many placeholders as arguments if and only if its input fits. */
  lemma BalancedIffFits<A>(input: Input<A>, sql: string, vars: seq<A>)
    requires Generates(input, sql, vars)
    ensures Holes(sql) == |vars| <==> Fits(input)
  {
    match input
    case Insert(table, fields) => NamesFitIffPlain(table, fields);
    case Values(rows) => HolesOfValues(rows);
    case Select(table, fields) => NamesFitIffPlain(table, fields);
    case Limit(args) => LimitMark();
    case Where(desc, args) => HolesAfter("WHERE ", desc);
    case OrderBy(desc) => NamesFitIffPlain(desc, []);
    case Update(table, columns) => UpdateBalancedIffFits(table, columns, sql, vars);
    case Delete(table) => NamesFitIffPlain(table, []);
    case Count(table) => NamesFitIffPlain(table, ["count(*)"]);
  }

  lemma UpdateBalancedIffFits<A>(table: string, columns: map<string, A>, sql: string, vars: seq<A>)
    requires Generates(Update(table, columns), sql, vars)
    ensures Holes(sql) == |vars| <==> Fits(Update(table, columns))
  {
    var order :| IsOrder(order, columns) && Paired(order, columns, vars) && sql == UpdateText(table, order);
    HolesOfUpdate(table, order);
    PlainHasNone(table);
    PlainItems(order);
    assert forall i :: 0 <= i < |order| ==> order[i] in order;
  }

  // ---- Build ----

  /** At every boundary between clauses there have been as many placeholders as arguments. */
  ghost predicate AlignedAtBoundaries<A>(texts: seq<string>, args: seq<seq<A>>)
    requires |texts| == |args|
  {
    forall j :: 0 <= j <= |texts| ==> Holes(Join(texts[..j], " ")) == |Flat(args[..j])|
  }

  lemma BoundaryGrows<A>(texts: seq<string>, args: seq<seq<A>>, j: nat)
    requires |texts| == |args| && j < |texts|
    ensures Holes(Join(texts[..j + 1], " ")) == Holes(Join(texts[..j], " ")) + Holes(texts[j])
    ensures |Flat(args[..j + 1])| == |Flat(args[..j])| + |args[j]|
  {
    TextGrows(texts, j);
    assert args[..j + 1] == args[..j] + [args[j]];
    FlatAppend(args[..j], [args[j]]);
    FlatOne(args[j]);
  }

  lemma TextGrows(texts: seq<string>, j: nat)
    requires j < |texts|
    ensures Holes(Join(texts[..j + 1], " ")) == Holes(Join(texts[..j], " ")) + Holes(texts[j])
  {
    HolesOfJoin(texts[..j], " ");
    HolesOfJoin(texts[..j + 1], " ");
    assert texts[..j + 1] == texts[..j] + [texts[j]];
    SumHolesAppend(texts[..j], [texts[j]]);
    SumHolesOne(texts[j]);
  }

  lemma {:induction false} BalancedUpTo<A>(texts: seq<string>, args: seq<seq<A>>, j: nat)
    requires |texts| == |args| && j <= |texts|
    requires forall i :: 0 <= i < |texts| ==> Holes(texts[i]) == |args[i]|
    ensures Holes(Join(texts[..j], " ")) == |Flat(args[..j])|
  {
    if j > 0 {
      BalancedUpTo(texts, args, j - 1);
      BoundaryGrows(texts, args, j - 1);
    }
  }

  lemma AlignedIffBalanced<A>(texts: seq<string>, args: seq<seq<A>>)
    requires |texts| == |args|
    ensures AlignedAtBoundaries(texts, args) <==> forall i :: 0 <= i < |texts| ==> Holes(texts[i]) == |args[i]|
  {
    if AlignedAtBoundaries(texts, args) {
      forall i | 0 <= i < |texts| ensures Holes(texts[i]) == |args[i]| {
        BoundaryGrows(texts, args, i);
        assert Holes(Join(texts[..i], " ")) == |Flat(args[..i])|;
        assert Holes(Join(texts[..i + 1], " ")) == |Flat(args[..i + 1])|;
      }
    }
    if forall i :: 0 <= i < |texts| ==> Holes(texts[i]) == |args[i]| {
      forall j | 0 <= j <= |texts| ensures Holes(Join(texts[..j], " ")) == |Flat(args[..j])| {
        BalancedUpTo(texts, args, j);
      }
    }
  }

  lemma {:induction false} JoinPrefix(a: seq<string>, b: seq<string>, separator: string)
    ensures Join(a, separator) <= Join(a + b, separator)
  {
    if a == [] {
      assert "" <= Join(a + b, separator);
    } else if |a| == 1 {
      assert (a + b)[1..] == b;
    } else {
      assert (a + b)[1..] == a[1..] + b;
      JoinPrefix(a[1..], b, separator);
      var head := a[0] + separator;
      assert Join(a + b, separator) == head + Join(a[1..] + b, separator);
      assert Join(a, separator) == head + Join(a[1..], separator);
    }
  }

  /** What stands before a boundary is the beginning of the SQL, and of the arguments. */
  lemma BoundariesAreInside<A>(texts: seq<string>, args: seq<seq<A>>, j: nat)
    requires |texts| == |args| && j <= |texts|
    ensures Join(texts[..j], " ") <= Join(texts, " ") && Flat(args[..j]) <= Flat(args)
  {
    assert texts == texts[..j] + texts[j..] && args == args[..j] + args[j..];
    JoinPrefix(texts[..j], texts[j..], " ");
    FlatAppend(args[..j], args[j..]);
  }

  // ---- who owns a placeholder, and who an argument ----

  /** The character at pos of the joined texts is one of text j. */
  ghost predicate InText(texts: seq<string>, j: nat, pos: nat)
    requires j < |texts|
  {
    var end := |Join(texts[..j + 1], " ")|;
    end - |texts[j]| <= pos < end
  }

  /** The i-th of all the arguments is one that clause j brought. */
  ghost predicate InArgs<A>(args: seq<seq<A>>, j: nat, i: nat)
    requires j < |args|
  {
    |Flat(args[..j])| <= i < |Flat(args[..j + 1])|
  }

  /** There are as many placeholders as arguments, and the i-th placeholder is in the text of the clause that brought
      the i-th argument. */
  ghost predicate OwnersAgree<A>(texts: seq<string>, args: seq<seq<A>>)
    requires |texts| == |args|
  {
    var sql := Join(texts, " ");
    && Holes(sql) == |Flat(args)|
    && forall i: nat, j: nat :: i < Holes(sql) && j < |texts| ==>
         (InText(texts, j, HoleAt(sql, i)) <==> InArgs(args, j, i))
  }

  /** A placeholder is in text j if and only if it comes after those of the texts before and before those after. */
  lemma HoleInText(texts: seq<string>, i: nat, j: nat)
    requires j < |texts| && i < Holes(Join(texts, " "))
    ensures InText(texts, j, HoleAt(Join(texts, " "), i))
       <==> Holes(Join(texts[..j], " ")) <= i < Holes(Join(texts[..j + 1], " "))
  {
    var sql, here, before := Join(texts, " "), Join(texts[..j + 1], " "), Join(texts[..j], " ");
    var gap := if j == 0 then "" else " ";
    assert texts == texts[..j + 1] + texts[j + 1..] && texts[..j + 1] == texts[..j] + [texts[j]];
    JoinPrefix(texts[..j + 1], texts[j + 1..], " ");
    JoinLast(texts[..j], texts[j], " ");
    assert here == before + gap + texts[j];
    PlainHasNone(gap);
    HolesAdd(before, gap);
    HoleWithin(here, sql, i);
    HoleWithin(before + gap, sql, i);
  }

  lemma AlignedOwnersAgree<A>(texts: seq<string>, args: seq<seq<A>>)
    requires |texts| == |args| && AlignedAtBoundaries(texts, args)
    ensures OwnersAgree(texts, args)
  {
    var sql := Join(texts, " ");
    assert texts[..|texts|] == texts && args[..|texts|] == args;
    forall i: nat, j: nat | i < Holes(sql) && j < |texts|
      ensures InText(texts, j, HoleAt(sql, i)) <==> InArgs(args, j, i)
    {
      HoleInText(texts, i, j);
      assert Holes(Join(texts[..j], " ")) == |Flat(args[..j])|;
      assert Holes(Join(texts[..j + 1], " ")) == |Flat(args[..j + 1])|;
    }
  }

  lemma OwnerCounts<A>(texts: seq<string>, args: seq<seq<A>>, i: nat, j: nat)
    requires |texts| == |args| && OwnersAgree(texts, args) && i < |Flat(args)| && j < |texts|
    ensures Holes(Join(texts[..j], " ")) <= i < Holes(Join(texts[..j + 1], " ")) <==> InArgs(args, j, i)
  {
    HoleInText(texts, i, j);
    assert InText(texts, j, HoleAt(Join(texts, " "), i)) <==> InArgs(args, j, i);
  }

  /** Clauses whose owners agree have as many placeholders as arguments up to each boundary. */
  lemma {:induction false} OwnersAlign<A>(texts: seq<string>, args: seq<seq<A>>, j: nat)
    requires |texts| == |args| && OwnersAgree(texts, args) && j <= |texts|
    ensures Holes(Join(texts[..j], " ")) == |Flat(args[..j])|
  {
    if j > 0 {
      OwnersAlign(texts, args, j - 1);
      BoundariesAreInside(texts, args, j);
      HolesOfPrefix(Join(texts[..j], " "), Join(texts, " "));
      BoundaryGrows(texts, args, j - 1);
      var holes, brought := Holes(Join(texts[..j], " ")), |Flat(args[..j])|;
      if holes != brought {
        var i := if holes < brought then holes else brought;
        OwnerCounts(texts, args, i, j - 1);
      }
    }
  }

  lemma OwnersAgreeIffAligned<A>(texts: seq<string>, args: seq<seq<A>>)
    requires |texts| == |args|
    ensures OwnersAgree(texts, args) <==> AlignedAtBoundaries(texts, args)
  {
    if OwnersAgree(texts, args) {
      forall j | 0 <= j <= |texts| ensures Holes(Join(texts[..j], " ")) == |Flat(args[..j])| {
        OwnersAlign(texts, args, j);
      }
    }
    if AlignedAtBoundaries(texts, args) {
      AlignedOwnersAgree(texts, args);
    }
  }

  /** For every clause builder and every order of Build: each placeholder of the built SQL belongs to the clause that
      brought the argument at its place if and only if every clause built fits. */
  lemma BuildAlignsIffAllFit<A>(inputs: map<Type, Input<A>>, sql: map<Type, string>, sqlVars: map<Type, seq<A>>,
                                chosen: seq<Type>)
    requires sql.Keys == sqlVars.Keys == inputs.Keys
    requires forall t :: t in inputs ==> Generates(inputs[t], sql[t], sqlVars[t])
    requires forall i :: 0 <= i < |chosen| ==> chosen[i] in inputs
    ensures OwnersAgree(Look(sql, chosen), Look(sqlVars, chosen)) <==>
            forall i :: 0 <= i < |chosen| ==> Fits(inputs[chosen[i]])
  {
    var texts, args := Look(sql, chosen), Look(sqlVars, chosen);
    AlignedIffBalanced(texts, args);
    OwnersAgreeIffAligned(texts, args);
    forall i | 0 <= i < |chosen| ensures Holes(texts[i]) == |args[i]| <==> Fits(inputs[chosen[i]]) {
      BalancedIffFits(inputs[chosen[i]], sql[chosen[i]], sqlVars[chosen[i]]);
    }
  }

  // ---- inside one clause ----

  /** The k-th placeholder after the table's name is in the assignment of the k-th key, and the k-th argument is the
      value of that key. */
  ghost predicate PairedAt<A>(table: string, order: seq<string>, columns: map<string, A>, sql: string, vars: seq<A>,
                              k: nat)
    requires k < |order| == |vars|
  {
    && order[k] in columns && vars[k] == columns[order[k]]
    && UpdateText(table, order[..k]) <= UpdateText(table, order[..k + 1]) <= sql
    && Holes(UpdateText(table, order[..k])) == k && Holes(UpdateText(table, order[..k + 1])) == k + 1
  }

  /** UPDATE pairs each key with its own value. */
  lemma UpdatePairsKeys<A>(table: string, columns: map<string, A>, sql: string, vars: seq<A>)
    returns (order: seq<string>)
    requires Generates(Update(table, columns), sql, vars) && Fits(Update(table, columns))
    ensures IsOrder(order, columns) && |vars| == |order|
    ensures forall k: nat :: k < |order| ==> PairedAt(table, order, columns, sql, vars, k)
  {
    order :| IsOrder(order, columns) && Paired(order, columns, vars) && sql == UpdateText(table, order);
    forall k: nat | k < |order| ensures PairedAt(table, order, columns, sql, vars, k) {
      assert forall i :: 0 <= i < |order| ==> order[i] in order;
      UpdateSteps(table, order, k);
    }
  }

  lemma UpdateSteps(table: string, order: seq<string>, k: nat)
    requires k < |order| && Plain(table) && forall i :: 0 <= i < |order| ==> Plain(order[i])
    ensures UpdateText(table, order[..k]) <= UpdateText(table, order[..k + 1]) <= UpdateText(table, order)
    ensures Holes(UpdateText(table, order[..k])) == k && Holes(UpdateText(table, order[..k + 1])) == k + 1
  {
    UpdatePrefix(table, order, k);
    UpdatePrefix(table, order, k + 1);
    assert order[..k + 1][..k] == order[..k];
    UpdatePrefix(table, order[..k + 1], k);
  }

  lemma UpdatePrefix(table: string, order: seq<string>, k: nat)
    requires k <= |order| && Plain(table) && forall i :: 0 <= i < |order| ==> Plain(order[i])
    ensures UpdateText(table, order[..k]) <= UpdateText(table, order)
    ensures Holes(UpdateText(table, order[..k])) == k
  {
    var a, b := Assignments(order[..k]), Assignments(order[k..]);
    assert Assignments(order) == a + b;
    JoinPrefix(a, b, ", ");
    PrefixAfter("UPDATE " + table + " SET ", Join(a, ", "), Join(a + b, ", "));
    HolesOfUpdate(table, order[..k]);
    PlainHasNone(table);
    PlainItems(order[..k]);
  }

  lemma PrefixAfter(head: string, a: string, b: string)
    requires a <= b
    ensures head + a <= head + b
  {
  }

  /** All rows from the first non-empty one on are as wide as it is; w is the width so far, 0 for none yet. */
  predicate Uniform<A>(rows: seq<seq<A>>, w: nat) {
    rows != [] ==>
      && (w == 0 || |rows[0]| == w)
      && Uniform(rows[1..], if w == 0 then |rows[0]| else w)
  }

  lemma TotalBindsFirst<A>(rows: seq<seq<A>>, w: nat, k: nat)
    requires 0 < k <= |rows|
    ensures var w' := if w == 0 then |rows[0]| else w;
            TotalBinds(rows[..k], w) == w' + TotalBinds(rows[1..][..k - 1], w')
    ensures |Flat(rows[..k])| == |rows[0]| + |Flat(rows[1..][..k - 1])|
  {
    assert rows[..k][1..] == rows[1..][..k - 1];
  }

  lemma {:induction false} UniformBinds<A>(rows: seq<seq<A>>, w: nat, k: nat)
    requires Uniform(rows, w) && k <= |rows|
    ensures TotalBinds(rows[..k], w) == |Flat(rows[..k])|
  {
    if k > 0 {
      TotalBindsFirst(rows, w, k);
      UniformBinds(rows[1..], if w == 0 then |rows[0]| else w, k - 1);
    }
  }

  lemma {:induction false} BindsUniform<A>(rows: seq<seq<A>>, w: nat)
    requires forall k :: 0 <= k <= |rows| ==> TotalBinds(rows[..k], w) == |Flat(rows[..k])|
    ensures Uniform(rows, w)
  {
    if rows != [] {
      TotalBindsFirst(rows, w, 1);
      assert rows[1..][..0] == [];
      assert TotalBinds(rows[..1], w) == |Flat(rows[..1])|;
      forall k | 0 <= k <= |rows[1..]|
        ensures TotalBinds(rows[1..][..k], if w == 0 then |rows[0]| else w) == |Flat(rows[1..][..k])|
      {
        TotalBindsFirst(rows, w, k + 1);
        assert TotalBinds(rows[..k + 1], w) == |Flat(rows[..k + 1])|;
      }
      BindsUniform(rows[1..], if w == 0 then |rows[0]| else w);
    }
  }

  lemma {:induction false} FirstRowTexts<A>(rows: seq<seq<A>>, bind: string, k: nat)
    requires k <= |rows|
    ensures RowTexts(rows[..k], bind) == RowTexts(rows, bind)[..k]
  {
    if k > 0 {
      assert rows[..k][1..] == rows[1..][..k - 1];
      FirstRowTexts(rows[1..], RowBind(rows[0], bind), k - 1);
    }
  }

  lemma JoinFirst(texts: seq<string>, k: nat, separator: string)
    requires k <= |texts|
    ensures Join(texts[..k], separator) <= Join(texts, separator)
  {
    assert texts == texts[..k] + texts[k..];
    JoinPrefix(texts[..k], texts[k..], separator);
  }

  lemma FlatFirst<A>(rows: seq<seq<A>>, k: nat)
    requires k <= |rows|
    ensures Flat(rows[..k]) <= Flat(rows)
  {
    assert rows == rows[..k] + rows[k..];
    FlatAppend(rows[..k], rows[k..]);
  }

  /** The text of the first rows is the beginning of the whole text, and their values are the first arguments. */
  lemma RowsAreInside<A>(rows: seq<seq<A>>, k: nat)
    requires k <= |rows|
    ensures ValuesText(rows[..k]) <= ValuesText(rows) && Flat(rows[..k]) <= Flat(rows)
  {
    FlatFirst(rows, k);
    FirstRowTexts(rows, "", k);
    JoinFirst(RowTexts(rows, ""), k, ", ");
    PrefixAfter("VALUES ", Join(RowTexts(rows[..k], ""), ", "), Join(RowTexts(rows, ""), ", "));
  }

  /** In VALUES each row gets its own placeholders if and only if no row is ragged. */
  lemma RowsAlignedIffUniform<A>(rows: seq<seq<A>>)
    ensures forall k :: 0 <= k <= |rows| ==>
              ValuesText(rows[..k]) <= ValuesText(rows) && Flat(rows[..k]) <= Flat(rows)
    ensures (forall k :: 0 <= k <= |rows| ==> Holes(ValuesText(rows[..k])) == |Flat(rows[..k])|) <==> Uniform(rows, 0)
  {
    forall k | 0 <= k <= |rows|
      ensures ValuesText(rows[..k]) <= ValuesText(rows) && Flat(rows[..k]) <= Flat(rows)
      ensures Holes(ValuesText(rows[..k])) == TotalBinds(rows[..k], 0)
    {
      RowsAreInside(rows, k);
      HolesOfValues(rows[..k]);
    }
    if Uniform(rows, 0) {
      forall k | 0 <= k <= |rows| ensures Holes(ValuesText(rows[..k])) == |Flat(rows[..k])| {
        UniformBinds(rows, 0, k);
      }
    } else if forall k :: 0 <= k <= |rows| ==> Holes(ValuesText(rows[..k])) == |Flat(rows[..k])| {
      forall k | 0 <= k <= |rows| ensures TotalBinds(rows[..k], 0) == |Flat(rows[..k])| {
        assert Holes(ValuesText(rows[..k])) == |Flat(rows[..k])|;
      }
      BindsUniform(rows, 0);
    }
  }

  lemma OneRow<A>(z: seq<A>, w: nat)
    ensures TotalBinds([z], w) == if w == 0 then |z| else w
  {
    var none: seq<seq<A>> := [];
    assert [z][1..] == none;
  }

  lemma TwoRows<A>(y: seq<A>, z: seq<A>, w: nat)
    ensures Flat([y, z]) == y + z
    ensures w > 0 ==> TotalBinds([y, z], w) == w + w
    ensures w > 0 && Uniform([y, z], w) ==> |y| == w
  {
    assert [y, z][1..] == [z];
    FlatOne(z);
    OneRow(z, w);
  }

  /** Of three rows the placeholders can come out right in all although the rows are ragged: then values go to the wrong
      row. */
  lemma RaggedRows<A>(x: seq<A>, y: seq<A>, z: seq<A>)
    requires |x| > 0
    ensures Fits(Values([x, y, z])) <==> |y| + |z| == |x| + |x|
    ensures |y| != |x| ==> !Uniform([x, y, z], 0)
  {
    assert [x, y, z][1..] == [y, z];
    TwoRows(y, z, |x|);
    assert Flat([x, y, z]) == x + (y + z);
  }
}
