/** The validation and statement building of `Update`
    (internal/repository/postgres/users_repository.go): reject an empty update
    map or one with the exact key `id`, otherwise emit
    `UPDATE USERS SET f1 = $1, ..., fn = $n WHERE id = $(n+1)` with the values
    bound in the same order and the id last. */
module UpdateStatement {
  import opened Format
  import opened Sql

  /** One entry of the update map: a column and its new value. */
  datatype UpdateEntry = UpdateEntry(field: string, value: Value)

  /** The update map, listed in the order the builder visits its entries. */
  type Updates = seq<UpdateEntry>

  /** The two requests the builder refuses before building anything. */
  datatype UpdateError = NoUpdates | IdNotUpdatable

  /** The outcome of the validation and building steps. */
  datatype UpdateResult = Rejected(error: UpdateError) | Built(statement: Statement)

  /** The text of the error the source returns. */
  function Message(e: UpdateError): (m: string)
    ensures |m| > 0
  {
    match e
    case NoUpdates => "no updates"
    case IdNotUpdatable => "field id is not updatable"
  }

  const UpdateHead: string := "UPDATE USERS SET"

  /** The map has an entry whose key is exactly f: the guard the builder uses. */
  predicate HasField(updates: Updates, f: string) {
    exists i :: 0 <= i < |updates| && updates[i].field == f
  }

  /** Some entry's key names column col once PostgreSQL folds its case. */
  predicate SetsColumn(updates: Updates, col: string) {
    exists i :: 0 <= i < |updates| && Column(updates[i].field) == col
  }

  /** The assignments of the first n entries: entry i is set from `$(i+1)`. */
  function AssignmentsOf(updates: Updates, n: nat): seq<Binding>
    requires n <= |updates|
  {
    seq(n, i requires 0 <= i < n => Binding(updates[i].field, i + 1))
  }

  function Assignments(updates: Updates): seq<Binding> {
    AssignmentsOf(updates, |updates|)
  }

  /** The new values of the first n entries, in visiting order. */
  function ValuesOf(updates: Updates, n: nat): seq<Value>
    requires n <= |updates|
  {
    seq(n, i requires 0 <= i < n => updates[i].value)
  }

  /** The WHERE clause's comparison: the id is bound after all the values. */
  function IdBinding(updates: Updates): Binding {
    Binding("id", |updates| + 1)
  }

  /** The statement text for a map that passed validation. */
  function RenderUpdate(updates: Updates): string {
    UpdateHead + Join(Assignments(updates), ",") + " WHERE" + BindingText(IdBinding(updates))
  }

  /** What `Update` builds, as a specification. */
  function UpdateStatementOf(id: int, updates: Updates): UpdateResult {
    if |updates| == 0 then Rejected(NoUpdates)
    else if HasField(updates, "id") then Rejected(IdNotUpdatable)
    else Built(Statement(RenderUpdate(updates), ValuesOf(updates, |updates|) + [Int(id)]))
  }

  // ---------------------------------------------------------------------------
  // The builder

  /** Validates the map, then builds the statement as the source does: append
      ` field = $k` per entry, a comma unless the counter has reached the
      number of entries, and finally the WHERE clause on the next placeholder. */
  method BuildUpdate(id: int, updates: Updates) returns (r: UpdateResult)
    ensures r == UpdateStatementOf(id, updates)
  {
    if |updates| == 0 {
      return Rejected(NoUpdates);
    }
    if HasField(updates, "id") {
      return Rejected(IdNotUpdatable);
    }
    var params: seq<Value> := [];
    var updQuery := UpdateHead;
    var pholder: nat := 1;
    var i := 0;
    while i < |updates|
      invariant 0 <= i <= |updates|
      invariant pholder == i + 1
      invariant params == ValuesOf(updates, i)
      invariant i < |updates| ==> updQuery == UpdateHead + Terminated(AssignmentsOf(updates, i), ",")
      invariant i == |updates| ==> updQuery == UpdateHead + Join(Assignments(updates), ",")
    {
      var field, val := updates[i].field, updates[i].value;
      updQuery := updQuery + (" " + field + " = $" + Decimal(pholder));
      if pholder < |updates| {
        updQuery := updQuery + ",";
        AssignmentStep(UpdateHead, updates, i);
      } else {
        LastAssignment(UpdateHead, updates);
      }
      ValueStep(updates, i);
      params := params + [val];
      pholder := pholder + 1;
      i := i + 1;
    }
    updQuery := updQuery + (" WHERE id = $" + Decimal(pholder));
    params := params + [Int(id)];
    WhereClause(UpdateHead + Join(Assignments(updates), ","), Decimal(|updates| + 1));
    return Built(Statement(updQuery, params));
  }

  lemma AssignmentStep(head: string, updates: Updates, i: nat)
    requires i < |updates|
    ensures head + Terminated(AssignmentsOf(updates, i), ",") + (" " + updates[i].field + " = $" + Decimal(i + 1)) + "," ==
      head + Terminated(AssignmentsOf(updates, i + 1), ",")
  {
    var bs := AssignmentsOf(updates, i + 1);
    assert bs[..i] == AssignmentsOf(updates, i);
    assert bs[i] == Binding(updates[i].field, i + 1);
    AppendAssoc(head, Terminated(AssignmentsOf(updates, i), ","),
      " " + updates[i].field + " = $" + Decimal(i + 1) + ",");
  }

  lemma LastAssignment(head: string, updates: Updates)
    requires |updates| >= 1
    ensures var n := |updates|;
      head + Terminated(AssignmentsOf(updates, n - 1), ",") + (" " + updates[n - 1].field + " = $" + Decimal(n)) ==
        head + Join(Assignments(updates), ",")
  {
    var n := |updates|;
    var bs := Assignments(updates);
    assert bs[..n - 1] == AssignmentsOf(updates, n - 1);
    assert bs[n - 1] == Binding(updates[n - 1].field, n);
    if n > 1 {
      TerminatedIsJoinedThenSep(bs[..n - 1], ",");
    }
    AppendAssoc(head, Terminated(AssignmentsOf(updates, n - 1), ","), BindingText(bs[n - 1]));
  }

  lemma ValueStep(updates: Updates, i: nat)
    requires i < |updates|
    ensures ValuesOf(updates, i) + [updates[i].value] == ValuesOf(updates, i + 1)
  {
  }

  lemma WhereClause(setClause: string, digits: string)
    ensures setClause + (" WHERE id = $" + digits) == setClause + " WHERE" + (" " + "id" + " = $" + digits)
  {
    assert " WHERE id = $" == " WHERE" + (" " + "id" + " = $");
    AppendAssoc(" WHERE", " " + "id" + " = $", digits);
    AppendAssoc(setClause, " WHERE", " " + "id" + " = $" + digits);
  }

  // ---------------------------------------------------------------------------
  // Lemmas

  /** The builder refuses exactly the empty map and a map with the exact key `id`; an
      empty map is reported as such even though it cannot contain `id`. */
  lemma Rejections(id: int, updates: Updates)
    ensures UpdateStatementOf(id, updates).Rejected? <==> |updates| == 0 || HasField(updates, "id")
    ensures |updates| == 0 ==> Message(UpdateStatementOf(id, updates).error) == "no updates"
    ensures |updates| > 0 && HasField(updates, "id") ==>
      Message(UpdateStatementOf(id, updates).error) == "field id is not updatable"
  {
  }

  /** Placeholder `$(i+1)` sets column i to the i-th value; the id is the last
      parameter and `$(n+1)` names it. */
  lemma PlaceholdersNameValues(id: int, updates: Updates)
    requires UpdateStatementOf(id, updates).Built?
    ensures var st := UpdateStatementOf(id, updates).statement;
      var bs := Assignments(updates);
      |st.params| == |updates| + 1 &&
      |bs| == |updates| &&
      (forall i :: 0 <= i < |bs| ==>
        bs[i].field == updates[i].field && bs[i].placeholder == i + 1 &&
        st.params[bs[i].placeholder - 1] == updates[i].value) &&
      st.params[IdBinding(updates).placeholder - 1] == Int(id)
  {
  }

  /** The SET clause has a comma between neighbours and none after the last,
      and, when no column name holds a `$`, the statement holds exactly one `$`
      per parameter. */
  lemma UpdateShape(id: int, updates: Updates)
    requires UpdateStatementOf(id, updates).Built?
    ensures !EndsWith(Join(Assignments(updates), ","), ",")
    ensures (forall i :: 0 <= i < |updates| ==> '$' !in updates[i].field) ==>
      Count('$', UpdateStatementOf(id, updates).statement.text) ==
        |UpdateStatementOf(id, updates).statement.params|
  {
    var bs := Assignments(updates);
    JoinHasNoTrailingSeparator(bs, ",");
    if forall i :: 0 <= i < |updates| ==> '$' !in updates[i].field {
      DollarsInJoin(bs, ",");
      DollarsInBinding(IdBinding(updates));
      CountAbsent('$', UpdateHead);
      CountAbsent('$', " WHERE");
      CountAppend('$', UpdateHead, Join(bs, ","));
      CountAppend('$', UpdateHead + Join(bs, ","), " WHERE");
      CountAppend('$', UpdateHead + Join(bs, ",") + " WHERE", BindingText(IdBinding(updates)));
    }
  }

  // ---------------------------------------------------------------------------
  // Meaning of the statement on one row

  /** The row after the SET clause's assignments, applied in order. */
  function Assign(row: Row, bs: seq<Binding>, params: seq<Value>): Row
    requires forall i :: 0 <= i < |bs| ==> 1 <= bs[i].placeholder <= |params|
    decreases |bs|
  {
    if bs == [] then row
    else
      var b := bs[|bs| - 1];
      Assign(row, bs[..|bs| - 1], params)[Column(b.field) := params[b.placeholder - 1]]
  }

  /** The row the caller asked for: each listed column set to its new value. */
  function Intended(row: Row, updates: Updates): Row
    decreases |updates|
  {
    if updates == [] then row
    else
      var u := updates[|updates| - 1];
      Intended(row, updates[..|updates| - 1])[Column(u.field) := u.value]
  }

  lemma {:induction false} AssignUpTo(id: int, row: Row, updates: Updates, n: nat)
    requires n <= |updates|
    ensures var params := ValuesOf(updates, |updates|) + [Int(id)];
      Assign(row, AssignmentsOf(updates, n), params) == Intended(row, updates[..n])
    decreases n
  {
    if n > 0 {
      AssignUpTo(id, row, updates, n - 1);
      assert AssignmentsOf(updates, n)[..n - 1] == AssignmentsOf(updates, n - 1);
      assert updates[..n][..n - 1] == updates[..n - 1];
    }
  }

  /** On a row the WHERE clause selects, the statement performs exactly the
      requested update. */
  lemma AssignMeansIntended(id: int, row: Row, updates: Updates)
    requires UpdateStatementOf(id, updates).Built?
    ensures var params := UpdateStatementOf(id, updates).statement.params;
      (Holds(IdBinding(updates), params, row) <==> "id" in row && row["id"] == Int(id)) &&
      Assign(row, Assignments(updates), params) == Intended(row, updates)
  {
    AssignUpTo(id, row, updates, |updates|);
    assert updates[..|updates|] == updates;
  }

  /** Setting columns other than `id` keeps the row's id, so the updated row
      is still the one the WHERE clause selected. */
  lemma {:induction false} IntendedKeepsId(row: Row, updates: Updates)
    requires !SetsColumn(updates, "id")
    ensures "id" in Intended(row, updates) <==> "id" in row
    ensures "id" in row ==> Intended(row, updates)["id"] == row["id"]
    decreases |updates|
  {
    if updates != [] {
      var init := updates[..|updates| - 1];
      IntendedKeepsId(row, init);
    }
  }

  /** With keys naming distinct columns, every listed column ends up with its
      own new value, and the unlisted columns keep theirs. */
  lemma {:induction false} IntendedSetsEachField(row: Row, updates: Updates, col: string)
    requires forall i, j :: 0 <= i < j < |updates| ==> Column(updates[i].field) != Column(updates[j].field)
    ensures forall i :: 0 <= i < |updates| && Column(updates[i].field) == col ==>
      col in Intended(row, updates) && Intended(row, updates)[col] == updates[i].value
    ensures !SetsColumn(updates, col) ==>
      (col in Intended(row, updates) <==> col in row) &&
      (col in row ==> Intended(row, updates)[col] == row[col])
    decreases |updates|
  {
    if updates != [] {
      var init := updates[..|updates| - 1];
      IntendedSetsEachField(row, init, col);
    }
  }

  // ---------------------------------------------------------------------------
  // The guard on `id` compares exact keys

  /** The key `ID` passes the guard, which compares keys with `"id"` exactly, yet
      PostgreSQL folds it to column `id`: the statement overwrites the id of the
      row it selected. */
  lemma CaseVariantIdPassesGuard(id: int, v: Value, row: Row)
    ensures var updates := [UpdateEntry("ID", v)];
      var r := UpdateStatementOf(id, updates);
      r.Built? &&
      "id" in Assign(row, Assignments(updates), r.statement.params) &&
      Assign(row, Assignments(updates), r.statement.params)["id"] == v
  {
    var updates := [UpdateEntry("ID", v)];
    assert !HasField(updates, "id") by {
      assert updates[0].field != "id";
    }
    assert Column("ID") == "id";
    assert Assignments(updates) == [Binding("ID", 1)];
    assert Assignments(updates)[..0] == [];
  }

  /** The statement that the key `ID` produces. */
  lemma CaseVariantIdText(id: int, v: Value)
    ensures UpdateStatementOf(id, [UpdateEntry("ID", v)]) ==
      Built(Statement(UpdateHead + " ID = $1" + " WHERE" + " id = $2", [v, Int(id)]))
  {
    var updates := [UpdateEntry("ID", v)];
    assert !HasField(updates, "id") by {
      assert updates[0].field != "id";
    }
    SingleUpdateText(id, "ID", v);
    assert BindingText(Binding("ID", 1)) == " ID = $1" by {
      assert Decimal(1) == "1";
    }
    assert BindingText(Binding("id", 2)) == " id = $2" by {
      assert Decimal(2) == "2";
    }
  }

  lemma SingleUpdateText(id: int, field: string, v: Value)
    ensures RenderUpdate([UpdateEntry(field, v)]) ==
      UpdateHead + BindingText(Binding(field, 1)) + " WHERE" + BindingText(Binding("id", 2))
    ensures ValuesOf([UpdateEntry(field, v)], 1) + [Int(id)] == [v, Int(id)]
  {
    assert Assignments([UpdateEntry(field, v)]) == [Binding(field, 1)];
  }

  /** The builder with the guard the message describes: it refuses every key
      that names column `id`, whatever its case. */
  function GuardedUpdateStatementOf(id: int, updates: Updates): (r: UpdateResult)
    ensures r.Built? ==> r == UpdateStatementOf(id, updates)
    ensures (forall i :: 0 <= i < |updates| ==> Column(updates[i].field) == updates[i].field) ==>
      r == UpdateStatementOf(id, updates)
  {
    if |updates| == 0 then Rejected(NoUpdates)
    else if SetsColumn(updates, "id") then Rejected(IdNotUpdatable)
    else UpdateStatementOf(id, updates)
  }

  /** Under the case-blind guard, every statement built keeps the selected
      row's id. */
  lemma GuardedKeepsId(id: int, updates: Updates, row: Row)
    requires GuardedUpdateStatementOf(id, updates).Built?
    ensures var params := GuardedUpdateStatementOf(id, updates).statement.params;
      var after := Assign(row, Assignments(updates), params);
      ("id" in after <==> "id" in row) && ("id" in row ==> after["id"] == row["id"])
  {
    AssignMeansIntended(id, row, updates);
    IntendedKeepsId(row, updates);
  }
}
