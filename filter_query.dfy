/** `createFilteringQuery` (internal/repository/postgres/users_repository.go):
    compiles a pagination window and a filter into one parameterised SELECT.

    The statement is modelled twice: as text, exactly as the builder emits it,
    and as a plan (one OR-group of `field = $k` comparisons per filter entry,
    groups combined with AND) that the text renders. The builder is proved to
    emit the rendering of the plan; the lemmas then say what the plan means. */
module FilterQuery {
  import opened Format
  import opened Sql

  /** One entry of the filter map: a column name and the values it may equal. */
  datatype FilterEntry = FilterEntry(field: string, targets: seq<Value>)

  /** The filter map, listed in the order the builder visits its entries. */
  type Filter = seq<FilterEntry>

  /** Entries the builder passes over: an empty name or an empty value list. */
  predicate Skipped(e: FilterEntry) {
    e.field == "" || |e.targets| == 0
  }

  /** The statement before any filter group: the window `OFFSET $1 LIMIT $2` is
      cut in a subquery and the outer WHERE starts from `true`. (The source's raw
      string literal sits in a file with CRLF line ends; Go drops the carriage
      returns of a raw string, so only the line feeds remain.) */
  const BaseQuery: string :=
    "\n\t\tSELECT *\n\t\tFROM (SELECT id, name, surname, patronymic, age, gender, nationality FROM users OFFSET $1 LIMIT $2) \n\t\tWHERE true\n\t"

  const OrderById: string := " ORDER BY id"

  /** Placeholders $1 and $2 hold the offset and the limit. */
  const FirstFilterPlaceholder: nat := 3

  /** The values one entry binds: none when it is skipped. */
  function Bound(e: FilterEntry): seq<Value> {
    if Skipped(e) then [] else e.targets
  }

  /** The values bound by the first n entries, in binding order. */
  function TargetsOf(filter: Filter, n: nat): seq<Value>
    requires n <= |filter|
    decreases n
  {
    if n == 0 then [] else TargetsOf(filter, n - 1) + Bound(filter[n - 1])
  }

  /** The entries among the first n that produce a group, in visiting order. */
  function KeptOf(filter: Filter, n: nat): Filter
    requires n <= |filter|
    decreases n
  {
    if n == 0 then []
    else KeptOf(filter, n - 1) + (if Skipped(filter[n - 1]) then [] else [filter[n - 1]])
  }

  function Kept(filter: Filter): Filter {
    KeptOf(filter, |filter|)
  }

  /** The parameter list: offset, limit, then the filter values. */
  function Params(offset: int, limit: int, filter: Filter): seq<Value> {
    [Int(offset), Int(limit)] + TargetsOf(filter, |filter|)
  }

  /** The comparisons of one group: `field = $first`, `field = $first+1`, ... */
  function Group(field: string, first: nat, n: nat): seq<Binding> {
    seq(n, j requires 0 <= j < n => Binding(field, first + j))
  }

  /** The WHERE clause of the first n entries as a plan: one group per kept
      entry, numbered on from the placeholders used by the entries before it. */
  function PlanOf(filter: Filter, n: nat): seq<seq<Binding>>
    requires n <= |filter|
    decreases n
  {
    if n == 0 then []
    else
      var e := filter[n - 1];
      PlanOf(filter, n - 1) +
        (if Skipped(e) then []
         else [Group(e.field, FirstFilterPlaceholder + |TargetsOf(filter, n - 1)|, |e.targets|)])
  }

  function Plan(filter: Filter): seq<seq<Binding>> {
    PlanOf(filter, |filter|)
  }

  /** ` AND ( f = $k OR f = $k+1 ...)` */
  function GroupText(g: seq<Binding>): string {
    " AND (" + Join(g, " OR") + ")"
  }

  function GroupsText(plan: seq<seq<Binding>>): string
    decreases |plan|
  {
    if plan == [] then "" else GroupsText(plan[..|plan| - 1]) + GroupText(plan[|plan| - 1])
  }

  /** The statement text for a plan. */
  function Render(plan: seq<seq<Binding>>): string {
    BaseQuery + GroupsText(plan) + OrderById
  }

  /** The statement `createFilteringQuery` produces, as a specification. */
  function FilteringStatement(offset: int, limit: int, filter: Filter): Statement {
    Statement(Render(Plan(filter)), Params(offset, limit, filter))
  }

  /** All comparisons of a plan, in the order they appear in the text. */
  function Flatten(plan: seq<seq<Binding>>): seq<Binding>
    decreases |plan|
  {
    if plan == [] then [] else Flatten(plan[..|plan| - 1]) + plan[|plan| - 1]
  }

  /** Number of values the kept entries list (counted front to back). */
  function ValueCount(filter: Filter): nat
    decreases |filter|
  {
    if filter == [] then 0
    else (if Skipped(filter[0]) then 0 else |filter[0].targets|) + ValueCount(filter[1..])
  }

  // ---------------------------------------------------------------------------
  // Meaning of a plan and of a filter over one row

  /** OR within a group: some comparison holds. */
  predicate GroupHolds(g: seq<Binding>, params: seq<Value>, row: Row) {
    exists j :: 0 <= j < |g| && Holds(g[j], params, row)
  }

  /** AND across groups: every group holds. */
  predicate PlanHolds(plan: seq<seq<Binding>>, params: seq<Value>, row: Row) {
    forall i :: 0 <= i < |plan| ==> GroupHolds(plan[i], params, row)
  }

  /** The column the entry names holds one of the entry's values. A NULL column
      holds none of them, and a NULL among the values matches no row: SQL's `=`
      is never true on NULL. */
  predicate EntryHolds(e: FilterEntry, row: Row) {
    var col := Column(e.field);
    col in row && row[col] != Null && row[col] in e.targets
  }

  /** The filter's intended meaning: every entry that is not skipped holds. */
  predicate FilterHolds(filter: Filter, row: Row) {
    forall e :: e in filter && !Skipped(e) ==> EntryHolds(e, row)
  }

  /** The rows of a window that the statement's WHERE clause keeps, in order. */
  function Select(window: seq<Row>, plan: seq<seq<Binding>>, params: seq<Value>): seq<Row>
    decreases |window|
  {
    if window == [] then []
    else
      Select(window[..|window| - 1], plan, params) +
        (if PlanHolds(plan, params, window[|window| - 1]) then [window[|window| - 1]] else [])
  }

  /** The rows of a window that satisfy the filter, in order. */
  function Matching(window: seq<Row>, filter: Filter): seq<Row>
    decreases |window|
  {
    if window == [] then []
    else
      Matching(window[..|window| - 1], filter) +
        (if FilterHolds(filter, window[|window| - 1]) then [window[|window| - 1]] else [])
  }

  // ---------------------------------------------------------------------------
  // The builder

  /** Builds the statement as the source does: append to the text and the
      parameter list while counting placeholders, trim the dangling " OR" of
      each group, close it, and finish with the ordering clause. */
  method CreateFilteringQuery(offset: int, limit: int, filter: Filter)
    returns (query: string, params: seq<Value>)
    ensures Statement(query, params) == FilteringStatement(offset, limit, filter)
  {
    query := BaseQuery;
    params := [Int(offset), Int(limit)];
    var pholder: nat := FirstFilterPlaceholder;
    var i := 0;
    while i < |filter|
      invariant 0 <= i <= |filter|
      invariant query == BaseQuery + GroupsText(PlanOf(filter, i))
      invariant params == [Int(offset), Int(limit)] + TargetsOf(filter, i)
      invariant pholder == FirstFilterPlaceholder + |TargetsOf(filter, i)|
    {
      query, params, pholder := AppendEntry(query, params, pholder, filter[i]);
      EntryStep(offset, limit, filter, i);
      i := i + 1;
    }
    query := query + OrderById;
  }

  /** What one entry adds to the text: its group, or nothing when skipped. */
  function EntryText(e: FilterEntry, first: nat): string {
    if Skipped(e) then "" else GroupText(Group(e.field, first, |e.targets|))
  }

  /** The body of the builder's loop: skip an entry with an empty name or no
      values, otherwise append its group. */
  method AppendEntry(query0: string, params0: seq<Value>, first: nat, e: FilterEntry)
    returns (query: string, params: seq<Value>, pholder: nat)
    ensures query == query0 + EntryText(e, first)
    ensures params == params0 + Bound(e)
    ensures pholder == first + |Bound(e)|
  {
    var field, targets := e.field, e.targets;
    if field == "" || |targets| == 0 {
      assert query0 + "" == query0 && params0 + [] == params0;
      return query0, params0, first;
    }
    query, params, pholder := AppendGroup(query0, params0, first, field, targets);
  }

  /** The body of the builder's loop for a kept entry: open the group, append
      one comparison per value, trim the dangling " OR" and close the group. */
  method AppendGroup(query0: string, params0: seq<Value>, first: nat, field: string, targets: seq<Value>)
    returns (query: string, params: seq<Value>, pholder: nat)
    requires |targets| >= 1
    ensures query == query0 + GroupText(Group(field, first, |targets|))
    ensures params == params0 + targets
    ensures pholder == first + |targets|
  {
    query := query0 + " AND (";
    query, params, pholder := AppendComparisons(query, params0, first, field, targets);
    CloseGroup(query0, Group(field, first, |targets|));
    query := TrimSuffix(query, " OR");
    query := query + ")";
  }

  /** The inner loop of the builder: one ` field = $k OR` per value, each value
      appended to the parameters under the placeholder number it was given. */
  method AppendComparisons(query0: string, params0: seq<Value>, first: nat, field: string, targets: seq<Value>)
    returns (query: string, params: seq<Value>, pholder: nat)
    ensures query == query0 + Terminated(Group(field, first, |targets|), " OR")
    ensures params == params0 + targets
    ensures pholder == first + |targets|
  {
    query, params, pholder := query0, params0, first;
    var j := 0;
    assert targets[..0] == [];
    while j < |targets|
      invariant 0 <= j <= |targets|
      invariant query == query0 + Terminated(Group(field, first, j), " OR")
      invariant params == params0 + targets[..j]
      invariant pholder == first + j
    {
      ComparisonStep(query0, field, first, j);
      assert params0 + targets[..j + 1] == params + [targets[j]] by {
        assert targets[..j + 1] == targets[..j] + [targets[j]];
        AppendAssoc(params0, targets[..j], [targets[j]]);
      }
      query := query + (" " + field + " = $" + Decimal(pholder) + " OR");
      params := params + [targets[j]];
      pholder := pholder + 1;
      j := j + 1;
    }
    assert targets[..j] == targets;
  }

  /** Visiting any entry extends the text by its group and the parameters by
      its values. */
  lemma EntryStep(offset: int, limit: int, filter: Filter, i: nat)
    requires i < |filter|
    ensures BaseQuery + GroupsText(PlanOf(filter, i)) + EntryText(filter[i], FirstFilterPlaceholder + |TargetsOf(filter, i)|) ==
      BaseQuery + GroupsText(PlanOf(filter, i + 1))
    ensures [Int(offset), Int(limit)] + TargetsOf(filter, i) + Bound(filter[i]) ==
      [Int(offset), Int(limit)] + TargetsOf(filter, i + 1)
    ensures FirstFilterPlaceholder + |TargetsOf(filter, i)| + |Bound(filter[i])| ==
      FirstFilterPlaceholder + |TargetsOf(filter, i + 1)|
  {
    AppendAssoc([Int(offset), Int(limit)], TargetsOf(filter, i), Bound(filter[i]));
    if Skipped(filter[i]) {
      SkippedEntry(filter, i);
      assert BaseQuery + GroupsText(PlanOf(filter, i)) + "" == BaseQuery + GroupsText(PlanOf(filter, i));
    } else {
      var g := Group(filter[i].field, FirstFilterPlaceholder + |TargetsOf(filter, i)|, |filter[i].targets|);
      KeptEntry(filter, i);
      GroupsTextStep(PlanOf(filter, i), g);
      AppendAssoc(BaseQuery, GroupsText(PlanOf(filter, i)), GroupText(g));
    }
  }

  /** Visiting a kept entry adds its group and its values. */
  lemma KeptEntry(filter: Filter, i: nat)
    requires i < |filter| && !Skipped(filter[i])
    ensures PlanOf(filter, i + 1) ==
      PlanOf(filter, i) + [Group(filter[i].field, FirstFilterPlaceholder + |TargetsOf(filter, i)|, |filter[i].targets|)]
    ensures TargetsOf(filter, i + 1) == TargetsOf(filter, i) + filter[i].targets
  {
  }

  /** Visiting a skipped entry changes neither the text nor the parameters. */
  lemma SkippedEntry(filter: Filter, i: nat)
    requires i < |filter| && Skipped(filter[i])
    ensures PlanOf(filter, i + 1) == PlanOf(filter, i)
    ensures TargetsOf(filter, i + 1) == TargetsOf(filter, i)
  {
    assert TargetsOf(filter, i) + [] == TargetsOf(filter, i);
  }

  /** The inner loop's step: one more comparison and its trailing " OR". */
  lemma ComparisonStep(head: string, field: string, first: nat, j: nat)
    ensures head + Terminated(Group(field, first, j), " OR") + (" " + field + " = $" + Decimal(first + j) + " OR") ==
      head + Terminated(Group(field, first, j + 1), " OR")
  {
    var g := Group(field, first, j + 1);
    assert g[..j] == Group(field, first, j);
    assert g[j] == Binding(field, first + j);
    AppendAssoc(head, Terminated(Group(field, first, j), " OR"), " " + field + " = $" + Decimal(first + j) + " OR");
  }

  /** Trimming the last " OR" and closing the parenthesis leaves the group's text. */
  lemma CloseGroup(before: string, group: seq<Binding>)
    requires |group| >= 1
    ensures TrimSuffix(before + " AND (" + Terminated(group, " OR"), " OR") + ")" == before + GroupText(group)
  {
    var joined := Join(group, " OR");
    TerminatedIsJoinedThenSep(group, " OR");
    AppendAssoc(before + " AND (", joined, " OR");
    TrimSuffixOfAppended(before + " AND (" + joined, " OR");
    AppendAssoc(before, " AND (", joined);
    AppendAssoc(before + " AND (", joined, ")");
    AppendAssoc(before, " AND (" + joined, ")");
  }

  lemma GroupsTextStep(plan: seq<seq<Binding>>, g: seq<Binding>)
    ensures GroupsText(plan + [g]) == GroupsText(plan) + GroupText(g)
  {
    assert (plan + [g])[..|plan|] == plan;
  }

  // ---------------------------------------------------------------------------
  // Lemmas

  /** Group g tests entry e's column against placeholders that hold e's values,
      the j-th comparison naming the j-th value. */
  predicate NamesTargets(g: seq<Binding>, e: FilterEntry, params: seq<Value>) {
    |g| == |e.targets| &&
    forall j :: 0 <= j < |g| ==>
      g[j].field == e.field &&
      FirstFilterPlaceholder <= g[j].placeholder <= |params| &&
      params[g[j].placeholder - 1] == e.targets[j]
  }

  lemma NamesTargetsExtend(g: seq<Binding>, e: FilterEntry, params: seq<Value>, more: seq<Value>)
    requires NamesTargets(g, e, params)
    ensures NamesTargets(g, e, params + more)
  {
    forall j | 0 <= j < |g|
      ensures (params + more)[g[j].placeholder - 1] == e.targets[j]
    {
    }
  }

  /** The entries kept among the first n are exactly those of them that are
      not skipped. */
  lemma {:induction false} KeptMembers(filter: Filter, n: nat)
    requires n <= |filter|
    ensures forall e :: e in KeptOf(filter, n) <==> e in filter[..n] && !Skipped(e)
    decreases n
  {
    if n > 0 {
      KeptMembers(filter, n - 1);
      assert filter[..n] == filter[..n - 1] + [filter[n - 1]];
    }
  }

  lemma {:induction false} NamesTargetsUpTo(offset: int, limit: int, filter: Filter, n: nat)
    requires n <= |filter|
    ensures |PlanOf(filter, n)| == |KeptOf(filter, n)|
    ensures forall i :: 0 <= i < |PlanOf(filter, n)| ==>
      NamesTargets(PlanOf(filter, n)[i], KeptOf(filter, n)[i], [Int(offset), Int(limit)] + TargetsOf(filter, n))
    decreases n
  {
    if n > 0 {
      var e := filter[n - 1];
      NamesTargetsUpTo(offset, limit, filter, n - 1);
      var plan0, kept0 := PlanOf(filter, n - 1), KeptOf(filter, n - 1);
      var params0 := [Int(offset), Int(limit)] + TargetsOf(filter, n - 1);
      var params := [Int(offset), Int(limit)] + TargetsOf(filter, n);
      AppendAssoc([Int(offset), Int(limit)], TargetsOf(filter, n - 1), Bound(e));
      forall i | 0 <= i < |plan0| ensures NamesTargets(plan0[i], kept0[i], params) {
        NamesTargetsExtend(plan0[i], kept0[i], params0, Bound(e));
      }
      if !Skipped(e) {
        var g := Group(e.field, FirstFilterPlaceholder + |TargetsOf(filter, n - 1)|, |e.targets|);
        assert NamesTargets(g, e, params) by {
          forall j | 0 <= j < |g|
            ensures params[g[j].placeholder - 1] == e.targets[j]
          {
            assert g[j].placeholder - 1 == |params0| + j;
          }
        }
      }
    }
  }

  /** The k-th placeholder names the k-th parameter: group i of the plan belongs
      to the i-th kept entry, and its j-th comparison tests that entry's column
      against a placeholder, $3 or later, that holds the entry's j-th value. */
  lemma PlaceholdersNameTargets(offset: int, limit: int, filter: Filter)
    ensures |Plan(filter)| == |Kept(filter)|
    ensures forall i :: 0 <= i < |Plan(filter)| ==>
      NamesTargets(Plan(filter)[i], Kept(filter)[i], Params(offset, limit, filter))
  {
    NamesTargetsUpTo(offset, limit, filter, |filter|);
  }

  lemma FlattenStep(plan: seq<seq<Binding>>, g: seq<Binding>)
    ensures Flatten(plan + [g]) == Flatten(plan) + g
  {
    assert (plan + [g])[..|plan|] == plan;
  }

  /** The k-th comparison uses placeholder $(k+3). */
  predicate Consecutive(flat: seq<Binding>) {
    forall k :: 0 <= k < |flat| ==> flat[k].placeholder == FirstFilterPlaceholder + k
  }

  /** The comparisons of the first n entries, entry by entry: the flattened
      plan, built the way the plan is. It is `Flatten(PlanOf(filter, n))`
      (ComparisonsFlattenPlan) in a form whose induction stays small, so the
      numbering is proved on it. */
  function ComparisonsOf(filter: Filter, n: nat): seq<Binding>
    requires n <= |filter|
    decreases n
  {
    if n == 0 then []
    else
      var e := filter[n - 1];
      ComparisonsOf(filter, n - 1) +
        (if Skipped(e) then [] else Group(e.field, FirstFilterPlaceholder + |TargetsOf(filter, n - 1)|, |e.targets|))
  }

  lemma {:induction false} ComparisonsFlattenPlan(filter: Filter, n: nat)
    requires n <= |filter|
    ensures Flatten(PlanOf(filter, n)) == ComparisonsOf(filter, n)
    decreases n
  {
    if n > 0 {
      ComparisonsFlattenPlan(filter, n - 1);
      ComparisonsEntry(filter, n - 1);
    }
  }

  lemma ComparisonsEntry(filter: Filter, i: nat)
    requires i < |filter|
    requires Flatten(PlanOf(filter, i)) == ComparisonsOf(filter, i)
    ensures Flatten(PlanOf(filter, i + 1)) == ComparisonsOf(filter, i + 1)
  {
    var e := filter[i];
    if Skipped(e) {
      SkippedEntry(filter, i);
    } else {
      KeptEntry(filter, i);
      FlattenStep(PlanOf(filter, i), Group(e.field, FirstFilterPlaceholder + |TargetsOf(filter, i)|, |e.targets|));
    }
  }

  /** The comparisons of the first n entries are numbered $3, $4, ... in text
      order, one per value bound so far. */
  lemma {:induction false} NumberedUpTo(filter: Filter, n: nat)
    requires n <= |filter|
    ensures |ComparisonsOf(filter, n)| == |TargetsOf(filter, n)|
    ensures Consecutive(ComparisonsOf(filter, n))
    decreases n
  {
    if n > 0 {
      NumberedUpTo(filter, n - 1);
      var e := filter[n - 1];
      if !Skipped(e) {
        ConsecutiveAppend(ComparisonsOf(filter, n - 1), e.field, |e.targets|);
      }
    }
  }

  lemma ConsecutiveAppend(flat0: seq<Binding>, field: string, m: nat)
    requires Consecutive(flat0)
    ensures Consecutive(flat0 + Group(field, FirstFilterPlaceholder + |flat0|, m))
  {
  }

  /** The placeholders after $2 appear in the text as $3, $4, ... in order, one
      per bound filter value, so every parameter is named exactly once. */
  lemma PlaceholdersAreConsecutive(offset: int, limit: int, filter: Filter)
    ensures |Flatten(Plan(filter))| + 2 == |Params(offset, limit, filter)|
    ensures forall k :: 0 <= k < |Flatten(Plan(filter))| ==>
      Flatten(Plan(filter))[k].placeholder == FirstFilterPlaceholder + k
  {
    ComparisonsFlattenPlan(filter, |filter|);
    NumberedUpTo(filter, |filter|);
  }

  lemma {:induction false} ValueCountAppend(filter: Filter, e: FilterEntry)
    ensures ValueCount(filter + [e]) == ValueCount(filter) + |Bound(e)|
    decreases |filter|
  {
    if filter != [] {
      assert (filter + [e])[1..] == filter[1..] + [e];
      ValueCountAppend(filter[1..], e);
    } else {
      assert [e][1..] == [];
    }
  }

  lemma {:induction false} ValueCountUpTo(filter: Filter, n: nat)
    requires n <= |filter|
    ensures |TargetsOf(filter, n)| == ValueCount(filter[..n])
    decreases n
  {
    if n > 0 {
      ValueCountUpTo(filter, n - 1);
      assert filter[..n] == filter[..n - 1] + [filter[n - 1]];
      ValueCountAppend(filter[..n - 1], filter[n - 1]);
    }
  }

  /** The parameter list starts with the offset and the limit and then holds one
      parameter per value of every entry that is not skipped. */
  lemma ParamCount(offset: int, limit: int, filter: Filter)
    ensures Params(offset, limit, filter)[..2] == [Int(offset), Int(limit)]
    ensures |Params(offset, limit, filter)| == 2 + ValueCount(filter)
  {
    ValueCountUpTo(filter, |filter|);
    assert filter[..|filter|] == filter;
  }

  lemma {:induction false} OnlySkippedUpTo(filter: Filter, n: nat)
    requires n <= |filter|
    requires forall k :: 0 <= k < n ==> Skipped(filter[k])
    ensures PlanOf(filter, n) == [] && TargetsOf(filter, n) == []
    decreases n
  {
    if n > 0 {
      OnlySkippedUpTo(filter, n - 1);
      SkippedEntry(filter, n - 1);
    }
  }

  /** A filter whose entries are all skipped (in particular the empty filter)
      leaves the windowed SELECT and its ordering clause alone and binds only
      the offset and the limit. */
  lemma OnlySkippedEntries(offset: int, limit: int, filter: Filter)
    requires forall e :: e in filter ==> Skipped(e)
    ensures FilteringStatement(offset, limit, filter) ==
      Statement(BaseQuery + OrderById, [Int(offset), Int(limit)])
  {
    forall k | 0 <= k < |filter| ensures Skipped(filter[k]) {
      assert filter[k] in filter;
    }
    OnlySkippedUpTo(filter, |filter|);
    assert BaseQuery + GroupsText([]) == BaseQuery;
  }

  /** One group holds exactly when its entry does. */
  lemma GroupMeaning(g: seq<Binding>, e: FilterEntry, params: seq<Value>, row: Row)
    requires NamesTargets(g, e, params)
    ensures GroupHolds(g, params, row) <==> EntryHolds(e, row)
  {
    if GroupHolds(g, params, row) {
      var j :| 0 <= j < |g| && Holds(g[j], params, row);
      assert row[Column(e.field)] == e.targets[j];
    }
    if EntryHolds(e, row) {
      var j :| 0 <= j < |e.targets| && e.targets[j] == row[Column(e.field)];
      assert Holds(g[j], params, row);
    }
  }

  /** AND of ORs: a row satisfies the statement's WHERE clause exactly when, for
      every entry that is not skipped, the row's column equals one of the
      entry's values. */
  lemma PlanMeaning(offset: int, limit: int, filter: Filter, row: Row)
    ensures PlanHolds(Plan(filter), Params(offset, limit, filter), row) <==> FilterHolds(filter, row)
  {
    PlaceholdersNameTargets(offset, limit, filter);
    KeptMembers(filter, |filter|);
    assert filter[..|filter|] == filter;
    var plan, params, kept := Plan(filter), Params(offset, limit, filter), Kept(filter);
    if FilterHolds(filter, row) {
      forall i | 0 <= i < |plan| ensures GroupHolds(plan[i], params, row) {
        assert kept[i] in kept;
        GroupMeaning(plan[i], kept[i], params, row);
      }
    }
    if PlanHolds(plan, params, row) {
      forall e | e in filter && !Skipped(e) ensures EntryHolds(e, row) {
        assert e in kept;
        var i :| 0 <= i < |kept| && kept[i] == e;
        GroupMeaning(plan[i], kept[i], params, row);
      }
    }
  }

  /** Over any window of rows, the statement keeps exactly the rows the filter
      describes, in window order; with nothing to filter on it keeps the whole
      window. */
  lemma {:induction false} SelectMeansFilter(offset: int, limit: int, filter: Filter, window: seq<Row>)
    ensures Select(window, Plan(filter), Params(offset, limit, filter)) == Matching(window, filter)
    ensures (forall e :: e in filter ==> Skipped(e)) ==>
      Select(window, Plan(filter), Params(offset, limit, filter)) == window
    decreases |window|
  {
    if window != [] {
      var init, last := window[..|window| - 1], window[|window| - 1];
      SelectMeansFilter(offset, limit, filter, init);
      PlanMeaning(offset, limit, filter, last);
      assert window == init + [last];
    }
  }

  /** A NULL value in the filter matches no row, not even a row whose column is
      NULL: the statement for `{field: [null]}` keeps nothing. */
  lemma NullMatchesNothing(offset: int, limit: int, field: string, window: seq<Row>)
    requires field != ""
    ensures var filter := [FilterEntry(field, [Null])];
      Select(window, Plan(filter), Params(offset, limit, filter)) == []
  {
    var filter := [FilterEntry(field, [Null])];
    SelectMeansFilter(offset, limit, filter, window);
    NullKeepsNoRow(filter, window);
  }

  lemma {:induction false} NullKeepsNoRow(filter: Filter, window: seq<Row>)
    requires |filter| == 1 && filter[0].field != "" && filter[0].targets == [Null]
    ensures Matching(window, filter) == []
    decreases |window|
  {
    if window != [] {
      NullKeepsNoRow(filter, window[..|window| - 1]);
      assert !EntryHolds(filter[0], window[|window| - 1]);
      assert filter[0] in filter;
    }
  }

  /** Every statement starts with the windowed SELECT and ends with ` ORDER BY id`. */
  lemma StatementFrame(offset: int, limit: int, filter: Filter)
    ensures var text := FilteringStatement(offset, limit, filter).text;
      |text| >= |BaseQuery| + |OrderById| &&
      text[..|BaseQuery|] == BaseQuery &&
      text[|text| - |OrderById|..] == OrderById
  {
    var groups := GroupsText(Plan(filter));
    assert FilteringStatement(offset, limit, filter).text == BaseQuery + groups + OrderById;
  }

  /** Every group of the plan has at least one comparison. */
  lemma {:induction false} GroupsNonEmpty(filter: Filter, n: nat)
    requires n <= |filter|
    ensures forall i :: 0 <= i < |PlanOf(filter, n)| ==> |PlanOf(filter, n)[i]| >= 1
    decreases n
  {
    if n > 0 {
      GroupsNonEmpty(filter, n - 1);
    }
  }

  /** Each group is closed without a dangling ` OR`. */
  lemma GroupsClosed(filter: Filter, i: nat)
    requires i < |Plan(filter)|
    ensures !EndsWith(Join(Plan(filter)[i], " OR"), " OR")
  {
    GroupsNonEmpty(filter, |filter|);
    JoinHasNoTrailingSeparator(Plan(filter)[i], " OR");
  }
}
