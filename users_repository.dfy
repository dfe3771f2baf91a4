/** `UsersRepository` (internal/repository/postgres/users_repository.go): the
    result handling of `GetFiltered`, `GetById` and `Update` around the two
    statement builders. The database is a parameter: `store` answers a query
    statement with a cursor, `exec` answers an update statement with nil or an
    error message. */
module UsersRepository {
  import opened Sql
  import opened FilterQuery
  import opened UpdateStatement

  /** A row of the `users` table as the repository scans it. */
  datatype User = User(id: int, name: string, surname: string, patronymic: string,
                       age: int, gender: string, nationality: string)

  /** Go's zero value of the user record. */
  const ZeroUser: User := User(0, "", "", "", 0, "", "")

  /** The user's columns, by the names the filter and the SELECT use. */
  function Columns(u: User): Row {
    map["id" := Int(u.id), "name" := Str(u.name), "surname" := Str(u.surname),
        "patronymic" := Str(u.patronymic), "age" := Int(u.age),
        "gender" := Str(u.gender), "nationality" := Str(u.nationality)]
  }

  /** What scanning one row of the cursor yields. */
  datatype Fetched = Scanned(user: User) | ScanFailed(message: string)

  /** What the store answers to a query: an error, or the rows in the order the
      cursor delivers them. */
  datatype Cursor = QueryFailed(message: string) | Rows(rows: seq<Fetched>)

  /** The two results of `GetFiltered`: a slice (None for nil) and an error. */
  datatype Fetch = Fetch(users: Option<seq<User>>, err: Option<string>)

  /** The two results of `GetById`. */
  datatype Lookup = Lookup(user: User, err: Option<string>)

  /** The position of the first row that fails to scan, or the number of rows
      when all of them scan. */
  function FirstFailure(rows: seq<Fetched>): (k: nat)
    ensures k <= |rows|
    ensures forall j :: 0 <= j < k ==> rows[j].Scanned?
    ensures k < |rows| ==> rows[k].ScanFailed?
    decreases |rows|
  {
    if rows == [] then 0
    else if rows[0].ScanFailed? then 0
    else 1 + FirstFailure(rows[1..])
  }

  /** The users of the first n rows, all of which scanned. */
  function UsersOf(rows: seq<Fetched>, n: nat): seq<User>
    requires n <= |rows|
    requires forall j :: 0 <= j < n ==> rows[j].Scanned?
  {
    seq(n, j requires 0 <= j < n => rows[j].user)
  }

  /** What `GetFiltered` returns once the store has answered, as a specification:
      the store's error, else the first scan error, else every scanned user. */
  function FetchResult(c: Cursor): Fetch {
    match c
    case QueryFailed(m) => Fetch(None, Some(m))
    case Rows(rows) =>
      var k := FirstFailure(rows);
      if k < |rows| then Fetch(None, Some(rows[k].message))
      else Fetch(Some(UsersOf(rows, |rows|)), None)
  }

  /** The filter `GetById` builds: the one column `id` against the one value. */
  function IdFilter(id: int): Filter {
    [FilterEntry("id", [Int(id)])]
  }

  /** What `GetById` returns once the store has answered, as a specification. */
  function LookupResult(c: Cursor): Lookup {
    var f := FetchResult(c);
    match f.users
    case None => Lookup(ZeroUser, f.err)
    case Some(users) => if |users| == 0 then Lookup(ZeroUser, None) else Lookup(users[0], None)
  }

  /** What `Update` returns, as a specification. */
  function UpdateResultOf(exec: Statement -> Option<string>, id: int, updates: Updates): Option<string> {
    match UpdateStatementOf(id, updates)
    case Rejected(e) => Some(Message(e))
    case Built(st) => exec(st)
  }

  // ---------------------------------------------------------------------------
  // The repository's methods

  /** Builds the filtering statement, asks the store, and collects the scanned
      rows in cursor order into a fresh (non-nil) slice, giving up at the
      first row that does not scan. */
  method GetFiltered(store: Statement -> Cursor, filter: Filter, offset: int, limit: int)
    returns (users: Option<seq<User>>, err: Option<string>)
    ensures Fetch(users, err) == FetchResult(store(FilteringStatement(offset, limit, filter)))
  {
    var query, params := CreateFilteringQuery(offset, limit, filter);
    var cursor := store(Statement(query, params));
    if cursor.QueryFailed? {
      return None, Some(cursor.message);
    }
    var rows := cursor.rows;
    var collected: seq<User> := [];
    var i := 0;
    while i < |rows|
      invariant 0 <= i <= |rows|
      invariant forall j :: 0 <= j < i ==> rows[j].Scanned?
      invariant collected == UsersOf(rows, i)
    {
      match rows[i]
      case ScanFailed(m) =>
        return None, Some(m);
      case Scanned(u) =>
        collected := collected + [u];
      i := i + 1;
    }
    return Some(collected), None;
  }

  /** Looks the user up through the filter `id = id` and returns the first
      match, or the zero user when nothing matches. */
  method GetById(store: Statement -> Cursor, id: int, offset: int, limit: int)
    returns (user: User, err: Option<string>)
    ensures Lookup(user, err) == LookupResult(store(FilteringStatement(offset, limit, IdFilter(id))))
  {
    var filter := IdFilter(id);
    var matches, e := GetFiltered(store, filter, offset, limit);
    if e.Some? {
      return ZeroUser, e;
    }
    if matches.None? || |matches.value| == 0 {
      return ZeroUser, None;
    }
    return matches.value[0], None;
  }

  /** Validates and builds the UPDATE statement and hands it to the store; a
      refused request never reaches the store. */
  method Update(exec: Statement -> Option<string>, id: int, updates: Updates) returns (err: Option<string>)
    ensures err == UpdateResultOf(exec, id, updates)
  {
    var r := BuildUpdate(id, updates);
    match r
    case Rejected(e) =>
      return Some(Message(e));
    case Built(st) =>
      return exec(st);
  }

  // ---------------------------------------------------------------------------
  // Lemmas

  /** `GetFiltered` fails exactly when the query or some scan fails, reporting
      the first scan error; otherwise it returns every row's user, in cursor
      order, and in particular an empty non-nil slice for an empty cursor. */
  lemma FetchMeaning(c: Cursor)
    ensures FetchResult(c).users.None? <==> FetchResult(c).err.Some?
    ensures c.QueryFailed? ==> FetchResult(c).err == Some(c.message)
    ensures c.Rows? ==>
      (FetchResult(c).users.Some? <==> forall j :: 0 <= j < |c.rows| ==> c.rows[j].Scanned?)
    ensures c.Rows? && FetchResult(c).users.Some? ==>
      |FetchResult(c).users.value| == |c.rows| &&
      forall j :: 0 <= j < |c.rows| ==> FetchResult(c).users.value[j] == c.rows[j].user
    ensures c.Rows? ==> forall j :: 0 <= j < |c.rows| && c.rows[j].ScanFailed? ==>
      (forall i :: 0 <= i < j ==> c.rows[i].Scanned?) ==> FetchResult(c).err == Some(c.rows[j].message)
    ensures c == Rows([]) ==> FetchResult(c) == Fetch(Some([]), None)
  {
  }

  /** `GetById` returns the zero user and no error when nothing matches, the
      first match otherwise, and the zero user with the error on failure. */
  lemma LookupMeaning(c: Cursor)
    ensures FetchResult(c).err.Some? ==> LookupResult(c) == Lookup(ZeroUser, FetchResult(c).err)
    ensures c.Rows? && (forall j :: 0 <= j < |c.rows| ==> c.rows[j].Scanned?) ==>
      LookupResult(c) == (if |c.rows| == 0 then Lookup(ZeroUser, None) else Lookup(c.rows[0].user, None))
  {
    FetchMeaning(c);
  }

  /** The statement `GetById` sends: one group ` AND ( id = $3)` and the id as
      the third parameter. */
  lemma IdStatement(id: int, offset: int, limit: int)
    ensures FilteringStatement(offset, limit, IdFilter(id)) ==
      Statement(BaseQuery + " AND ( id = $3)" + OrderById, [Int(offset), Int(limit), Int(id)])
  {
    var filter := IdFilter(id);
    var g := Group("id", FirstFilterPlaceholder, 1);
    assert g == [Binding("id", 3)];
    KeptEntry(filter, 0);
    assert Plan(filter) == [g];
    assert Join(g, " OR") == " id = $3";
    assert GroupsText([g]) == GroupsText([]) + GroupText(g);
    assert GroupText(g) == " AND ( id = $3)";
  }

  /** A user satisfies the lookup's filter exactly when it has the id asked for. */
  lemma IdFilterMeaning(id: int, u: User)
    ensures FilterHolds(IdFilter(id), Columns(u)) <==> u.id == id
  {
    var e := FilterEntry("id", [Int(id)]);
    assert e in IdFilter(id);
  }

  /** A refused update yields the source's error text whatever the store would
      have done; a built one yields the store's answer. */
  lemma UpdateMeaning(exec: Statement -> Option<string>, id: int, updates: Updates)
    ensures |updates| == 0 ==> UpdateResultOf(exec, id, updates) == Some("no updates")
    ensures |updates| > 0 && HasField(updates, "id") ==>
      UpdateResultOf(exec, id, updates) == Some("field id is not updatable")
    ensures |updates| > 0 && !HasField(updates, "id") ==>
      UpdateResultOf(exec, id, updates) ==
        exec(Statement(RenderUpdate(updates), ValuesOf(updates, |updates|) + [Int(id)]))
  {
  }

  // ---------------------------------------------------------------------------
  // GetById against a store that answers the statement faithfully

  /** A cursor over users that all scan. */
  function Scans(users: seq<User>): seq<Fetched> {
    seq(|users|, j requires 0 <= j < |users| => Scanned(users[j]))
  }

  /** The users of a window whose columns satisfy the plan, in window order:
      what an honest store returns for the statement. It is `Select` over the
      users' `Columns`, kept on users so the scanned users can be named. */
  function SelectUsers(window: seq<User>, plan: seq<seq<Binding>>, params: seq<Value>): seq<User>
    decreases |window|
  {
    if window == [] then []
    else
      SelectUsers(window[..|window| - 1], plan, params) +
        (if PlanHolds(plan, params, Columns(window[|window| - 1])) then [window[|window| - 1]] else [])
  }

  /** The users of a window with the given id, in window order. */
  function WithId(window: seq<User>, id: int): seq<User>
    decreases |window|
  {
    if window == [] then []
    else WithId(window[..|window| - 1], id) + (if window[|window| - 1].id == id then [window[|window| - 1]] else [])
  }

  lemma {:induction false} SelectById(window: seq<User>, id: int, offset: int, limit: int)
    ensures SelectUsers(window, Plan(IdFilter(id)), Params(offset, limit, IdFilter(id))) == WithId(window, id)
    decreases |window|
  {
    if window != [] {
      var last := window[|window| - 1];
      SelectById(window[..|window| - 1], id, offset, limit);
      PlanMeaning(offset, limit, IdFilter(id), Columns(last));
      IdFilterMeaning(id, last);
    }
  }

  /** The window holds no user with that id exactly when WithId is empty. */
  lemma {:induction false} NoneWithId(window: seq<User>, id: int)
    ensures |WithId(window, id)| == 0 <==> forall k :: 0 <= k < |window| ==> window[k].id != id
    decreases |window|
  {
    if window != [] {
      var init := window[..|window| - 1];
      NoneWithId(init, id);
      assert forall k :: 0 <= k < |init| ==> init[k] == window[k];
    }
  }

  /** Position k holds the first user of the window with that id. */
  predicate FirstAt(window: seq<User>, id: int, k: int) {
    0 <= k < |window| && window[k].id == id && forall j :: 0 <= j < k ==> window[j].id != id
  }

  /** WithId's first element is the first user of the window with that id. */
  lemma {:induction false} FirstWithId(window: seq<User>, id: int)
    ensures |WithId(window, id)| > 0 ==>
      exists k :: FirstAt(window, id, k) && window[k] == WithId(window, id)[0]
    decreases |window|
  {
    if window != [] {
      var init := window[..|window| - 1];
      FirstWithId(init, id);
      if |WithId(init, id)| > 0 {
        var k :| FirstAt(init, id, k) && init[k] == WithId(init, id)[0];
        assert FirstAt(window, id, k);
      } else if window[|window| - 1].id == id {
        NoneWithId(init, id);
        assert FirstAt(window, id, |window| - 1);
      }
    }
  }

  /** When the store answers the lookup's statement with exactly the users of a
      window that satisfy its WHERE clause, `GetById` returns the first user of
      the window with the requested id, or the zero user when there is none. */
  lemma GetByIdFindsFirst(window: seq<User>, id: int, offset: int, limit: int)
    ensures var answer := SelectUsers(window, Plan(IdFilter(id)), Params(offset, limit, IdFilter(id)));
      var r := LookupResult(Rows(Scans(answer)));
      r.err == None &&
      ((forall k :: 0 <= k < |window| ==> window[k].id != id) ==> r.user == ZeroUser) &&
      ((exists k :: 0 <= k < |window| && window[k].id == id) ==>
        r.user.id == id &&
        exists k :: 0 <= k < |window| && window[k] == r.user && forall j :: 0 <= j < k ==> window[j].id != id)
  {
    SelectById(window, id, offset, limit);
    NoneWithId(window, id);
    FirstWithId(window, id);
    var answer := WithId(window, id);
    LookupMeaning(Rows(Scans(answer)));
  }

  /** Filtering on two names and two surnames over Artem Filin, Dmitry Okunev
      and Igor Filin keeps the first two, in window order. */
  lemma NameSurnameScenario(offset: int, limit: int)
    ensures var filter := [FilterEntry("name", [Str("Artem"), Str("Dmitry")]),
                           FilterEntry("surname", [Str("Filin"), Str("Okunev")])];
      var artem := Columns(User(1, "Artem", "Filin", "", 0, "", ""));
      var dmitry := Columns(User(2, "Dmitry", "Okunev", "", 0, "", ""));
      var igor := Columns(User(3, "Igor", "Filin", "", 0, "", ""));
      Select([artem, dmitry, igor], Plan(filter), Params(offset, limit, filter)) == [artem, dmitry]
  {
    var filter := [FilterEntry("name", [Str("Artem"), Str("Dmitry")]),
                   FilterEntry("surname", [Str("Filin"), Str("Okunev")])];
    var artem := Columns(User(1, "Artem", "Filin", "", 0, "", ""));
    var dmitry := Columns(User(2, "Dmitry", "Okunev", "", 0, "", ""));
    var igor := Columns(User(3, "Igor", "Filin", "", 0, "", ""));
    var window := [artem, dmitry, igor];
    SelectMeansFilter(offset, limit, filter, window);
    ScenarioRows(filter, artem, dmitry, igor);
    assert window[..2] == [artem, dmitry];
    assert window[..2][..1] == [artem];
    assert window[..2][..1][..0] == [];
    assert Matching([artem], filter) == [artem];
    assert Matching([artem, dmitry], filter) == [artem, dmitry];
  }

  lemma ScenarioRows(filter: Filter, artem: Row, dmitry: Row, igor: Row)
    requires filter == [FilterEntry("name", [Str("Artem"), Str("Dmitry")]),
                        FilterEntry("surname", [Str("Filin"), Str("Okunev")])]
    requires artem == Columns(User(1, "Artem", "Filin", "", 0, "", ""))
    requires dmitry == Columns(User(2, "Dmitry", "Okunev", "", 0, "", ""))
    requires igor == Columns(User(3, "Igor", "Filin", "", 0, "", ""))
    ensures FilterHolds(filter, artem) && FilterHolds(filter, dmitry) && !FilterHolds(filter, igor)
  {
    assert artem["name"] == filter[0].targets[0] && artem["surname"] == filter[1].targets[0];
    assert dmitry["name"] == filter[0].targets[1] && dmitry["surname"] == filter[1].targets[1];
    assert !EntryHolds(filter[0], igor);
  }
}
