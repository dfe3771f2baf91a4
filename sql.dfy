/** Vocabulary shared by the SELECT and UPDATE builders: bound values, the
    `field = $k` bindings both statements are made of, their text, and the few
    string operations the builders use. */
module Sql {
  import opened Format

  /** A value bound to a positional placeholder. The builders only carry values
      from the caller to the parameter list and never inspect them. */
  datatype Value = Null | Bool(b: bool) | Int(i: int) | Str(s: string)

  /** Go's nil-or-something: a nil error, a nil slice. */
  datatype Option<T> = None | Some(value: T)

  /** A parameterised statement: its text and the values for `$1`, `$2`, ... */
  datatype Statement = Statement(text: string, params: seq<Value>)

  /** One `field = $placeholder` item: a comparison in a WHERE clause or an
      assignment in a SET clause. The field name is put into the text as is. */
  datatype Binding = Binding(field: string, placeholder: nat)

  /** A row as the store sees it: column name (in lower case) to value. */
  type Row = map<string, Value>

  predicate IsUpper(c: char) {
    'A' <= c <= 'Z'
  }

  function LowerChar(c: char): char {
    if IsUpper(c) then (c as int + 32) as char else c
  }

  /** The column an unquoted identifier names: PostgreSQL folds its ASCII
      capitals to lower case, so `Name`, `NAME` and `name` are one column. */
  function Column(name: string): (col: string)
    ensures |col| == |name|
    ensures forall i :: 0 <= i < |col| ==> !IsUpper(col[i])
    ensures (forall i :: 0 <= i < |name| ==> !IsUpper(name[i])) ==> col == name
  {
    seq(|name|, i requires 0 <= i < |name| => LowerChar(name[i]))
  }

  /** True when the comparison `field = $k` is true on the row. SQL's `=` is
      never true when either side is NULL, so a NULL column matches nothing and
      a NULL parameter is matched by nothing. */
  predicate Holds(b: Binding, params: seq<Value>, row: Row) {
    Column(b.field) in row && 1 <= b.placeholder <= |params| &&
    row[Column(b.field)] != Null && row[Column(b.field)] == params[b.placeholder - 1]
  }

  /** The text emitted for one binding: ` field = $k`. */
  function BindingText(b: Binding): string {
    " " + b.field + " = $" + Decimal(b.placeholder)
  }

  /** The binding texts with `sep` between neighbours and nothing after the last. */
  function Join(bs: seq<Binding>, sep: string): string
    decreases |bs|
  {
    if |bs| == 0 then ""
    else if |bs| == 1 then BindingText(bs[0])
    else Join(bs[..|bs| - 1], sep) + sep + BindingText(bs[|bs| - 1])
  }

  /** Every binding text followed by `sep`, as a loop that always appends the
      separator produces it. */
  function Terminated(bs: seq<Binding>, sep: string): string
    decreases |bs|
  {
    if bs == [] then "" else Terminated(bs[..|bs| - 1], sep) + BindingText(bs[|bs| - 1]) + sep
  }

  predicate EndsWith(s: string, suffix: string) {
    |suffix| <= |s| && s[|s| - |suffix|..] == suffix
  }

  /** `strings.TrimSuffix`: s without the trailing suffix, or s unchanged when it
      does not end with it. */
  function TrimSuffix(s: string, suffix: string): (r: string)
    ensures EndsWith(s, suffix) ==> r + suffix == s
    ensures !EndsWith(s, suffix) ==> r == s
  {
    if EndsWith(s, suffix) then s[..|s| - |suffix|] else s
  }

  /** Number of occurrences of character c in s. */
  function Count(c: char, s: string): nat
    decreases |s|
  {
    if s == [] then 0 else Count(c, s[..|s| - 1]) + (if s[|s| - 1] == c then 1 else 0)
  }

  // ---------------------------------------------------------------------------
  // Lemmas

  /** Trimming the separator off a fully terminated list leaves the joined list:
      after the trim there is no dangling separator. */
  lemma {:induction false} TerminatedIsJoinedThenSep(bs: seq<Binding>, sep: string)
    requires |bs| >= 1
    ensures Terminated(bs, sep) == Join(bs, sep) + sep
    decreases |bs|
  {
    if |bs| > 1 {
      var init := bs[..|bs| - 1];
      TerminatedIsJoinedThenSep(init, sep);
      assert Terminated(bs, sep) == Join(init, sep) + sep + BindingText(bs[|bs| - 1]) + sep;
    } else {
      assert bs[..0] == [];
    }
  }

  lemma AppendAssoc<T>(a: seq<T>, b: seq<T>, c: seq<T>)
    ensures (a + b) + c == a + (b + c)
  {
  }

  lemma TrimSuffixOfAppended(s: string, suffix: string)
    ensures TrimSuffix(s + suffix, suffix) == s
  {
    assert (s + suffix)[|s + suffix| - |suffix|..] == suffix;
  }

  lemma {:induction false} CountAppend(c: char, a: string, b: string)
    ensures Count(c, a + b) == Count(c, a) + Count(c, b)
    decreases |b|
  {
    if b == [] {
      assert a + b == a;
    } else {
      var b' := b[..|b| - 1];
      assert (a + b)[..|a + b| - 1] == a + b';
      CountAppend(c, a, b');
    }
  }

  lemma {:induction false} CountAbsent(c: char, s: string)
    requires forall i :: 0 <= i < |s| ==> s[i] != c
    ensures Count(c, s) == 0
    decreases |s|
  {
    if s != [] {
      CountAbsent(c, s[..|s| - 1]);
    }
  }

  /** A binding's text holds exactly one `$` when the field name holds none. */
  lemma DollarsInBinding(b: Binding)
    requires '$' !in b.field
    ensures Count('$', BindingText(b)) == 1
  {
    var digits := Decimal(b.placeholder);
    CountAbsent('$', digits);
    CountAbsent('$', b.field);
    CountAppend('$', " ", b.field);
    CountAppend('$', " " + b.field, " = $");
    CountAppend('$', " " + b.field + " = $", digits);
    CountAbsent('$', " = ");
    assert " = $" == " = " + "$";
    CountAppend('$', " = ", "$");
    assert "$"[..0] == [];
    assert Count('$', "$") == 1;
    assert Count('$', " = $") == 1;
    assert BindingText(b) == " " + b.field + " = $" + digits;
  }

  /** One `$` per binding, when neither the field names nor the separator hold one. */
  lemma {:induction false} DollarsInJoin(bs: seq<Binding>, sep: string)
    requires forall i :: 0 <= i < |bs| ==> '$' !in bs[i].field
    requires '$' !in sep
    ensures Count('$', Join(bs, sep)) == |bs|
    decreases |bs|
  {
    if |bs| == 1 {
      DollarsInBinding(bs[0]);
    } else if |bs| > 1 {
      var init := bs[..|bs| - 1];
      DollarsInJoin(init, sep);
      DollarsInBinding(bs[|bs| - 1]);
      CountAbsent('$', sep);
      CountAppend('$', Join(init, sep), sep);
      CountAppend('$', Join(init, sep) + sep, BindingText(bs[|bs| - 1]));
    }
  }

  /** A non-empty joined list ends with the last placeholder's digits, so it never
      ends with a separator whose last character is not a digit (" OR", ","). */
  lemma JoinEndsWithDigit(bs: seq<Binding>, sep: string)
    requires |bs| >= 1
    ensures |Join(bs, sep)| >= 1 && IsDigit(Join(bs, sep)[|Join(bs, sep)| - 1])
  {
    var last := BindingText(bs[|bs| - 1]);
    var digits := Decimal(bs[|bs| - 1].placeholder);
    assert last[|last| - 1] == digits[|digits| - 1];
  }

  lemma JoinHasNoTrailingSeparator(bs: seq<Binding>, sep: string)
    requires |bs| >= 1 && |sep| >= 1 && !IsDigit(sep[|sep| - 1])
    ensures !EndsWith(Join(bs, sep), sep)
  {
    JoinEndsWithDigit(bs, sep);
  }
}
