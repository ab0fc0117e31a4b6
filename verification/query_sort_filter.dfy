/**
 * The generic query layer: `apply_sorting` and `apply_filtering` over the rows
 * of any model.  A query is the sequence of rows it would return, or a query
 * the database refuses when it runs; filtering keeps a subsequence, sorting
 * returns a permutation in column order.
 */
module QuerySortFilter {
  import opened Wrappers
  import opened Strings
  import opened Models

  /**
   * Why a request fails.  `InvalidSort` and `InvalidArgument` are the layer's
   * own `ValueError`s; `NotAColumn` is the error SQLAlchemy or Python raises
   * while a condition or an ordering is built on an attribute that is not a
   * column; `DatabaseError` is the error the database raises when it runs a
   * query whose condition does not fit the column's type.
   */
  datatype QueryError = InvalidSort | InvalidArgument | NotAColumn(name: string) | DatabaseError(column: string)

  /** The errors the endpoints answer with 400; every other error answers 500. */
  predicate IsValueError(e: QueryError) {
    e.InvalidSort? || e.InvalidArgument?
  }

  /**
   * A query as the layer builds it: the rows it returns when it runs, or the
   * column whose condition makes the database refuse it.
   */
  datatype Query<T> = Rows(rows: seq<T>) | Refused(column: string)

  /** `query.all()`: the rows, or the database's error. */
  function Run<T>(q: Query<T>): (r: Result<seq<T>, QueryError>)
    ensures r.Success? <==> q.Rows?
    ensures r.Success? ==> r.value == q.rows
    ensures r.Failure? ==> r.error == DatabaseError(q.column)
  {
    match q
    case Rows(rows) => Success(rows)
    case Refused(column) => Failure(DatabaseError(column))
  }

  // ---------------------------------------------------------------- ordering

  /**
   * PostgreSQL's ordering of column values: NULL sorts after every non-null
   * value in ascending order (and so first in descending order).  A column
   * holds one kind of value; the rank only makes the order total.
   */
  function Rank(v: Value): nat {
    match v
    case Num(_) => 0
    case Day(_) => 1
    case Str(_) => 2
    case Null => 3
  }

  predicate ValueLeq(a: Value, b: Value) {
    if Rank(a) != Rank(b) then Rank(a) < Rank(b)
    else match a
      case Num(x) => x <= b.x
      case Day(d) => DateLeq(d, b.date)
      case Str(s) => StrLeq(s, b.s)
      case Null => true
  }

  lemma ValueLeqTotal(a: Value, b: Value)
    ensures ValueLeq(a, b) || ValueLeq(b, a)
  {
    if a.Str? && b.Str? {
      StrLeqTotal(a.s, b.s);
    }
  }

  lemma ValueLeqTransitive(a: Value, b: Value, c: Value)
    requires ValueLeq(a, b) && ValueLeq(b, c)
    ensures ValueLeq(a, c)
  {
    if a.Str? && b.Str? && c.Str? {
      StrLeqTransitive(a.s, b.s, c.s);
    }
  }

  /** `asc(column)` when ascending, `desc(column)` otherwise. */
  predicate InOrder(a: Value, b: Value, ascending: bool) {
    if ascending then ValueLeq(a, b) else ValueLeq(b, a)
  }

  ghost predicate Ordered<T>(s: seq<T>, key: T -> Value, ascending: bool) {
    forall i, j :: 0 <= i < j < |s| ==> InOrder(key(s[i]), key(s[j]), ascending)
  }

  /** Prepending a row that may precede every row of an ordered sequence keeps it ordered. */
  lemma OrderedCons<T>(y: T, t: seq<T>, key: T -> Value, ascending: bool)
    requires Ordered(t, key, ascending)
    requires forall j :: 0 <= j < |t| ==> InOrder(key(y), key(t[j]), ascending)
    ensures Ordered([y] + t, key, ascending)
  {
    var r := [y] + t;
    forall i, j | 0 <= i < j < |r| ensures InOrder(key(r[i]), key(r[j]), ascending) {
      if i == 0 {
        assert r[j] == t[j - 1];
      } else {
        assert r[i] == t[i - 1] && r[j] == t[j - 1];
      }
    }
  }

  /** Inserts x before the first row it may precede. */
  function Insert<T>(x: T, s: seq<T>, key: T -> Value, ascending: bool): (r: seq<T>)
    ensures multiset(r) == multiset(s) + multiset{x}
  {
    if s == [] then [x]
    else if InOrder(key(x), key(s[0]), ascending) then [x] + s
    else
      assert s == [s[0]] + s[1..];
      [s[0]] + Insert(x, s[1..], key, ascending)
  }

  lemma {:induction false} InsertOrdered<T>(x: T, s: seq<T>, key: T -> Value, ascending: bool)
    requires Ordered(s, key, ascending)
    ensures Ordered(Insert(x, s, key, ascending), key, ascending)
  {
    if s == [] {
    } else if InOrder(key(x), key(s[0]), ascending) {
      forall j | 0 <= j < |s| ensures InOrder(key(x), key(s[j]), ascending) {
        if j > 0 {
          if ascending {
            ValueLeqTransitive(key(x), key(s[0]), key(s[j]));
          } else {
            ValueLeqTransitive(key(s[j]), key(s[0]), key(x));
          }
        }
      }
      OrderedCons(x, s, key, ascending);
    } else {
      var rest := Insert(x, s[1..], key, ascending);
      assert Ordered(s[1..], key, ascending) by {
        forall i, j | 0 <= i < j < |s[1..]| ensures InOrder(key(s[1..][i]), key(s[1..][j]), ascending) {
          assert s[1..][i] == s[i + 1] && s[1..][j] == s[j + 1];
        }
      }
      InsertOrdered(x, s[1..], key, ascending);
      ValueLeqTotal(key(x), key(s[0]));
      forall j | 0 <= j < |rest| ensures InOrder(key(s[0]), key(rest[j]), ascending) {
        var y := rest[j];
        assert y in multiset(rest);
        if y != x {
          assert y in multiset(s[1..]);
          var k :| 0 <= k < |s[1..]| && s[1..][k] == y;
          assert s[k + 1] == y;
        }
      }
      OrderedCons(s[0], rest, key, ascending);
    }
  }

  /** `order_by(asc(column))` or `order_by(desc(column))`: an insertion sort on the key. */
  function SortBy<T>(s: seq<T>, key: T -> Value, ascending: bool): (r: seq<T>)
    ensures multiset(r) == multiset(s)
    ensures Ordered(r, key, ascending)
  {
    if s == [] then []
    else
      assert s == [s[0]] + s[1..];
      var sorted := SortBy(s[1..], key, ascending);
      InsertOrdered(s[0], sorted, key, ascending);
      Insert(s[0], sorted, key, ascending)
  }

  /** The sort key of a model's column. */
  function ColumnKey<T>(model: Model<T>, column: string): T -> Value {
    (row: T) => Field(model, row, column)
  }

  /**
   * The names `apply_sorting` can order by: not `id`, and either a column or
   * a name `getattr` does not find (which leaves the query alone).
   */
  predicate Sortable<T>(model: Model<T>, name: string) {
    name != "id" && (name in model.columns || !IsAttribute(model, name))
  }

  /**
   * `apply_sorting`: sorting on `id` is refused whatever the order; a name
   * `getattr` does not find leaves the query as it is; an attribute that is
   * not a column cannot be put in ORDER BY; on a column the rows come back
   * ascending for the order 'asc' and descending for any other order.  A
   * query the database will refuse stays refused.
   */
  function ApplySorting<T>(query: Query<T>, model: Model<T>, sortParam: string, sortOrder: string)
    : (r: Result<Query<T>, QueryError>)
    ensures r.Success? <==> Sortable(model, sortParam)
    ensures r.Failure? ==> r.error == if sortParam == "id" then InvalidSort else NotAColumn(sortParam)
    ensures r.Success? ==> r.value.Rows? == query.Rows?
    ensures r.Success? && query.Rows? ==> multiset(r.value.rows) == multiset(query.rows)
    ensures r.Success? && sortParam !in model.columns ==> r.value == query
    ensures r.Success? && query.Rows? && sortParam in model.columns ==>
              Ordered(r.value.rows, ColumnKey(model, sortParam), sortOrder == "asc")
  {
    if sortParam == "id" then Failure(InvalidSort)
    else if sortParam !in model.columns then
      if IsAttribute(model, sortParam) then Failure(NotAColumn(sortParam)) else Success(query)
    else
      match query
      case Refused(_) => Success(query)
      case Rows(rows) => Success(Rows(SortBy(rows, ColumnKey(model, sortParam), sortOrder == "asc")))
  }

  // ---------------------------------------------------------------- filtering

  /** a is obtained from b by deleting rows, without reordering the rest. */
  ghost predicate IsSubsequence<T>(a: seq<T>, b: seq<T>)
    decreases |b|
  {
    if a == [] then true
    else if b == [] then false
    else (a[0] == b[0] && IsSubsequence(a[1..], b[1..])) || IsSubsequence(a, b[1..])
  }

  lemma {:induction false} SubsequenceReflexive<T>(a: seq<T>)
    ensures IsSubsequence(a, a)
  {
    if a != [] {
      SubsequenceReflexive(a[1..]);
    }
  }

  lemma {:induction false} SubsequenceTransitive<T>(a: seq<T>, b: seq<T>, c: seq<T>)
    requires IsSubsequence(a, b) && IsSubsequence(b, c)
    ensures IsSubsequence(a, c)
    decreases |c|
  {
    if a != [] {
      if IsSubsequence(b, c[1..]) {
        SubsequenceTransitive(a, b, c[1..]);
      } else if a[0] == b[0] && IsSubsequence(a[1..], b[1..]) {
        SubsequenceTransitive(a[1..], b[1..], c[1..]);
      } else {
        SubsequenceTransitive(a, b[1..], c[1..]);
      }
    }
  }

  /** The three SQL conditions `apply_filtering` can build on a column. */
  datatype Rule =
    | Equals(text: string)   // column == value
    | InYear(year: nat)      // extract('year', column) == int(value)
    | ILike(pattern: string) // column ILIKE '%value%'

  /**
   * Whether a column value passes a condition.  NULL passes none.  Equality
   * reads the text as the column's type does: as a date for a date column,
   * as a number for a numeric one.
   */
  predicate Satisfies(v: Value, rule: Rule) {
    match rule
    case Equals(t) =>
      || (v.Str? && v.s == t)
      || (v.Day? && ParseDate(t) == Some(v.date))
      || (v.Num? && ParseDecimal(t) == Some(v.x))
    case InYear(y) => v.Day? && v.date.year == y
    case ILike(p) => v.Str? && Contains(Lower(v.s), Lower(p))
  }

  /**
   * Whether the database accepts a condition on a column of the given type.
   * The year is extracted from dates only, ILIKE applies to text only, and a
   * compared text must read as a value of the column's type.
   */
  predicate Admits(t: ColumnType, rule: Rule) {
    match rule
    case InYear(_) => t == DateColumn
    case ILike(_) => t == TextColumn
    case Equals(s) =>
      match t
      case TextColumn => true
      case IntegerColumn => ParseInteger(s).Some?
      case FloatColumn => ParseDecimal(s).Some?
      case DateColumn => ParseDate(s).Some?
  }

  /** `query.filter(condition)`: the rows that pass, in their order. */
  function Keep<T(!new)>(s: seq<T>, key: T -> Value, rule: Rule): (r: seq<T>)
    ensures IsSubsequence(r, s)
    ensures forall x :: multiset(r)[x] == if Satisfies(key(x), rule) then multiset(s)[x] else 0
  {
    if s == [] then []
    else
      var rest := Keep(s[1..], key, rule);
      assert s == [s[0]] + s[1..];
      if Satisfies(key(s[0]), rule) then
        assert ([s[0]] + rest)[1..] == rest;
        [s[0]] + rest
      else
        rest
  }

  /** The condition chosen from the shape of the value: all digits, a hyphen, or anything else. */
  function RuleFor(value: string): Rule {
    if IsDigits(value) then InYear(ParseNat(value))
    else if '-' in value then Equals(value)
    else ILike(value)
  }

  /**
   * The rows `apply_filtering` keeps, stated directly: on `id` the value must
   * match exactly AND (the branch is an `if`, not an `elif`) pass the rule
   * chosen from the value's shape.
   */
  ghost predicate Accepted<T>(model: Model<T>, field: string, value: string, row: T) {
    var v := Field(model, row, field);
    && (field == "id" ==> Satisfies(v, Equals(value)))
    && Satisfies(v, RuleFor(value))
  }

  /** Whether the database accepts every condition `apply_filtering` puts on the column. */
  predicate Typed<T>(model: Model<T>, field: string, value: string)
    requires field in model.columns
  {
    && Admits(model.columns[field], RuleFor(value))
    && (field == "id" ==> Admits(model.columns[field], Equals(value)))
  }

  /**
   * `apply_filtering`.  A name `getattr` does not find leaves the query as it
   * is.  On a column, the conditions are built; the database refuses them when
   * they do not fit the column's type, and otherwise keeps the accepted rows.
   * On a relationship no condition can be built.  On a plain class attribute
   * the hyphen rule compares two Python values that differ, so no row passes;
   * the year rule sends the value to the database, which refuses it; ILIKE
   * does not exist on a Python value.
   */
  function ApplyFiltering<T(!new)>(query: seq<T>, model: Model<T>, field: string, value: string)
    : (r: Result<Query<T>, QueryError>)
    ensures !IsAttribute(model, field) ==> r == Success(Rows(query))
    ensures field in model.columns ==> r.Success? && (r.value.Rows? <==> Typed(model, field, value))
    ensures field in model.columns && !Typed(model, field, value) ==> r.value == Refused(field)
    ensures r.Success? && r.value.Rows? ==> IsSubsequence(r.value.rows, query)
    ensures field in model.columns && r.Success? && r.value.Rows? ==>
              forall x :: multiset(r.value.rows)[x] == if Accepted(model, field, value, x) then multiset(query)[x] else 0
    ensures field !in model.columns && field in model.relationships ==> r == Failure(NotAColumn(field))
    ensures field !in model.columns && field !in model.relationships && field in model.attributes ==>
              && (r.Failure? <==> RuleFor(value).ILike?)
              && (r.Failure? ==> r.error == NotAColumn(field))
              && (r.Success? && r.value.Rows? ==> r.value.rows == [])
  {
    if field in model.columns then
      if !Typed(model, field, value) then Success(Refused(field))
      else
        var key := ColumnKey(model, field);
        var q := if field == "id" then Keep(query, key, Equals(value)) else query;
        SubsequenceReflexive(query);
        var rows := Keep(q, key, RuleFor(value));
        SubsequenceTransitive(rows, q, query);
        Success(Rows(rows))
    else if field in model.relationships then Failure(NotAColumn(field))
    else if field in model.attributes then
      match RuleFor(value)
      case Equals(_) => Success(Rows([]))
      case InYear(_) => Success(Refused(field))
      case ILike(_) => Failure(NotAColumn(field))
    else
      SubsequenceReflexive(query);
      Success(Rows(query))
  }

  /**
   * An all-digit value keeps exactly the rows whose date column falls in that
   * year; on any other column, and on `id` (whose exact match needs a date
   * there), the database refuses the query.
   */
  lemma FilterByYear<T(!new)>(query: seq<T>, model: Model<T>, field: string, value: string, x: T)
    requires field in model.columns && IsDigits(value)
    ensures field == "id" || model.columns[field] != DateColumn ==>
              ApplyFiltering(query, model, field, value) == Success(Refused(field))
    ensures field != "id" && model.columns[field] == DateColumn ==>
              var r := ApplyFiltering(query, model, field, value);
              && r.Success? && r.value.Rows?
              && multiset(r.value.rows)[x]
                 == if Field(model, x, field).Day? && Field(model, x, field).date.year == ParseNat(value)
                    then multiset(query)[x] else 0
  {
  }

  /**
   * A value with a hyphen and not all digits keeps exactly the rows equal to
   * it, when it reads as a value of the column's type; otherwise the database
   * refuses the query.
   */
  lemma FilterByHyphen<T(!new)>(query: seq<T>, model: Model<T>, field: string, value: string, x: T)
    requires field in model.columns && !IsDigits(value) && '-' in value
    ensures var r := ApplyFiltering(query, model, field, value);
            && r.Success?
            && (r.value.Rows? <==> Admits(model.columns[field], Equals(value)))
            && (r.value.Rows? ==>
                  multiset(r.value.rows)[x]
                  == if Satisfies(Field(model, x, field), Equals(value)) then multiset(query)[x] else 0)
  {
  }

  /**
   * Filtering a date column on the ISO text of a row's date (what `str` of
   * that date gives) keeps that row, as often as the query holds it.
   */
  lemma FilterByDateTextKeepsRow<T(!new)>(query: seq<T>, model: Model<T>, field: string, x: T)
    requires field in model.columns && model.columns[field] == DateColumn
    requires Field(model, x, field).Day?
    ensures var r := ApplyFiltering(query, model, field, FormatDate(Field(model, x, field).date));
            && r.Success? && r.value.Rows?
            && multiset(r.value.rows)[x] == multiset(query)[x]
  {
    var d := Field(model, x, field).date;
    var value := FormatDate(d);
    assert value[4] == '-';
    assert !IsDigits(value) && '-' in value;
    ParseFormatDate(d);
    assert RuleFor(value) == Equals(value);
    assert Typed(model, field, value);
    assert Accepted(model, field, value, x);
  }

  /**
   * Any other value keeps the rows whose text contains it, ignoring ASCII
   * case; on a column that is not text the database refuses the query.
   */
  lemma FilterBySubstring<T(!new)>(query: seq<T>, model: Model<T>, field: string, value: string, x: T)
    requires field in model.columns && field != "id" && !IsDigits(value) && '-' !in value
    ensures var r := ApplyFiltering(query, model, field, value);
            && r.Success?
            && (r.value.Rows? <==> model.columns[field] == TextColumn)
            && (r.value.Rows? ==>
                  multiset(r.value.rows)[x]
                  == if Field(model, x, field).Str? && Contains(Lower(Field(model, x, field).s), Lower(value))
                     then multiset(query)[x] else 0)
  {
  }
}
