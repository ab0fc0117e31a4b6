/**
 * `get_filter_sort_rocket` and the request-parameter mapping of the
 * `/rockets` endpoint that feeds it.
 */
module RocketFilterSort {
  import opened Wrappers
  import opened Strings
  import opened Models
  import opened QuerySortFilter

  /** Python truthiness of an optional string parameter: present and non-empty. */
  predicate Truthy(o: Option<string>) {
    o.Some? && o.value != ""
  }

  /** The rockets query after the optional filter, before any sort. */
  function Filtered(rockets: seq<Rocket>, filterField: Option<string>, filterValue: Option<string>)
    : Result<Query<Rocket>, QueryError>
  {
    if Truthy(filterField) && Truthy(filterValue) then
      ApplyFiltering(rockets, Rockets, filterField.value, filterValue.value)
    else Success(Rows(rockets))
  }

  /**
   * `get_filter_sort_rocket`: a filter field without a value (or the reverse)
   * is refused; the filter is built only when both are given, then the sort
   * only when a sort field is given, in the order given (ascending by
   * default); the query runs last.  So a filter that cannot be built fails
   * before the sort is looked at, while a filter the database refuses fails
   * only after the sort has been checked.
   */
  function GetFilterSortRocket(
    rockets: seq<Rocket>,
    sortParam: Option<string> := None,
    sortOrder: string := "asc",
    filterField: Option<string> := None,
    filterValue: Option<string> := None): (r: Result<seq<Rocket>, QueryError>)
    ensures Truthy(filterField) != Truthy(filterValue) ==> r == Failure(InvalidArgument)
    ensures Truthy(filterField) == Truthy(filterValue) && Filtered(rockets, filterField, filterValue).Failure? ==>
              r == Failure(Filtered(rockets, filterField, filterValue).error)
    ensures (&& Truthy(filterField) == Truthy(filterValue)
             && Filtered(rockets, filterField, filterValue).Success?
             && Truthy(sortParam) && sortParam.value == "id") ==> r == Failure(InvalidSort)
    ensures r.Failure? && r.error == InvalidSort ==> Truthy(sortParam) && sortParam.value == "id"
    ensures r.Success? <==>
              && Truthy(filterField) == Truthy(filterValue)
              && Filtered(rockets, filterField, filterValue).Success?
              && Filtered(rockets, filterField, filterValue).value.Rows?
              && (Truthy(sortParam) ==> Sortable(Rockets, sortParam.value))
    ensures r.Success? ==>
              var rows := Filtered(rockets, filterField, filterValue).value.rows;
              multiset(r.value) == multiset(rows) && IsSubsequence(rows, rockets)
    ensures r.Success? && Truthy(sortParam) && sortParam.value in RocketColumns ==>
              Ordered(r.value, ColumnKey(Rockets, sortParam.value), sortOrder == "asc")
    ensures !Truthy(filterField) && !Truthy(filterValue) && !Truthy(sortParam) ==> r == Success(rockets)
  {
    if Truthy(filterField) != Truthy(filterValue) then Failure(InvalidArgument)
    else
      SubsequenceReflexive(rockets);
      var query :- Filtered(rockets, filterField, filterValue);
      var sorted :- if Truthy(sortParam) then ApplySorting(query, Rockets, sortParam.value, sortOrder) else Success(query);
      Run(sorted)
  }

  /** With a sortable column and a filter the database accepts, the result is the filtered rows in the requested order. */
  lemma FilterThenSort(rockets: seq<Rocket>, sortParam: string, sortOrder: string, field: string, value: string)
    requires field != "" && value != "" && sortParam in RocketColumns && sortParam != "id"
    ensures var f := ApplyFiltering(rockets, Rockets, field, value);
            var r := GetFilterSortRocket(rockets, Some(sortParam), sortOrder, Some(field), Some(value));
            && (r.Success? <==> f.Success? && f.value.Rows?)
            && (r.Success? ==>
                  && multiset(r.value) == multiset(f.value.rows)
                  && Ordered(r.value, ColumnKey(Rockets, sortParam), sortOrder == "asc"))
  {
    var f := ApplyFiltering(rockets, Rockets, field, value);
    assert Truthy(Some(field)) && Truthy(Some(value)) && Truthy(Some(sortParam));
    assert Filtered(rockets, Some(field), Some(value)) == f;
    assert Sortable(Rockets, sortParam);
  }

  /**
   * A filter on `id` is always built; unless the value is all digits the
   * database accepts it, and it keeps only rockets with exactly that id.
   */
  lemma IdFilterIsExact(rockets: seq<Rocket>, value: string)
    ensures var f := ApplyFiltering(rockets, Rockets, "id", value);
            && f.Success?
            && (f.value.Rows? <==> !IsDigits(value))
            && (f.value.Rows? ==> forall r :: r in f.value.rows ==> r.id == value && r in rockets)
  {
    var f := ApplyFiltering(rockets, Rockets, "id", value);
    if f.value.Rows? {
      forall r | r in f.value.rows ensures r.id == value && r in rockets {
        assert multiset(f.value.rows)[r] > 0;
        RocketIdField(r);
        assert Satisfies(Str(r.id), Equals(value));
      }
    }
  }

  /**
   * Because the `id` branch falls through to the shape rules, an all-digit id
   * goes on to the year rule, which the database refuses on a text column:
   * the query fails, even when a rocket has exactly that id.
   */
  lemma DigitIdFilterIsRefused(rockets: seq<Rocket>, value: string)
    requires IsDigits(value)
    ensures ApplyFiltering(rockets, Rockets, "id", value) == Success(Refused("id"))
  {
  }

  // ------------------------------------------------------ request mapping

  function Arg(args: map<string, string>, name: string): Option<string> {
    if name in args then Some(args[name]) else None
  }

  /**
   * `sort_param = sort_high or sort_low` and `sort_order = 'desc' if sort_high
   * else 'asc'`: `sort_high` takes precedence, and the order is descending
   * exactly when `sort_high` is given.
   */
  function SortArguments(args: map<string, string>): (r: (Option<string>, string))
    ensures Truthy(Arg(args, "sort_high")) ==> r.0 == Arg(args, "sort_high")
    ensures !Truthy(Arg(args, "sort_high")) ==> r.0 == Arg(args, "sort_low")
    ensures r.1 == "desc" <==> Truthy(Arg(args, "sort_high"))
    ensures r.1 == "asc" <==> !Truthy(Arg(args, "sort_high"))
  {
    var high := Arg(args, "sort_high");
    (if Truthy(high) then high else Arg(args, "sort_low"), if Truthy(high) then "desc" else "asc")
  }

  /** An HTTP status with the JSON rows of the body (error messages are not modelled). */
  datatype Response = Response(status: int, rows: seq<map<string, Value>>)

  function ToDicts(rockets: seq<Rocket>): (d: seq<map<string, Value>>)
    ensures |d| == |rockets|
    ensures forall i :: 0 <= i < |d| ==> d[i] == RocketToDict(rockets[i])
  {
    if rockets == [] then [] else [RocketToDict(rockets[0])] + ToDicts(rockets[1..])
  }

  /** The result `get_filter_sort_rocket` gives the endpoint for its request arguments. */
  function Lookup(rockets: seq<Rocket>, args: map<string, string>): Result<seq<Rocket>, QueryError> {
    var (sortParam, sortOrder) := SortArguments(args);
    GetFilterSortRocket(rockets, sortParam, sortOrder, Arg(args, "filter_field"), Arg(args, "filter_value"))
  }

  /**
   * The JSON branch of the `/rockets` endpoint: an unpaired filter or a
   * `ValueError` answers 400, any other error 500, an empty result 404,
   * otherwise 200 with the rockets' dictionaries.
   */
  function RocketsEndpoint(rockets: seq<Rocket>, args: map<string, string>): (r: Response)
    ensures Truthy(Arg(args, "filter_field")) != Truthy(Arg(args, "filter_value")) ==> r.status == 400
    ensures r.status in {200, 400, 404, 500}
    ensures r.status == 200 <==> Lookup(rockets, args).Success? && Lookup(rockets, args).value != []
    ensures r.status == 200 ==> r.rows == ToDicts(Lookup(rockets, args).value)
    ensures r.status == 404 <==> Lookup(rockets, args) == Success([])
    ensures r.status == 400 <==> Lookup(rockets, args).Failure? && IsValueError(Lookup(rockets, args).error)
    ensures r.status == 500 <==> Lookup(rockets, args).Failure? && !IsValueError(Lookup(rockets, args).error)
    ensures r.status != 200 ==> r.rows == []
  {
    var filterField, filterValue := Arg(args, "filter_field"), Arg(args, "filter_value");
    if Truthy(filterField) != Truthy(filterValue) then Response(400, [])
    else match Lookup(rockets, args)
      case Failure(e) => if IsValueError(e) then Response(400, []) else Response(500, [])
      case Success(found) => if found == [] then Response(404, []) else Response(200, ToDicts(found))
  }

  /**
   * `sort_high=id` (or `sort_low=id` without `sort_high`) answers 400, unless
   * the filter is one that cannot even be built, which fails first with 500.
   */
  lemma SortByIdIsBadRequest(rockets: seq<Rocket>, args: map<string, string>)
    requires SortArguments(args).0 == Some("id")
    ensures var status := RocketsEndpoint(rockets, args).status;
            && status in {400, 500}
            && (status == 500 <==> Filtered(rockets, Arg(args, "filter_field"), Arg(args, "filter_value")).Failure?
                                   && Truthy(Arg(args, "filter_field")) == Truthy(Arg(args, "filter_value")))
  {
  }

  /**
   * `filter_field=id` with an all-digit `filter_value` answers 500 whenever
   * the sort is not `id`: the database refuses the year condition on text.
   */
  lemma DigitIdFilterIsServerError(rockets: seq<Rocket>, args: map<string, string>)
    requires Arg(args, "filter_field") == Some("id")
    requires Arg(args, "filter_value").Some? && IsDigits(Arg(args, "filter_value").value)
    requires SortArguments(args).0 != Some("id")
    ensures RocketsEndpoint(rockets, args).status == 500
  {
    DigitIdFilterIsRefused(rockets, Arg(args, "filter_value").value);
  }
}
