/** The stand-alone user-query node: it trims the query from the context and
    rejects one that is empty or all whitespace. */
module UserQueryNode {
  import opened Wrappers
  import opened Strings
  import opened PyValues

  /** The dict the node returns: either the rejection or the trimmed query
      with the node's placeholder text and the trimmed length. */
  datatype UserQueryOutput =
    | Rejected(error: string, processedQuery: string)
    | Accepted(processedQuery: string, placeholder: Value, queryLength: nat)

  const EmptyQueryError: string := "Empty query provided"

  /** `query.strip()` on whatever the context holds under "query". */
  function StripValue(query: Value): (r: Result<string, Exc>)
    ensures r.Ok? <==> query.Str?
    ensures query.Str? ==> r.value == Strip(query.s)
    ensures !query.Str? ==> r.error == AttributeError(NoAttribute(query, "strip"))
  {
    if query.Str? then Ok(Strip(query.s)) else Err(AttributeError(NoAttribute(query, "strip")))
  }

  /** `UserQueryNode.process`. A missing query counts as "". The placeholder
      is read first, so a node that is not a dict raises before the query is
      looked at; a query that is not a string cannot be stripped and raises. */
  function Process(nodeData: Value, context: Fields): (r: Result<UserQueryOutput, Exc>)
    ensures r.Err? <==> !nodeData.Obj? || !GetOr(nodeData.fields, "data", Obj([])).Obj? ||
                        !GetOr(context, "query", Str("")).Str?
    ensures r.Ok? ==>
      var q := GetOr(context, "query", Str("")).s;
      (r.value.Rejected? <==> IsBlank(q)) &&
      (r.value.Rejected? ==> r.value == Rejected(EmptyQueryError, "")) &&
      (r.value.Accepted? ==>
         r.value.processedQuery == Strip(q) && r.value.queryLength == |Strip(q)| &&
         r.value.placeholder == GetOr(GetOr(nodeData.fields, "data", Obj([])).fields, "placeholder", Str("")))
  {
    var query := GetOr(context, "query", Str(""));
    match GetIn(nodeData, "data", Obj([]))
    case Err(e) => Err(e)
    case Ok(data) =>
      match GetIn(data, "placeholder", Str(""))
      case Err(e) => Err(e)
      case Ok(placeholder) =>
        match StripValue(query)
        case Err(e) => Err(e)
        case Ok(stripped) =>
          StripEmptyIffBlank(query.s);
          if stripped == "" then Ok(Rejected(EmptyQueryError, ""))
          else Ok(Accepted(stripped, placeholder, |stripped|))
  }

  /** An accepted query neither starts nor ends with whitespace, and feeding
      it back through the node accepts it unchanged. */
  lemma {:induction false} ProcessIdempotent(nodeData: Value, context: Fields)
    requires Process(nodeData, context).Ok? && Process(nodeData, context).value.Accepted?
    ensures
      var p := Process(nodeData, context).value.processedQuery;
      p != [] && !IsSpace(p[0]) && !IsSpace(p[|p| - 1]) &&
      Process(nodeData, [Field("query", Str(p))]) == Process(nodeData, context)
  {
    var q := GetOr(context, "query", Str("")).s;
    var p := Strip(q);
    assert Process(nodeData, context).value.processedQuery == p;
    StripIdempotent(q);
    StripEmptyIffBlank(p);
    var again := [Field("query", Str(p))];
    assert GetOr(again, "query", Str("")) == Str(p);
    var r := Process(nodeData, again);
    assert r.Ok? && r.value.Accepted?;
    assert r.value == Process(nodeData, context).value;
  }
}
