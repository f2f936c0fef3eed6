/**
 * The result-submission handler of _hp/server/store_results.py: one Result row
 * per reported test, in report order, all sharing the request's browser id,
 * added to the append-only results table in a single commit. The request body
 * is given already decoded as a JSON value.
 */
module StoreResults {
  import opened Common
  import opened Strings

  /** A decoded JSON value. */
  datatype Json =
    | JNull
    | JBool(b: bool)
    | JInt(i: int)
    | JFloat(f: real)
    | JStr(s: string)
    | JArray(items: seq<Json>)
    | JObject(fields: map<string, Json>)

  /** `str(type(v))` for the Python value json.loads produces. */
  function TypeName(v: Json): string {
    match v
    case JNull => "<class 'NoneType'>"
    case JBool(_) => "<class 'bool'>"
    case JInt(_) => "<class 'int'>"
    case JFloat(_) => "<class 'float'>"
    case JStr(_) => "<class 'str'>"
    case JArray(_) => "<class 'list'>"
    case JObject(_) => "<class 'dict'>"
  }

  /** `v[key]` for a string key: a dict lookup; a missing key or a non-dict raises. */
  function Get(v: Json, key: string): (r: Result<Json>)
    ensures r.Ok? <==> v.JObject? && key in v.fields
    ensures r.Ok? ==> r.value == v.fields[key]
  {
    match v
    case JObject(fields) => if key in fields then Ok(fields[key]) else Err("KeyError: '" + key + "'")
    case JStr(_) => Err("TypeError: string indices must be integers")
    case JArray(_) => Err("TypeError: list indices must be integers or slices, not str")
    case _ => Err("TypeError: object is not subscriptable")
  }

  /**
   * The values `for test in v` visits, as far as the loop body can use them: the items
   * of a list. Iterating a dict or a string visits strings, on which the body's first
   * lookup raises, so only their empty forms get through; other values are not iterable.
   */
  function Iterated(v: Json): (r: Result<seq<Json>>)
    ensures v.JArray? ==> r == Ok(v.items)
  {
    match v
    case JArray(items) => Ok(items)
    case JObject(fields) => if |fields| == 0 then Ok([]) else Err("TypeError: string indices must be integers")
    case JStr(s) => if |s| == 0 then Ok([]) else Err("TypeError: string indices must be integers")
    case _ => Err("TypeError: object is not iterable")
  }

  /** One row of the results table as the handler fills it. */
  datatype ResultRow = ResultRow(
    outcomeType: string,
    outcomeValue: Json,
    testName: string,
    testStatus: Json,
    testMessage: Json,
    testStack: Json,
    browserId: Json,
    testcaseId: int,
    responseId: string,
    status: string)

  /**
   * The row for one reported test. The fields `outcome`, `name`, `status`, `message`
   * and `stack` must be present, and the name must be a string: it is split at '|'
   * and its last piece is the response id.
   */
  function RowOf(test: Json, browserId: Json): (r: Result<ResultRow>)
    ensures r.Ok? <==> (test.JObject? && (forall k :: k in ["outcome", "name", "status", "message", "stack"] ==> k in test.fields)
      && test.fields["name"].JStr?)
    ensures r.Ok? ==> var f := test.fields;
      && r.value.outcomeValue == f["outcome"] && r.value.outcomeType == TypeName(f["outcome"])
      && r.value.testName == f["name"].s
      && r.value.testStatus == f["status"] && r.value.testMessage == f["message"] && r.value.testStack == f["stack"]
      && r.value.browserId == browserId
      && r.value.testcaseId == 1 && r.value.status == "FINISHED"
      && r.value.responseId == LastPiece(f["name"].s, '|')
  {
    var outcome := Get(test, "outcome");
    var name := Get(test, "name");
    var status := Get(test, "status");
    var message := Get(test, "message");
    var stack := Get(test, "stack");
    if outcome.Err? then Err(outcome.error)
    else if name.Err? then Err(name.error)
    else if status.Err? then Err(status.error)
    else if message.Err? then Err(message.error)
    else if stack.Err? then Err(stack.error)
    else if !name.value.JStr? then Err("AttributeError: object has no attribute 'split'")
    else
      Ok(ResultRow(TypeName(outcome.value), outcome.value, name.value.s, status.value, message.value,
                   stack.value, browserId, 1, LastPiece(name.value.s, '|'), "FINISHED"))
  }

  /** The step `main`'s loop takes for one reported test. */
  function RowStep(browserId: Json): Json -> Result<ResultRow> {
    test => RowOf(test, browserId)
  }

  /** The rows of a whole request: `req["browser_id"]` first, then one row per `req["tests"]` entry. */
  function RequestRows(req: Json): Result<seq<ResultRow>> {
    match Get(req, "browser_id")
    case Err(e) => Err(e)
    case Ok(browserId) =>
      match Get(req, "tests")
      case Err(e) => Err(e)
      case Ok(testsValue) =>
        match Iterated(testsValue)
        case Err(e) => Err(e)
        case Ok(tests) => MapResult(tests, RowStep(browserId))
  }

  /** A request's rows succeed exactly when every test's row does, and then row k is test k's. */
  lemma RequestRowsEach(req: Json)
    requires RequestRows(req).Ok?
    ensures var tests := Iterated(req.fields["tests"]).value;
      var rows := RequestRows(req).value;
      |rows| == |tests| && forall k :: 0 <= k < |tests| ==> RowOf(tests[k], req.fields["browser_id"]) == Ok(rows[k])
  {
    var tests := Iterated(req.fields["tests"]).value;
    MapResultEach(tests, RowStep(req.fields["browser_id"]));
  }

  /** Every row of a request carries the request's browser id, status FINISHED and testcase 1. */
  lemma RequestRowsShared(req: Json)
    requires RequestRows(req).Ok?
    ensures forall row :: row in RequestRows(req).value ==>
      row.browserId == req.fields["browser_id"] && row.status == "FINISHED" && row.testcaseId == 1
  {
    var browserId := req.fields["browser_id"];
    var tests := Iterated(req.fields["tests"]).value;
    RequestRowsEach(req);
    forall row | row in RequestRows(req).value
      ensures row.browserId == browserId && row.status == "FINISHED" && row.testcaseId == 1
    {
      var k :| 0 <= k < |tests| && RequestRows(req).value[k] == row;
      assert RowOf(tests[k], browserId) == Ok(row);
    }
  }

  /** The results table: rows are only ever appended, and only by a commit. */
  class ResultsTable {
    var rows: seq<ResultRow>

    constructor ()
      ensures rows == []
    {
      rows := [];
    }

    /**
     * `main`: build the request's rows one test at a time in the session, then commit
     * them and answer `{'Status': 'Success'}`. When anything raises, the session is left
     * without a commit and the table is unchanged.
     */
    method Store(req: Json) returns (r: Result<map<string, string>>)
      modifies this
      ensures r.Ok? <==> RequestRows(req).Ok?
      ensures r.Ok? ==> r.value == map["Status" := "Success"] && rows == old(rows) + RequestRows(req).value
      ensures r.Err? ==> rows == old(rows)
    {
      var browserId := Get(req, "browser_id");
      if browserId.Err? {
        return Err(browserId.error);
      }
      var testsValue := Get(req, "tests");
      if testsValue.Err? {
        return Err(testsValue.error);
      }
      var tests := Iterated(testsValue.value);
      if tests.Err? {
        return Err(tests.error);
      }
      var session: seq<ResultRow> := [];
      var i := 0;
      while i < |tests.value|
        invariant 0 <= i <= |tests.value|
        invariant MapResult(tests.value[..i], RowStep(browserId.value)) == Ok(session)
      {
        assert tests.value[..i + 1][..i] == tests.value[..i];
        var row := RowOf(tests.value[i], browserId.value);
        if row.Err? {
          MapResultPrefixErr(tests.value, RowStep(browserId.value), i + 1);
          return Err(row.error);
        }
        session := session + [row.value];
        i := i + 1;
      }
      assert tests.value[..i] == tests.value;
      rows := rows + session;
      return Ok(map["Status" := "Success"]);
    }
  }
}
