/**
 * The plain Flask application: `POST /api/feedings`, `GET /api/feedings`
 * and `GET /api/stats` over the feeding table, answering JSON with a status
 * code.
 */
module App {
  import opened Wrappers
  import opened PyValues
  import opened Sources
  import opened Feedings

  /** The local configuration file this application reads. */
  const DbConfigFile: string := "db_config.json"

  /** A JSON body and its HTTP status. */
  datatype Reply = Reply(status: int, body: Value)

  /** `jsonify({'error': str(e)}), 500`. */
  function ErrorReply(e: Exc): Reply {
    Reply(500, Error(e.message))
  }

  function CreatedReply(id: nat, clock: string): Reply {
    Reply(201, VObj(map["message" := VStr("Feeding recorded successfully"), "id" := VInt(id), "timestamp" := VStr(clock)]))
  }

  /**
   * What `add_feeding` answers for the request body (`request.get_json()`,
   * which may raise) when the next AUTOINCREMENT id is `nextId`: 400 for the
   * first missing required field, 201 once the row is stored, 500 for any
   * exception on the way.
   */
  function AddFeedingReply(body: Result<Value, Exc>, nextId: nat, clock: string): (r: Reply)
    ensures r.status == 201 || r.status == 400 || r.status == 500
    ensures r.status == 400 <==>
              body.Ok? && FirstLacking(body.value, RequiredFields).Ok? && FirstLacking(body.value, RequiredFields).value.Some?
    ensures r.status == 400 ==> r.body == Error(MissingFieldMessage(FirstLacking(body.value, RequiredFields).value.value))
    ensures r.status == 201 <==>
              body.Ok? && FirstLacking(body.value, RequiredFields) == Ok(None) && FeedingValues(body.value).Ok?
    ensures r.status == 201 ==> r == CreatedReply(nextId, clock)
    ensures r.status == 500 ==> r.body.VObj? && r.body.fields.Keys == {"error"}
  {
    match body
    case Err(e) => ErrorReply(e)
    case Ok(data) =>
      match FirstLacking(data, RequiredFields)
      case Err(e) => ErrorReply(e)
      case Ok(Some(field)) => Reply(400, Error(MissingFieldMessage(field)))
      case Ok(None) =>
        match FeedingValues(data)
        case Err(e) => ErrorReply(e)
        case Ok(_) => CreatedReply(nextId, clock)
  }

  /** A body that is not a JSON object fails with the AttributeError of `data.get`, as a 500. */
  lemma {:induction false} NonObjectBodyIs500(body: Value, nextId: nat, clock: string)
    requires !body.VObj?
    ensures AddFeedingReply(Ok(body), nextId, clock) == ErrorReply(AttributeError(body, "get"))
    ensures body == VNull ==>
              AddFeedingReply(Ok(body), nextId, clock) == Reply(500, Error("'NoneType' object has no attribute 'get'"))
  {
    if body == VNull {
      NoneHasNoGet();
    }
  }

  lemma NoneHasNoGet()
    ensures AttributeError(VNull, "get").message == "'NoneType' object has no attribute 'get'"
  {
    var head := "'" + TypeName(VNull);
    assert head == "'NoneType";
    var middle := head + "' object has no attribute '";
    assert middle == "'NoneType' object has no attribute '";
    assert middle + "get" + "'" == "'NoneType' object has no attribute 'get'";
  }

  /** `add_feeding()`; `now` is the insert time, `clock` what `datetime.now().isoformat()` gives. */
  method AddFeeding(table: FeedingTable, body: Result<Value, Exc>, now: string, clock: string) returns (reply: Reply)
    requires table.Valid()
    modifies table
    ensures table.Valid()
    ensures reply == AddFeedingReply(body, old(table.lastId) + 1, clock)
    ensures reply.status == 201 ==>
              var v := FeedingValues(body.value).value;
              table.rows == old(table.rows) + [Row(old(table.lastId) + 1, v.birdType, v.foodType, v.quantity,
                                                   v.location, v.notes, now)]
    ensures reply.status != 201 ==> table.rows == old(table.rows) && table.lastId == old(table.lastId)
  {
    if body.Err? {
      return ErrorReply(body.error);
    }
    var data := body.value;
    var missing := FirstMissingField(data);
    if missing.Err? {
      return ErrorReply(missing.error);
    }
    if missing.value.Some? {
      return Reply(400, Error(MissingFieldMessage(missing.value.value)));
    }
    var values := FeedingValues(data);
    if values.Err? {
      return ErrorReply(values.error);
    }
    var id := table.Insert(values.value, now);
    return CreatedReply(id, clock);
  }

  /** `get_feedings()`: the 50 most recent rows, each as its seven-field record. */
  method GetFeedings(table: FeedingTable) returns (reply: Reply, fetched: seq<Row>)
    ensures IsRecentQuery(table.rows, fetched)
    ensures reply == Reply(200, VList(Projections(fetched)))
  {
    fetched := RecentFeedings(table.rows);
    var list := ProjectRows(fetched);
    assert list == Projections(fetched);
    return Reply(200, VList(list)), fetched;
  }

  /** `get_stats()`. */
  method GetStats(table: FeedingTable) returns (reply: Reply)
    ensures reply.status == 200 <==> RunningTotalsFit(QuantityColumn(table.rows))
    ensures reply.status != 200 ==> reply == ErrorReply(SumOverflowError())
    ensures reply.status == 200 ==> (reply.body.VObj?
              && reply.body.fields.Keys == {"total_feedings", "most_common_bird", "most_common_food", "total_food_quantity"}
              && reply.body.fields["total_feedings"] == VInt(|table.rows|)
              && reply.body.fields["total_food_quantity"] == VInt(SumInts(QuantityColumn(table.rows))))
    ensures reply.status == 200 && table.rows == [] ==>
              reply.body.fields["most_common_bird"] == VNull && reply.body.fields["most_common_food"] == VNull
              && reply.body.fields["total_food_quantity"] == VInt(0)
    ensures reply.status == 200 && table.rows != [] ==>
              IsMode(BirdColumn(table.rows), reply.body.fields["most_common_bird"])
              && IsMode(FoodColumn(table.rows), reply.body.fields["most_common_food"])
  {
    var s := Statistics(table.rows);
    match s
    case Err(e) =>
      return ErrorReply(e);
    case Ok(stats) =>
      StatsValueFields(stats);
      return Reply(200, StatsValue(stats));
  }
}
