/**
 * The feeding records both web applications keep: request validation, the
 * values an insert binds, the `bird_feedings` table as an in-memory row
 * sequence, the "50 most recent" query, the projection of a row to its JSON
 * form, the summary statistics, and where the database setting comes from.
 */
module Feedings {
  import opened Wrappers
  import opened PyValues
  import opened Sources

  /** Checked in this order; the first one missing or falsy is reported. */
  const RequiredFields: seq<string> := ["bird_type", "food_type", "quantity"]
  /** `LIMIT 50` of the listing query. */
  const RecentLimit: nat := 50
  const DefaultDatabasePath: string := "./bird_feedings.db"
  /** `DATABASE` when the configuration has no `path`. */
  const FallbackDatabaseFile: string := "bird_feedings.db"
  const DbConfigUrl: string := NexusRawRepository + "db_config.json"

  // ---------------------------------------------------------------------------
  // Validation

  /** `not data.get(field)` for a dict `data`. */
  predicate Lacks(fields: map<string, Value>, field: string) {
    field !in fields || !Truthy(fields[field])
  }

  function Error(message: string): Value {
    VObj(map["error" := VStr(message)])
  }

  function MissingFieldMessage(field: string): string {
    "Missing required field: " + field
  }

  /** The first of `fields` that `data` lacks; calling `get` on a non-dict raises. */
  function FirstLacking(data: Value, fields: seq<string>): (r: Result<Option<string>, Exc>)
    ensures fields != [] && !data.VObj? ==> r == Err(AttributeError(data, "get"))
    ensures data.VObj? ==> r.Ok?
    ensures data.VObj? ==> (r == Ok(None) <==> forall i | 0 <= i < |fields| :: !Lacks(data.fields, fields[i]))
    ensures r.Ok? && r.value.Some? ==>
              exists i | 0 <= i < |fields| :: fields[i] == r.value.value && Lacks(data.fields, fields[i])
                                              && forall j | 0 <= j < i :: !Lacks(data.fields, fields[j])
  {
    if fields == [] then Ok(None)
    else if !data.VObj? then Err(AttributeError(data, "get"))
    else if Lacks(data.fields, fields[0]) then
      Ok(Some(fields[0]))
    else
      var rest := FirstLacking(data, fields[1..]);
      if rest.value.Some? then
        var i :| 0 <= i < |fields[1..]| && fields[1..][i] == rest.value.value && Lacks(data.fields, fields[1..][i])
                 && forall j | 0 <= j < i :: !Lacks(data.fields, fields[1..][j]);
        assert fields[i + 1] == rest.value.value;
        assert forall j | 1 <= j < i + 1 :: fields[j] == fields[1..][j - 1];
        rest
      else
        assert forall i | 1 <= i < |fields| :: fields[i] == fields[1..][i - 1];
        rest
  }

  /** The position of the first lacking field decides the answer. */
  lemma {:induction false} FirstLackingAt(data: Value, fields: seq<string>, k: nat)
    requires data.VObj? && k < |fields| && Lacks(data.fields, fields[k])
    requires forall j | 0 <= j < k :: !Lacks(data.fields, fields[j])
    ensures FirstLacking(data, fields) == Ok(Some(fields[k]))
  {
    if k > 0 {
      assert !Lacks(data.fields, fields[0]);
      assert forall j | 0 <= j < k - 1 :: fields[1..][j] == fields[j + 1];
      FirstLackingAt(data, fields[1..], k - 1);
    }
  }

  /** The validation loop: `for field in required_fields: if not data.get(field): ...`. */
  method FirstMissingField(data: Value) returns (r: Result<Option<string>, Exc>)
    ensures r == FirstLacking(data, RequiredFields)
  {
    var i := 0;
    while i < |RequiredFields|
      invariant 0 <= i <= |RequiredFields|
      invariant data.VObj? || i == 0
      invariant data.VObj? ==> forall j | 0 <= j < i :: !Lacks(data.fields, RequiredFields[j])
    {
      var field := RequiredFields[i];
      var value := Get(data, field, VNull);
      if value.Err? {
        return Err(value.error);
      }
      if !Truthy(value.value) {
        FirstLackingAt(data, RequiredFields, i);
        return Ok(Some(field));
      }
      i := i + 1;
    }
    return Ok(None);
  }

  /** A falsy quantity is reported as missing: 0 and "" do not pass validation. */
  lemma {:induction false} FalsyQuantityIsMissing(fields: map<string, Value>)
    requires "bird_type" in fields && Truthy(fields["bird_type"])
    requires "food_type" in fields && Truthy(fields["food_type"])
    requires "quantity" in fields && (fields["quantity"] == VInt(0) || fields["quantity"] == VStr(""))
    ensures FirstLacking(VObj(fields), RequiredFields) == Ok(Some("quantity"))
  {
    var d := VObj(fields);
    assert RequiredFields[1..] == ["food_type", "quantity"];
    assert RequiredFields[1..][1..] == ["quantity"];
    assert FirstLacking(d, ["quantity"]) == Ok(Some("quantity"));
    assert FirstLacking(d, ["food_type", "quantity"]) == Ok(Some("quantity"));
  }

  // ---------------------------------------------------------------------------
  // Insertion

  /** The five values the INSERT binds. */
  datatype NewFeeding = NewFeeding(birdType: Value, foodType: Value, quantity: int, location: Value, notes: Value)

  /** SQLite's INTEGER range. */
  predicate FitsInt64(n: int) { -0x8000_0000_0000_0000 <= n < 0x8000_0000_0000_0000 }

  /** What binding `v` as the `index`-th parameter raises, if anything. */
  function BindFailure(index: nat, v: Value): Option<Exc> {
    match v
    case VInt(n) =>
      if FitsInt64(n) then None else Some(Exc("OverflowError", "Python int too large to convert to SQLite INTEGER"))
    case VList(_) => Some(Exc("InterfaceError", "Error binding parameter " + NatToString(index) + " - probably unsupported type."))
    case VObj(_) => Some(Exc("InterfaceError", "Error binding parameter " + NatToString(index) + " - probably unsupported type."))
    case _ => None
  }

  /** What a NULL in a NOT NULL column raises. */
  function NotNullError(column: string): Exc {
    Exc("IntegrityError", "NOT NULL constraint failed: bird_feedings." + column)
  }

  /** Binding `params` in order, the first numbered `index`: the first that cannot be bound raises. */
  function FirstBindFailure(params: seq<Value>, index: nat): (r: Option<Exc>)
    ensures r.None? <==> forall i | 0 <= i < |params| :: BindFailure(index + i, params[i]).None?
    ensures r.Some? ==> exists i | 0 <= i < |params| ::
                          BindFailure(index + i, params[i]) == r
                          && forall j | 0 <= j < i :: BindFailure(index + j, params[j]).None?
  {
    if params == [] then None
    else if BindFailure(index, params[0]).Some? then BindFailure(index, params[0])
    else
      var rest := FirstBindFailure(params[1..], index + 1);
      assert forall i | 1 <= i < |params| :: params[i] == params[1..][i - 1];
      if rest.Some? then
        var k :| 0 <= k < |params[1..]| && BindFailure(index + 1 + k, params[1..][k]) == rest
                 && forall j | 0 <= j < k :: BindFailure(index + 1 + j, params[1..][j]).None?;
        assert BindFailure(index + (k + 1), params[k + 1]) == rest;
        assert forall j | 0 <= j < k + 1 :: BindFailure(index + j, params[j]).None? by {
          forall j | 0 <= j < k + 1 ensures BindFailure(index + j, params[j]).None? {
            if j > 0 {
              assert params[j] == params[1..][j - 1];
            }
          }
        }
        rest
      else
        rest
  }

  /**
   * The INSERT's parameters `(data['bird_type'], data['food_type'],
   * int(data['quantity']), data.get('location', ''), data.get('notes', ''))`,
   * evaluated left to right, then bound and checked against the NOT NULL
   * columns.
   */
  function FeedingValues(data: Value): (r: Result<NewFeeding, Exc>)
    ensures r.Ok? ==> (data.VObj? && "bird_type" in data.fields && "food_type" in data.fields
                       && "quantity" in data.fields)
    ensures r.Ok? ==> (r.value.birdType == data.fields["bird_type"] && r.value.foodType == data.fields["food_type"]
                       && Ok(r.value.quantity) == PyInt(data.fields["quantity"]) && FitsInt64(r.value.quantity))
    ensures r.Ok? ==> (r.value.location == (if "location" in data.fields then data.fields["location"] else VStr(""))
                       && r.value.notes == (if "notes" in data.fields then data.fields["notes"] else VStr("")))
    ensures r.Ok? ==> !r.value.birdType.VNull? && !r.value.foodType.VNull?
  {
    match Index(data, "bird_type")
    case Err(e) => Err(e)
    case Ok(bird) =>
      match Index(data, "food_type")
      case Err(e) => Err(e)
      case Ok(food) =>
        match Index(data, "quantity")
        case Err(e) => Err(e)
        case Ok(q) =>
          match PyInt(q)
          case Err(e) => Err(e)
          case Ok(quantity) =>
            var location := Get(data, "location", VStr("")).value;
            var notes := Get(data, "notes", VStr("")).value;
            var params := [bird, food, VInt(quantity), location, notes];
            var failure := FirstBindFailure(params, 0);
            if failure.Some? then Err(failure.value)
            else if bird.VNull? then Err(NotNullError("bird_type"))
            else if food.VNull? then Err(NotNullError("food_type"))
            else
              assert BindFailure(0 + 2, params[2]).None?;
              Ok(NewFeeding(bird, food, quantity, location, notes))
  }

  /**
   * The INSERT's values bind exactly when the body is a dict holding the three
   * required keys, `int(quantity)` succeeds, all five parameters can be bound
   * and neither NOT NULL column gets `None`.
   */
  lemma FeedingValuesSucceeds(data: Value)
    ensures FeedingValues(data).Ok? <==>
              data.VObj? && "bird_type" in data.fields && "food_type" in data.fields && "quantity" in data.fields
              && PyInt(data.fields["quantity"]).Ok?
              && FirstBindFailure([data.fields["bird_type"], data.fields["food_type"],
                                   VInt(PyInt(data.fields["quantity"]).value),
                                   Get(data, "location", VStr("")).value,
                                   Get(data, "notes", VStr("")).value], 0).None?
              && !data.fields["bird_type"].VNull? && !data.fields["food_type"].VNull?
  {
  }

  /** Optional columns default to the empty string when the request leaves them out. */
  lemma OptionalColumnsDefaultToEmpty(data: Value)
    requires FeedingValues(data).Ok?
    requires "location" !in data.fields && "notes" !in data.fields
    ensures FeedingValues(data).value.location == VStr("") && FeedingValues(data).value.notes == VStr("")
  {
  }

  /** A stored row of `bird_feedings`. */
  datatype Row = Row(id: nat, birdType: Value, foodType: Value, quantity: int, location: Value, notes: Value,
                     feedingTime: string)

  /**
   * The `bird_feedings` table. `lastId` is the largest id AUTOINCREMENT has
   * handed out; `feeding_time` defaults to the time of the insert.
   */
  class FeedingTable {
    var rows: seq<Row>
    var lastId: nat

    /** Ids are handed out in increasing order and never reused. */
    ghost predicate Valid()
      reads this
    {
      (forall i, j | 0 <= i < j < |rows| :: rows[i].id < rows[j].id)
      && forall i | 0 <= i < |rows| :: 0 < rows[i].id <= lastId
    }

    constructor ()
      ensures Valid() && rows == [] && lastId == 0
    {
      rows := [];
      lastId := 0;
    }

    /** The INSERT; returns `cursor.lastrowid`. */
    method Insert(v: NewFeeding, now: string) returns (id: nat)
      requires Valid()
      modifies this
      ensures Valid()
      ensures id == old(lastId) + 1 && lastId == id
      ensures rows == old(rows) + [Row(id, v.birdType, v.foodType, v.quantity, v.location, v.notes, now)]
      ensures forall i | 0 <= i < |old(rows)| :: old(rows)[i].id != id
    {
      id := lastId + 1;
      rows := rows + [Row(id, v.birdType, v.foodType, v.quantity, v.location, v.notes, now)];
      lastId := id;
    }
  }

  // ---------------------------------------------------------------------------
  // Listing

  /** `a <= b` on timestamps stored as text (SQLite's binary collation). */
  predicate NotAfter(a: string, b: string) {
    a == [] || (b != [] && (a[0] < b[0] || (a[0] == b[0] && NotAfter(a[1..], b[1..]))))
  }

  lemma {:induction false} NotAfterTotal(a: string, b: string)
    ensures NotAfter(a, b) || NotAfter(b, a)
  {
    if a != [] && b != [] && a[0] == b[0] {
      NotAfterTotal(a[1..], b[1..]);
    }
  }

  lemma {:induction false} NotAfterTransitive(a: string, b: string, c: string)
    requires NotAfter(a, b) && NotAfter(b, c)
    ensures NotAfter(a, c)
  {
    if a != [] && a[0] == b[0] && b[0] == c[0] {
      NotAfterTransitive(a[1..], b[1..], c[1..]);
    }
  }

  /** Newest `feeding_time` first. */
  predicate Descending(rs: seq<Row>) {
    forall i, j | 0 <= i < j < |rs| :: NotAfter(rs[j].feedingTime, rs[i].feedingTime)
  }

  function Min(a: nat, b: nat): nat { if a <= b then a else b }

  /**
   * `out` is a possible answer to `SELECT * ... ORDER BY feeding_time DESC
   * LIMIT 50`: as many rows as the limit allows, drawn from the table, newest
   * first, and no row left out is newer than one returned. Rows with equal
   * timestamps may come in any order.
   */
  ghost predicate IsRecentQuery(rows: seq<Row>, out: seq<Row>) {
    |out| == Min(|rows|, RecentLimit)
    && multiset(out) <= multiset(rows)
    && Descending(out)
    && forall r, x | r in rows && multiset(out)[r] < multiset(rows)[r] && x in out ::
         NotAfter(r.feedingTime, x.feedingTime)
  }

  /** The index of a row with the latest timestamp. */
  method Latest(rs: seq<Row>) returns (k: nat)
    requires rs != []
    ensures k < |rs|
    ensures forall i | 0 <= i < |rs| :: NotAfter(rs[i].feedingTime, rs[k].feedingTime)
  {
    k := 0;
    NotAfterTotal(rs[0].feedingTime, rs[0].feedingTime);
    var i := 1;
    while i < |rs|
      invariant 1 <= i <= |rs| && k < i
      invariant forall j | 0 <= j < i :: NotAfter(rs[j].feedingTime, rs[k].feedingTime)
    {
      NotAfterTotal(rs[i].feedingTime, rs[k].feedingTime);
      NotAfterTotal(rs[i].feedingTime, rs[i].feedingTime);
      if !NotAfter(rs[i].feedingTime, rs[k].feedingTime) {
        forall j | 0 <= j < i ensures NotAfter(rs[j].feedingTime, rs[i].feedingTime) {
          NotAfterTransitive(rs[j].feedingTime, rs[k].feedingTime, rs[i].feedingTime);
        }
        k := i;
      }
      i := i + 1;
    }
  }

  /** Moving a latest remaining row to the end of the answer keeps it newest first and ahead of the rest. */
  lemma TakeLatest(rest: seq<Row>, out: seq<Row>, k: nat)
    requires k < |rest|
    requires forall i | 0 <= i < |rest| :: NotAfter(rest[i].feedingTime, rest[k].feedingTime)
    requires Descending(out)
    requires forall r, x | r in rest && x in out :: NotAfter(r.feedingTime, x.feedingTime)
    ensures multiset(rest) == multiset(rest[..k] + rest[k + 1..]) + multiset{rest[k]}
    ensures Descending(out + [rest[k]])
    ensures forall r, x | r in rest[..k] + rest[k + 1..] && x in out + [rest[k]] :: NotAfter(r.feedingTime, x.feedingTime)
  {
    var picked := rest[k];
    var remaining := rest[..k] + rest[k + 1..];
    assert rest == rest[..k] + [picked] + rest[k + 1..];
    assert forall r | r in remaining :: r in rest;
    var grown := out + [picked];
    forall i, j | 0 <= i < j < |grown| ensures NotAfter(grown[j].feedingTime, grown[i].feedingTime) {
      if j < |out| {
      } else {
        assert grown[i] in out;
      }
    }
  }

  /** The listing query: repeatedly takes a latest remaining row. */
  method RecentFeedings(rows: seq<Row>) returns (out: seq<Row>)
    ensures IsRecentQuery(rows, out)
  {
    var rest := rows;
    out := [];
    while |out| < RecentLimit && rest != []
      invariant multiset(out) + multiset(rest) == multiset(rows)
      invariant |out| + |rest| == |rows| && |out| <= RecentLimit
      invariant Descending(out)
      invariant forall r, x | r in rest && x in out :: NotAfter(r.feedingTime, x.feedingTime)
      decreases |rest|
    {
      var k := Latest(rest);
      TakeLatest(rest, out, k);
      out := out + [rest[k]];
      rest := rest[..k] + rest[k + 1..];
    }
    forall r | r in rows && multiset(out)[r] < multiset(rows)[r]
      ensures r in rest
    {
      assert multiset(rest)[r] > 0;
    }
  }

  /** `SELECT * ...` then the row-to-dict conversion. */
  function Projection(r: Row): (d: Value)
    ensures d.VObj? && d.fields.Keys == {"id", "bird_type", "food_type", "quantity", "location", "notes", "feeding_time"}
  {
    VObj(map["id" := VInt(r.id),
             "bird_type" := r.birdType,
             "food_type" := r.foodType,
             "quantity" := VInt(r.quantity),
             "location" := r.location,
             "notes" := r.notes,
             "feeding_time" := VStr(r.feedingTime)])
  }

  /** The projected record carries the stored row's values unchanged. */
  lemma ProjectionKeepsColumns(r: Row)
    ensures Projection(r).fields["id"] == VInt(r.id)
    ensures Projection(r).fields["bird_type"] == r.birdType
    ensures Projection(r).fields["food_type"] == r.foodType
    ensures Projection(r).fields["quantity"] == VInt(r.quantity)
    ensures Projection(r).fields["location"] == r.location
    ensures Projection(r).fields["notes"] == r.notes
    ensures Projection(r).fields["feeding_time"] == VStr(r.feedingTime)
  {
    assert "id"[0] != "bird_type"[0] && "id"[0] != "food_type"[0] && "id"[0] != "quantity"[0];
    assert "id"[0] != "location"[0] && "id"[0] != "notes"[0] && "id"[0] != "feeding_time"[0];
    assert "bird_type"[0] != "food_type"[0] && "bird_type"[0] != "quantity"[0] && "bird_type"[0] != "location"[0];
    assert "bird_type"[0] != "notes"[0] && "bird_type"[0] != "feeding_time"[0];
    assert "quantity"[0] != "location"[0] && "quantity"[0] != "notes"[0] && "quantity"[0] != "feeding_time"[0];
    assert "food_type"[0] != "quantity"[0] && "food_type"[0] != "location"[0] && "food_type"[0] != "notes"[0];
    assert "location"[0] != "notes"[0] && "location"[0] != "feeding_time"[0] && "notes"[0] != "feeding_time"[0];
    assert |"feeding_time"| != |"food_type"|;
  }

  /** The `for feeding in feedings: feeding_list.append({...})` loop. */
  method ProjectRows(rs: seq<Row>) returns (list: seq<Value>)
    ensures |list| == |rs|
    ensures forall i | 0 <= i < |rs| :: list[i] == Projection(rs[i])
  {
    list := [];
    for i := 0 to |rs|
      invariant |list| == i
      invariant forall j | 0 <= j < i :: list[j] == Projection(rs[j])
    {
      list := list + [Projection(rs[i])];
    }
  }

  // ---------------------------------------------------------------------------
  // Metrics and statistics

  function BirdColumn(rs: seq<Row>): (bs: seq<Value>)
    ensures |bs| == |rs| && forall i | 0 <= i < |rs| :: bs[i] == rs[i].birdType
  {
    if rs == [] then [] else [rs[0].birdType] + BirdColumn(rs[1..])
  }

  function FoodColumn(rs: seq<Row>): (fs: seq<Value>)
    ensures |fs| == |rs| && forall i | 0 <= i < |rs| :: fs[i] == rs[i].foodType
  {
    if rs == [] then [] else [rs[0].foodType] + FoodColumn(rs[1..])
  }

  function QuantityColumn(rs: seq<Row>): (qs: seq<int>)
    ensures |qs| == |rs| && forall i | 0 <= i < |rs| :: qs[i] == rs[i].quantity
  {
    if rs == [] then [] else [rs[0].quantity] + QuantityColumn(rs[1..])
  }

  /** `len(set(xs))`. */
  function Distinct(xs: seq<Value>): nat {
    |set x | x in xs|
  }

  /** There are never more distinct values than values, and at least one when there is any. */
  lemma {:induction false} DistinctBounds(xs: seq<Value>)
    ensures Distinct(xs) <= |xs|
    ensures xs != [] ==> Distinct(xs) >= 1
  {
    if xs != [] {
      DistinctBounds(xs[1..]);
      var tail := set x | x in xs[1..];
      assert (set x | x in xs) == tail + {xs[0]};
      assert xs[0] in (set x | x in xs);
    }
  }

  /** The numbers the listing endpoint reports with `feedings_retrieved`. */
  datatype Metrics = Metrics(totalRecords: nat, uniqueBirds: nat, totalQuantity: int)

  function RetrievalMetrics(rs: seq<Row>): Metrics {
    Metrics(|rs|, Distinct(BirdColumn(rs)), SumInts(QuantityColumn(rs)))
  }

  function MetricsValue(m: Metrics): Value {
    VObj(map["total_records" := VInt(m.totalRecords), "unique_birds" := VInt(m.uniqueBirds),
             "total_quantity" := VInt(m.totalQuantity)])
  }

  /** The metrics of the rows returned: at most 50 records, no more kinds of birds than records. */
  lemma MetricsBounds(rows: seq<Row>, out: seq<Row>)
    requires IsRecentQuery(rows, out)
    ensures RetrievalMetrics(out).totalRecords <= RecentLimit
    ensures RetrievalMetrics(out).uniqueBirds <= RetrievalMetrics(out).totalRecords
    ensures (RetrievalMetrics(out).uniqueBirds == 0) == (rows == [])
  {
    DistinctBounds(BirdColumn(out));
  }

  /** Adding a row adds its quantity to the total. */
  lemma {:induction false} TotalQuantityAppend(rs: seq<Row>, r: Row)
    ensures SumInts(QuantityColumn(rs + [r])) == SumInts(QuantityColumn(rs)) + r.quantity
  {
    if rs == [] {
      assert rs + [r] == [r];
    } else {
      assert (rs + [r])[1..] == rs[1..] + [r];
      TotalQuantityAppend(rs[1..], r);
    }
  }

  /** What `/stats` reports. */
  datatype FeedingStats = FeedingStats(totalFeedings: nat, mostCommonBird: Option<Value>,
                                       mostCommonFood: Option<Value>, totalFoodQuantity: int)

  /** Every running total of `xs`, from the first element on, is a 64-bit integer. */
  predicate RunningTotalsFit(xs: seq<int>) {
    forall j | 1 <= j <= |xs| :: FitsInt64(SumInts(xs[..j]))
  }

  /** A running total of `xs` is its first element plus a running total of the rest. */
  lemma PrefixSums(xs: seq<int>)
    requires xs != []
    ensures forall j | 1 <= j <= |xs| :: SumInts(xs[..j]) == xs[0] + SumInts(xs[1..][..j - 1])
  {
    forall j | 1 <= j <= |xs|
      ensures SumInts(xs[..j]) == xs[0] + SumInts(xs[1..][..j - 1])
    {
      assert xs[..j][1..] == xs[1..][..j - 1];
    }
  }

  /** The running totals from `acc` fit exactly when the first step fits and those from there on fit. */
  lemma RunningTotalsStep(acc: int, xs: seq<int>)
    requires xs != []
    ensures (forall j | 1 <= j <= |xs| :: FitsInt64(acc + SumInts(xs[..j])))
            <==> FitsInt64(acc + xs[0])
                 && forall k | 1 <= k <= |xs[1..]| :: FitsInt64(acc + xs[0] + SumInts(xs[1..][..k]))
  {
    PrefixSums(xs);
    assert xs[1..][..0] == [];
    if forall j | 1 <= j <= |xs| :: FitsInt64(acc + SumInts(xs[..j])) {
      assert FitsInt64(acc + SumInts(xs[..1]));
      forall k | 1 <= k <= |xs[1..]|
        ensures FitsInt64(acc + xs[0] + SumInts(xs[1..][..k]))
      {
        assert FitsInt64(acc + SumInts(xs[..k + 1]));
      }
    }
    if FitsInt64(acc + xs[0]) && forall k | 1 <= k <= |xs[1..]| :: FitsInt64(acc + xs[0] + SumInts(xs[1..][..k])) {
      forall j | 1 <= j <= |xs|
        ensures FitsInt64(acc + SumInts(xs[..j]))
      {
        if j > 1 {
          assert FitsInt64(acc + xs[0] + SumInts(xs[1..][..j - 1]));
        }
      }
    }
  }

  /** SQLite's `SUM` over integers, continuing from `acc`; `None` is the overflow it reports. */
  function SqlSumFrom(acc: int, xs: seq<int>): (r: Option<int>)
    ensures r.Some? <==> forall j | 1 <= j <= |xs| :: FitsInt64(acc + SumInts(xs[..j]))
    ensures r.Some? ==> r.value == acc + SumInts(xs)
    decreases |xs|
  {
    if xs == [] then Some(acc)
    else
      RunningTotalsStep(acc, xs);
      if !FitsInt64(acc + xs[0]) then None else SqlSumFrom(acc + xs[0], xs[1..])
  }

  /**
   * `SELECT SUM(quantity)` over integer rows: the total, unless some running
   * total leaves 64 bits, in which case SQLite raises "integer overflow"
   * even when the final total would fit again.
   */
  function SqlSum(xs: seq<int>): (r: Option<int>)
    ensures r.Some? <==> RunningTotalsFit(xs)
    ensures r.Some? ==> r.value == SumInts(xs)
  {
    SqlSumFrom(0, xs)
  }

  function SumOverflowError(): Exc {
    Exc("OperationalError", "integer overflow")
  }

  /** The largest 64-bit quantity and then 1 overflow, and a later -1 does not undo it. */
  lemma TransientOverflowIsReported()
    ensures var xs := [0x7fff_ffff_ffff_ffff, 1, -1];
            !RunningTotalsFit(xs) && FitsInt64(SumInts(xs))
  {
    var xs := [0x7fff_ffff_ffff_ffff, 1, -1];
    var prefix := [0x7fff_ffff_ffff_ffff, 1];
    assert xs[..2] == prefix && prefix[1..] == [1] && prefix[1..][1..] == [];
    assert SumInts(prefix) == 0x8000_0000_0000_0000;
    assert xs[1..] == [1, -1] && xs[1..][1..] == [-1] && xs[1..][1..][1..] == [];
  }

  /**
   * `COUNT(*)`, the top group of each `GROUP BY ... ORDER BY count DESC LIMIT 1`,
   * and `SUM(quantity) or 0`; the sum fails with SQLite's "integer overflow".
   */
  method Statistics(rows: seq<Row>) returns (r: Result<FeedingStats, Exc>)
    ensures r.Err? <==> !RunningTotalsFit(QuantityColumn(rows))
    ensures r.Err? ==> r.error == SumOverflowError()
    ensures r.Ok? ==> r.value.totalFeedings == |rows| && r.value.totalFoodQuantity == SumInts(QuantityColumn(rows))
    ensures r.Ok? && rows == [] ==>
              r.value.mostCommonBird.None? && r.value.mostCommonFood.None? && r.value.totalFoodQuantity == 0
    ensures r.Ok? && rows != [] ==> r.value.mostCommonBird.Some? && IsMode(BirdColumn(rows), r.value.mostCommonBird.value)
    ensures r.Ok? && rows != [] ==> r.value.mostCommonFood.Some? && IsMode(FoodColumn(rows), r.value.mostCommonFood.value)
  {
    var total := SqlSum(QuantityColumn(rows));
    if total.None? {
      return Err(SumOverflowError());
    }
    if rows == [] {
      return Ok(FeedingStats(0, None, None, 0));
    }
    var bird := MostCommon(BirdColumn(rows));
    var food := MostCommon(FoodColumn(rows));
    return Ok(FeedingStats(|rows|, Some(bird), Some(food), total.value));
  }

  function OptionalValue(v: Option<Value>): Value {
    match v
    case Some(x) => x
    case None => VNull
  }

  function StatsValue(s: FeedingStats): (v: Value)
    ensures v.VObj? && v.fields.Keys == {"total_feedings", "most_common_bird", "most_common_food", "total_food_quantity"}
  {
    VObj(map["total_feedings" := VInt(s.totalFeedings),
             "most_common_bird" := OptionalValue(s.mostCommonBird),
             "most_common_food" := OptionalValue(s.mostCommonFood),
             "total_food_quantity" := VInt(s.totalFoodQuantity)])
  }

  /** The four figures read back from the `/stats` body. */
  lemma StatsValueFields(s: FeedingStats)
    ensures StatsValue(s).fields["total_feedings"] == VInt(s.totalFeedings)
    ensures StatsValue(s).fields["most_common_bird"] == OptionalValue(s.mostCommonBird)
    ensures StatsValue(s).fields["most_common_food"] == OptionalValue(s.mostCommonFood)
    ensures StatsValue(s).fields["total_food_quantity"] == VInt(s.totalFoodQuantity)
  {
    assert "total_feedings"[7] != "total_food_quantity"[7];
    assert "most_common_bird"[12] != "most_common_food"[12];
    assert "total_feedings"[0] != "most_common_bird"[0] && "total_feedings"[0] != "most_common_food"[0];
    assert "total_food_quantity"[0] != "most_common_bird"[0] && "total_food_quantity"[0] != "most_common_food"[0];
  }

  /** The JSON list the listing endpoint returns for the fetched rows. */
  function Projections(rs: seq<Row>): (list: seq<Value>)
    ensures |list| == |rs| && forall i | 0 <= i < |rs| :: list[i] == Projection(rs[i])
  {
    seq(|rs|, i requires 0 <= i < |rs| => Projection(rs[i]))
  }

  // ---------------------------------------------------------------------------
  // Database configuration

  function DefaultDbConfig(): Value {
    VObj(map["type" := VStr("sqlite"), "path" := VStr(DefaultDatabasePath)])
  }

  /** `config.get('database', {})` for a configuration some source supplied. */
  function DatabaseSection(config: Value): Result<Value, Exc> {
    Get(config, "database", VObj(map[]))
  }

  /**
   * `load_db_config()`: the `database` section of the local file when it
   * exists, else of the Nexus copy when it is served, else the default; an
   * unreadable file, or a configuration that is not a dict, gives the default.
   */
  function LoadDbConfig(local: LocalFile, fetch: string -> HttpResponse): (c: Value)
    ensures || c == DefaultDbConfig()
            || (local.Some? && local.value.Ok? && DatabaseSection(local.value.value) == Ok(c))
            || (local.None? && Served(fetch(DbConfigUrl)) && DatabaseSection(fetch(DbConfigUrl).json.value) == Ok(c))
  {
    match local
    case Some(Ok(config)) =>
      if DatabaseSection(config).Ok? then DatabaseSection(config).value else DefaultDbConfig()
    case Some(Err(_)) => DefaultDbConfig()
    case None =>
      var response := fetch(DbConfigUrl);
      if Served(response) && DatabaseSection(response.json.value).Ok? then DatabaseSection(response.json.value).value
      else DefaultDbConfig()
  }

  /** `DB_CONFIG.get('path', 'bird_feedings.db')`: the value `DATABASE` is bound to, or the error at import time. */
  function DatabaseSetting(dbConfig: Value): (r: Result<Value, Exc>)
    ensures r.Ok? <==> dbConfig.VObj?
    ensures dbConfig.VObj? && "path" in dbConfig.fields ==> r == Ok(dbConfig.fields["path"])
    ensures dbConfig.VObj? && "path" !in dbConfig.fields ==> r == Ok(VStr(FallbackDatabaseFile))
  {
    Get(dbConfig, "path", VStr(FallbackDatabaseFile))
  }

  /** The order of the configuration sources. */
  lemma {:induction false} DbConfigPrecedence(local: LocalFile, fetch: string -> HttpResponse)
    ensures local.Some? && local.value.Ok? && local.value.value.VObj? ==>
              LoadDbConfig(local, fetch) == (var m := local.value.value.fields;
                                              if "database" in m then m["database"] else VObj(map[]))
    ensures local.None? && Served(fetch(DbConfigUrl)) && fetch(DbConfigUrl).json.value.VObj? ==>
              LoadDbConfig(local, fetch) == (var m := fetch(DbConfigUrl).json.value.fields;
                                              if "database" in m then m["database"] else VObj(map[]))
    ensures local.Some? && local.value.Err? ==> LoadDbConfig(local, fetch) == DefaultDbConfig()
    ensures local.None? && !Served(fetch(DbConfigUrl)) ==> LoadDbConfig(local, fetch) == DefaultDbConfig()
  {
  }

  /**
   * Without any configuration the database is `./bird_feedings.db`; a
   * configuration without a `database` section gives `bird_feedings.db`.
   */
  lemma DatabaseSettingDefaults(local: LocalFile, fetch: string -> HttpResponse)
    ensures local.None? && !Served(fetch(DbConfigUrl)) ==>
              DatabaseSetting(LoadDbConfig(local, fetch)) == Ok(VStr(DefaultDatabasePath))
    ensures local.Some? && local.value.Ok? && local.value.value == VObj(map[]) ==>
              DatabaseSetting(LoadDbConfig(local, fetch)) == Ok(VStr(FallbackDatabaseFile))
  {
    assert "type"[0] != "path"[0];
  }
}
