/**
 * The entity transforms: each raw record is projected onto a fixed set of
 * columns, a missing source key becoming null. The customer transform also
 * flattens the nested `address` object into five top-level columns.
 */
module Transforms {
  import opened Wrappers
  import opened Json
  import opened Errors

  const AddressFields: set<string> := {"street", "city", "state", "zip_code", "country"}

  const CustomerFields: set<string> :=
    {"id", "email", "first_name", "last_name", "phone",
     "street", "city", "state", "zip_code", "country",
     "created_at", "updated_at"}

  const OrderFields: set<string> :=
    {"id", "customer_id", "order_number", "status", "total_amount", "currency",
     "order_date", "shipped_date", "delivered_date", "created_at", "updated_at"}

  const LineItemFields: set<string> :=
    {"id", "order_id", "product_id", "product_name", "quantity", "unit_price",
     "total_price", "created_at", "updated_at"}

  // ---------------------------------------------------------------------
  // Customers
  // ---------------------------------------------------------------------

  /**
   * `r.get("address", {}) or {}`, followed by the `.get` calls on it: a falsy
   * or missing address reads as an empty dict, a non-empty dict is used as it
   * is, and any other truthy value has no `.get` and raises.
   */
  function AddressOf(r: Record): (a: Result<map<string, Value>, PipelineError>)
    ensures a.Ok? <==> ("address" !in r || !Truthy(r["address"]) || r["address"].Obj?)
    ensures a.Ok? && "address" in r && r["address"].Obj? ==> a.value == r["address"].fields
    ensures a.Ok? && ("address" !in r || !r["address"].Obj?) ==> a.value == map[]
    ensures a.Err? ==> a.error.UnexpectedError?
  {
    var v := if "address" in r then r["address"] else Obj(map[]);
    var addr := if Truthy(v) then v else Obj(map[]);
    if addr.Obj? then Ok(addr.fields)
    else Err(UnexpectedError("'" + PyTypeName(addr) + "' object has no attribute 'get'"))
  }

  /** The row built for one customer record. */
  function CustomerRow(r: Record): (row: Result<Row, PipelineError>)
    ensures row.Ok? <==> AddressOf(r).Ok?
    ensures row.Err? ==> row.error == AddressOf(r).error
    ensures row.Ok? ==> row.value.Keys == CustomerFields
    ensures row.Ok? ==> forall k :: k in CustomerFields && k !in AddressFields ==> row.value[k] == Get(r, k)
    ensures row.Ok? ==> forall k :: k in AddressFields ==> row.value[k] == Get(AddressOf(r).value, k)
  {
    match AddressOf(r)
    case Err(e) => Err(e)
    case Ok(addr) =>
      Ok(map k | k in CustomerFields :: if k in AddressFields then Get(addr, k) else Get(r, k))
  }

  /**
   * What `transform_customers` returns: one row per record, in order, or the
   * error of the first record whose address cannot be read.
   */
  function CustomerRows(rs: seq<Record>): (res: Result<seq<Row>, PipelineError>)
    ensures res.Ok? <==> forall i :: 0 <= i < |rs| ==> CustomerRow(rs[i]).Ok?
    ensures res.Ok? ==> |res.value| == |rs|
    ensures res.Ok? ==> forall i :: 0 <= i < |rs| ==> res.value[i] == CustomerRow(rs[i]).value
  {
    if rs == [] then Ok([])
    else
      match CustomerRow(rs[0])
      case Err(e) => Err(e)
      case Ok(row) =>
        match CustomerRows(rs[1..])
        case Err(e) => Err(e)
        case Ok(rest) =>
          assert forall i :: 1 <= i < |rs| ==> rs[i] == rs[1..][i - 1];
          Ok([row] + rest)
  }

  /** `rows` already built in front of the outcome `res` for the remaining records. */
  function PrependRows(rows: seq<Row>, res: Result<seq<Row>, PipelineError>): Result<seq<Row>, PipelineError>
  {
    if res.Ok? then Ok(rows + res.value) else res
  }

  /** One more record: its row goes in front, or its error ends the transform. */
  lemma CustomerRowsStep(records: seq<Record>, i: nat, transformed: seq<Row>)
    requires i < |records|
    ensures PrependRows(transformed, CustomerRows(records[i..])) ==
      if CustomerRow(records[i]).Err? then Err(CustomerRow(records[i]).error)
      else PrependRows(transformed + [CustomerRow(records[i]).value], CustomerRows(records[i + 1..]))
  {
    assert records[i..][0] == records[i] && records[i..][1..] == records[i + 1..];
    var rest := CustomerRows(records[i + 1..]);
    if CustomerRow(records[i]).Ok? && rest.Ok? {
      var row := CustomerRow(records[i]).value;
      assert transformed + ([row] + rest.value) == (transformed + [row]) + rest.value;
    }
  }

  /** `transform_customers(records)`: a loop appending one row per record. */
  method TransformCustomers(records: seq<Record>) returns (result: Result<seq<Row>, PipelineError>)
    ensures result == CustomerRows(records)
  {
    var transformed: seq<Row> := [];
    var i := 0;
    assert records[0..] == records;
    assert PrependRows([], CustomerRows(records)) == CustomerRows(records) by {
      if CustomerRows(records).Ok? {
        assert [] + CustomerRows(records).value == CustomerRows(records).value;
      }
    }
    while i < |records|
      invariant 0 <= i <= |records|
      invariant CustomerRows(records) == PrependRows(transformed, CustomerRows(records[i..]))
    {
      var row := CustomerRow(records[i]);
      CustomerRowsStep(records, i, transformed);
      if row.Err? {
        result := Err(row.error);
        return;
      }
      transformed := transformed + [row.value];
      i := i + 1;
    }
    assert records[i..] == [];
    assert transformed + [] == transformed;
    result := Ok(transformed);
  }

  /** On failure the error is that of the first record whose address is unreadable. */
  lemma {:induction false} CustomerRowsFirstError(rs: seq<Record>)
    requires CustomerRows(rs).Err?
    ensures exists j :: (0 <= j < |rs| && CustomerRow(rs[j]).Err?
      && CustomerRows(rs).error == CustomerRow(rs[j]).error
      && forall i :: 0 <= i < j ==> CustomerRow(rs[i]).Ok?)
  {
    if CustomerRow(rs[0]).Err? {
      assert CustomerRows(rs).error == CustomerRow(rs[0]).error;
    } else {
      CustomerRowsFirstError(rs[1..]);
      var j :| 0 <= j < |rs[1..]| && CustomerRow(rs[1..][j]).Err?
        && CustomerRows(rs[1..]).error == CustomerRow(rs[1..][j]).error
        && forall i :: 0 <= i < j ==> CustomerRow(rs[1..][i]).Ok?;
      assert rs[j + 1] == rs[1..][j];
      forall i | 0 <= i < j + 1 ensures CustomerRow(rs[i]).Ok? {
        if i > 0 {
          assert rs[i] == rs[1..][i - 1];
        }
      }
    }
  }

  /** The address columns of a customer row, in each shape `address` can take. */
  lemma AddressFlattening(r: Record)
    ensures "address" in r && r["address"].Obj? ==>
      CustomerRow(r).Ok? && forall k :: k in AddressFields ==> CustomerRow(r).value[k] == Get(r["address"].fields, k)
    ensures "address" !in r || r["address"] == Null || r["address"] == Obj(map[]) ==>
      CustomerRow(r).Ok? && forall k :: k in AddressFields ==> CustomerRow(r).value[k] == Null
  {
  }

  /** A customer whose address is a dict gets its street and city as top-level columns. */
  lemma CustomerAddressExample(r: Record)
    requires "address" in r && r["address"].Obj?
    requires "street" in r["address"].fields && r["address"].fields["street"] == Str("123 Main St")
    requires "city" in r["address"].fields && r["address"].fields["city"] == Str("New York")
    ensures CustomerRows([r]).Ok?
    ensures CustomerRows([r]).value[0]["street"] == Str("123 Main St")
    ensures CustomerRows([r]).value[0]["city"] == Str("New York")
  {
    AddressFlattening(r);
    assert [r][0] == r;
  }

  /** The customer record of the unit test, with its five-key address. */
  lemma CustomerTestRecord()
    ensures var address := map["street" := Str("123 Main St"), "city" := Str("New York"), "state" := Str("NY"),
                               "zip_code" := Str("10001"), "country" := Str("USA")];
      var r := map["id" := Str("cust_001"), "email" := Str("john.doe@example.com"), "first_name" := Str("John"),
                   "last_name" := Str("Doe"), "phone" := Str("+1-555-0123"), "address" := Obj(address),
                   "created_at" := Str("2024-01-15T10:30:00Z"), "updated_at" := Str("2024-01-15T10:30:00Z")];
      && CustomerRows([r]).Ok?
      && CustomerRows([r]).value[0]["street"] == Str("123 Main St")
      && CustomerRows([r]).value[0]["city"] == Str("New York")
  {
    var address := map["street" := Str("123 Main St"), "city" := Str("New York"), "state" := Str("NY"),
                       "zip_code" := Str("10001"), "country" := Str("USA")];
    var r := map["id" := Str("cust_001"), "email" := Str("john.doe@example.com"), "first_name" := Str("John"),
                 "last_name" := Str("Doe"), "phone" := Str("+1-555-0123"), "address" := Obj(address),
                 "created_at" := Str("2024-01-15T10:30:00Z"), "updated_at" := Str("2024-01-15T10:30:00Z")];
    CustomerAddressExample(r);
  }

  // ---------------------------------------------------------------------
  // Orders and order line items
  // ---------------------------------------------------------------------

  function OrderRow(r: Record): (row: Row)
    ensures row.Keys == OrderFields
    ensures forall k :: k in OrderFields ==> row[k] == Get(r, k)
  {
    map k | k in OrderFields :: Get(r, k)
  }

  /** `transform_orders(records)` */
  function TransformOrders(records: seq<Record>): (rows: seq<Row>)
    ensures |rows| == |records|
    ensures forall i :: 0 <= i < |rows| ==> rows[i].Keys == OrderFields
    ensures forall i, k :: 0 <= i < |rows| && k in OrderFields ==> rows[i][k] == Get(records[i], k)
  {
    seq(|records|, i requires 0 <= i < |records| => OrderRow(records[i]))
  }

  function LineItemRow(r: Record): (row: Row)
    ensures row.Keys == LineItemFields
    ensures forall k :: k in LineItemFields ==> row[k] == Get(r, k)
  {
    map k | k in LineItemFields :: Get(r, k)
  }

  /** `transform_order_line_items(records)` */
  function TransformLineItems(records: seq<Record>): (rows: seq<Row>)
    ensures |rows| == |records|
    ensures forall i :: 0 <= i < |rows| ==> rows[i].Keys == LineItemFields
    ensures forall i, k :: 0 <= i < |rows| && k in LineItemFields ==> rows[i][k] == Get(records[i], k)
  {
    seq(|records|, i requires 0 <= i < |records| => LineItemRow(records[i]))
  }

  /** Transforming records page by page gives the same rows as transforming them all at once. */
  lemma TransformOrdersAppend(a: seq<Record>, b: seq<Record>)
    ensures TransformOrders(a + b) == TransformOrders(a) + TransformOrders(b)
  {
    var lhs, rhs := TransformOrders(a + b), TransformOrders(a) + TransformOrders(b);
    forall i | 0 <= i < |lhs| ensures lhs[i] == rhs[i] {
      if i < |a| {
        assert (a + b)[i] == a[i];
      } else {
        assert (a + b)[i] == b[i - |a|];
      }
    }
  }

  lemma TransformLineItemsAppend(a: seq<Record>, b: seq<Record>)
    ensures TransformLineItems(a + b) == TransformLineItems(a) + TransformLineItems(b)
  {
    var lhs, rhs := TransformLineItems(a + b), TransformLineItems(a) + TransformLineItems(b);
    forall i | 0 <= i < |lhs| ensures lhs[i] == rhs[i] {
      if i < |a| {
        assert (a + b)[i] == a[i];
      } else {
        assert (a + b)[i] == b[i - |a|];
      }
    }
  }

  /** The same for customers: the first error, else the concatenated rows. */
  lemma {:induction false} CustomerRowsAppend(a: seq<Record>, b: seq<Record>)
    ensures CustomerRows(a + b) ==
      if CustomerRows(a).Err? then CustomerRows(a) else PrependRows(CustomerRows(a).value, CustomerRows(b))
  {
    if a == [] {
      assert a + b == b;
      if CustomerRows(b).Ok? {
        assert [] + CustomerRows(b).value == CustomerRows(b).value;
      }
    } else {
      assert (a + b)[0] == a[0];
      assert (a + b)[1..] == a[1..] + b;
      var head := CustomerRow(a[0]);
      if head.Ok? {
        CustomerRowsAppend(a[1..], b);
        var tail := CustomerRows(a[1..]);
        if tail.Ok? && CustomerRows(b).Ok? {
          assert [head.value] + (tail.value + CustomerRows(b).value)
              == ([head.value] + tail.value) + CustomerRows(b).value;
        }
      }
    }
  }
}
