/**
 * The pipeline (`main`): customers, then orders, then order line items; each
 * stage fetches all pages, transforms, stamps and hands the batch to the
 * warehouse loader. The first failure stops the run and is re-raised.
 *
 * The loader is an external collaborator and is recorded as a call; the clock
 * read by each stamping is the parameter `clock`.
 */
module Pipeline {
  import opened Wrappers
  import opened Json
  import opened Errors
  import opened Fetch
  import opened Transforms
  import opened Metadata
  import opened Schemas

  /** Configuration read once at start-up. */
  datatype Config = Config(baseUrl: string, source: string, database: string, namespace: string)

  /** The values used when the environment sets nothing. */
  const DefaultConfig: Config := Config("https://myshop.com", "myshop_api", "RAW", "ECOMMERCE")

  datatype Entity = Customers | Orders | LineItems

  /** The stages, in the order `main` runs them. */
  const Entities: seq<Entity> := [Customers, Orders, LineItems]

  function Endpoint(e: Entity): string
  {
    match e
    case Customers => "/api/customers"
    case Orders => "/api/orders"
    case LineItems => "/api/order-line-items"
  }

  function Table(e: Entity): string
  {
    match e
    case Customers => "CUSTOMERS"
    case Orders => "ORDERS"
    case LineItems => "ORDER_LINE_ITEMS"
  }

  function SchemaOf(e: Entity): Schema
  {
    match e
    case Customers => CustomersSchema
    case Orders => OrdersSchema
    case LineItems => LineItemsSchema
  }

  /** The columns an entity's transform produces. */
  function FieldsOf(e: Entity): set<string>
  {
    match e
    case Customers => CustomerFields
    case Orders => OrderFields
    case LineItems => LineItemFields
  }

  /** The transform `main` applies to an entity's records. */
  function Transform(e: Entity, records: seq<Record>): (res: Result<seq<Row>, PipelineError>)
    ensures e != Customers ==> res.Ok?
    ensures res.Ok? ==> |res.value| == |records|
    ensures res.Ok? ==> forall i :: 0 <= i < |res.value| ==> res.value[i].Keys == FieldsOf(e)
  {
    match e
    case Customers => CustomerRows(records)
    case Orders => Ok(TransformOrders(records))
    case LineItems => Ok(TransformLineItems(records))
  }

  /** One call of `load_to_snowflake(schema, records, database, schema_name, table)`. */
  datatype LoadCall = LoadCall(schema: Schema, rows: seq<Row>, database: string, namespace: string, table: string)

  /** What a run does that can be observed from outside: HTTP requests and loader calls. */
  datatype Event = Requested(request: Request) | Loaded(call: LoadCall)

  /** One stage: the requests it made, and the load call it made or the error it raised. */
  datatype StageRun = StageRun(requests: seq<Request>, outcome: Result<LoadCall, PipelineError>)

  /** What one stage of `main` does for entity `e`. */
  function Stage(cfg: Config, src: PageSource, e: Entity, loadedAt: string, bound: int): StageRun
    requires Bounded(src, bound)
  {
    var fetch := Pages(src, FullUrl(cfg.baseUrl, Endpoint(e)), 1, 1, bound);
    if fetch.outcome.Err? then StageRun(fetch.requests, Err(fetch.outcome.error))
    else
      match Transform(e, fetch.outcome.value)
      case Err(err) => StageRun(fetch.requests, Err(err))
      case Ok(rows) =>
        StageRun(fetch.requests,
                 Ok(LoadCall(SchemaOf(e), Stamped(rows, loadedAt, cfg.source), cfg.database, cfg.namespace, Table(e))))
  }

  function StageEvents(s: StageRun): (events: seq<Event>)
  {
    seq(|s.requests|, i requires 0 <= i < |s.requests| => Requested(s.requests[i]))
      + (if s.outcome.Ok? then [Loaded(s.outcome.value)] else [])
  }

  /** A whole run: its events, and the error re-raised if it failed. */
  datatype PipelineRun = PipelineRun(events: seq<Event>, failure: Option<PipelineError>)

  /** Stage `s` followed, if it succeeded, by the run `rest` of the later stages. */
  function Continue(s: StageRun, rest: PipelineRun): PipelineRun
  {
    if s.outcome.Err? then PipelineRun(StageEvents(s), Some(s.outcome.error))
    else PipelineRun(StageEvents(s) + rest.events, rest.failure)
  }

  /** Stages run one after the other: the first failing one ends the run. */
  function Sequence(runs: seq<StageRun>): PipelineRun
  {
    if runs == [] then PipelineRun([], None) else Continue(runs[0], Sequence(runs[1..]))
  }

  /** The number of stages that succeed before the first failure. */
  function Completed(runs: seq<StageRun>): (n: nat)
    ensures n <= |runs|
    ensures forall j :: 0 <= j < n ==> runs[j].outcome.Ok?
    ensures n < |runs| ==> runs[n].outcome.Err?
  {
    if runs == [] || runs[0].outcome.Err? then 0
    else
      assert forall j :: 1 <= j < |runs| ==> runs[j] == runs[1..][j - 1];
      1 + Completed(runs[1..])
  }

  /** The events of the stages `runs`, each run to its end. */
  function AllEvents(runs: seq<StageRun>): seq<Event>
  {
    if runs == [] then [] else StageEvents(runs[0]) + AllEvents(runs[1..])
  }

  /** The loader calls among `events`, in order. */
  function Loads(events: seq<Event>): seq<LoadCall>
  {
    if events == [] then []
    else (if events[0].Loaded? then [events[0].call] else []) + Loads(events[1..])
  }

  /** The three stages of `main`, each with the timestamp its `add_metadata` reads. */
  function Stages(cfg: Config, src: PageSource, clock: Entity -> string, bound: int): (runs: seq<StageRun>)
    requires Bounded(src, bound)
    ensures |runs| == |Entities|
    ensures forall j :: 0 <= j < |runs| ==> runs[j] == Stage(cfg, src, Entities[j], clock(Entities[j]), bound)
  {
    [Stage(cfg, src, Customers, clock(Customers), bound),
     Stage(cfg, src, Orders, clock(Orders), bound),
     Stage(cfg, src, LineItems, clock(LineItems), bound)]
  }

  /** What `main()` does. */
  function Main(cfg: Config, src: PageSource, clock: Entity -> string, bound: int): PipelineRun
    requires Bounded(src, bound)
  {
    Sequence(Stages(cfg, src, clock, bound))
  }

  // ---------------------------------------------------------------------
  // The methods
  // ---------------------------------------------------------------------

  /** One block of `main`: fetch, transform, `add_metadata`, load. */
  method RunStage(cfg: Config, src: PageSource, e: Entity, loadedAt: string, ghost bound: int)
    returns (outcome: Result<LoadCall, PipelineError>, requests: seq<Request>)
    requires Bounded(src, bound)
    ensures StageRun(requests, outcome) == Stage(cfg, src, e, loadedAt, bound)
  {
    var fetched;
    fetched, requests := FetchAll(cfg.baseUrl, Endpoint(e), src, bound);
    if fetched.Err? {
      outcome := Err(fetched.error);
      return;
    }
    var rows: Result<seq<Row>, PipelineError>;
    match e {
      case Customers => rows := TransformCustomers(fetched.value);
      case Orders => rows := Ok(TransformOrders(fetched.value));
      case LineItems => rows := Ok(TransformLineItems(fetched.value));
    }
    if rows.Err? {
      outcome := Err(rows.error);
      return;
    }
    var built := rows.value;
    var batch := new Row[|built|](i requires 0 <= i < |built| => built[i]);
    assert batch[..] == built;
    batch := AddMetadata(batch, loadedAt, cfg.source);
    outcome := Ok(LoadCall(SchemaOf(e), batch[..], cfg.database, cfg.namespace, Table(e)));
  }

  /** `main()`: the three stages in order; the first error ends the run and is re-raised. */
  method Run(cfg: Config, src: PageSource, clock: Entity -> string, ghost bound: int)
    returns (events: seq<Event>, failure: Option<PipelineError>)
    requires Bounded(src, bound)
    ensures PipelineRun(events, failure) == Main(cfg, src, clock, bound)
  {
    var loaded, requests := RunStage(cfg, src, Customers, clock(Customers), bound);
    var customers := StageRun(requests, loaded);
    events := StageEvents(customers);
    if loaded.Err? {
      failure := Some(loaded.error);
      return;
    }

    loaded, requests := RunStage(cfg, src, Orders, clock(Orders), bound);
    var orders := StageRun(requests, loaded);
    events := events + StageEvents(orders);
    if loaded.Err? {
      failure := Some(loaded.error);
      SequenceOfThree(customers, orders, StageRun([], Err(UnexpectedError(""))));
      assert Sequence([customers, orders, Stage(cfg, src, LineItems, clock(LineItems), bound)])
          == Sequence([customers, orders, StageRun([], Err(UnexpectedError("")))]);
      return;
    }

    loaded, requests := RunStage(cfg, src, LineItems, clock(LineItems), bound);
    var items := StageRun(requests, loaded);
    events := events + StageEvents(items);
    failure := if loaded.Err? then Some(loaded.error) else None;
    SequenceOfThree(customers, orders, items);
  }

  /** `Sequence` on three stages, written out. */
  lemma SequenceOfThree(a: StageRun, b: StageRun, c: StageRun)
    ensures Sequence([a, b, c]) ==
      if a.outcome.Err? then PipelineRun(StageEvents(a), Some(a.outcome.error))
      else if b.outcome.Err? then PipelineRun(StageEvents(a) + StageEvents(b), Some(b.outcome.error))
      else PipelineRun(StageEvents(a) + StageEvents(b) + StageEvents(c),
                       if c.outcome.Err? then Some(c.outcome.error) else None)
  {
    assert [a, b, c][1..] == [b, c] && [b, c][1..] == [c] && [c][1..] == [];
    var none: seq<StageRun> := [];
    assert Sequence(none) == PipelineRun([], None);
    assert [c][1..] == none && [c][0] == c;
    var last := Sequence([c]);
    assert last == Continue(c, Sequence(none));
    assert StageEvents(c) + [] == StageEvents(c);
    assert last == PipelineRun(StageEvents(c), if c.outcome.Err? then Some(c.outcome.error) else None);
    assert Sequence([b, c]) == Continue(b, last);
    assert Sequence([a, b, c]) == Continue(a, Sequence([b, c]));
    assert StageEvents(a) + (StageEvents(b) + StageEvents(c)) == StageEvents(a) + StageEvents(b) + StageEvents(c);
  }

  // ---------------------------------------------------------------------
  // Properties of a stage
  // ---------------------------------------------------------------------

  /** A row after transform and stamping has exactly the columns of the schema it is loaded with. */
  lemma SchemaMatchesStampedRows(e: Entity)
    ensures ColumnNames(SchemaOf(e)) == FieldsOf(e) + MetadataFields
  {
    match e
    case Customers => CustomersSchemaColumns();
    case Orders => OrdersSchemaColumns();
    case LineItems => LineItemsSchemaColumns();
  }

  /**
   * A stage fails exactly when its fetch or its transform fails, with that
   * error; otherwise it loads once, into its own table with its own schema.
   */
  lemma StageOutcome(cfg: Config, src: PageSource, e: Entity, loadedAt: string, bound: int)
    requires Bounded(src, bound)
    ensures var fetch := Pages(src, FullUrl(cfg.baseUrl, Endpoint(e)), 1, 1, bound);
      var s := Stage(cfg, src, e, loadedAt, bound);
      && s.requests == fetch.requests
      && (fetch.outcome.Err? ==> s.outcome == Err(fetch.outcome.error))
      && (fetch.outcome.Ok? && Transform(e, fetch.outcome.value).Err? ==>
            s.outcome == Err(Transform(e, fetch.outcome.value).error))
      && (s.outcome.Ok? <==> fetch.outcome.Ok? && Transform(e, fetch.outcome.value).Ok?)
      && (s.outcome.Ok? ==>
            && s.outcome.value.schema == SchemaOf(e)
            && s.outcome.value.table == Table(e)
            && s.outcome.value.database == cfg.database
            && s.outcome.value.namespace == cfg.namespace
            && |s.outcome.value.rows| == |fetch.outcome.value|)
  {
  }

  /**
   * Every row a stage loads has exactly the columns of the schema it is loaded
   * with, the one `_loaded_at` of the stage and the configured `_source`.
   */
  lemma StageRows(cfg: Config, src: PageSource, e: Entity, loadedAt: string, bound: int)
    requires Bounded(src, bound)
    ensures Stage(cfg, src, e, loadedAt, bound).outcome.Ok? ==>
      forall i :: 0 <= i < |Stage(cfg, src, e, loadedAt, bound).outcome.value.rows| ==>
        && Stage(cfg, src, e, loadedAt, bound).outcome.value.rows[i].Keys
             == ColumnNames(Stage(cfg, src, e, loadedAt, bound).outcome.value.schema)
        && Stage(cfg, src, e, loadedAt, bound).outcome.value.rows[i][LoadedAt] == Str(loadedAt)
        && Stage(cfg, src, e, loadedAt, bound).outcome.value.rows[i][Source] == Str(cfg.source)
  {
    SchemaMatchesStampedRows(e);
  }

  /** Orders and line items never fail after their fetch. */
  lemma OnlyFetchFailsOrders(cfg: Config, src: PageSource, e: Entity, loadedAt: string, bound: int)
    requires Bounded(src, bound)
    requires e != Customers
    ensures Stage(cfg, src, e, loadedAt, bound).outcome.Err? <==>
      Pages(src, FullUrl(cfg.baseUrl, Endpoint(e)), 1, 1, bound).outcome.Err?
  {
  }

  // ---------------------------------------------------------------------
  // Properties of a run
  // ---------------------------------------------------------------------

  lemma {:induction false} LoadsAppend(a: seq<Event>, b: seq<Event>)
    ensures Loads(a + b) == Loads(a) + Loads(b)
  {
    if a == [] {
      assert a + b == b;
    } else {
      assert (a + b)[0] == a[0] && (a + b)[1..] == a[1..] + b;
      LoadsAppend(a[1..], b);
    }
  }

  /** A stage's only loader call is its own, and only when it succeeds. */
  lemma {:induction false} LoadsOfStage(s: StageRun)
    ensures Loads(StageEvents(s)) == if s.outcome.Ok? then [s.outcome.value] else []
  {
    var reqs := seq(|s.requests|, i requires 0 <= i < |s.requests| => Requested(s.requests[i]));
    NoLoadsInRequests(reqs);
    LoadsAppend(reqs, if s.outcome.Ok? then [Loaded(s.outcome.value)] else []);
    if s.outcome.Ok? {
      var tail := [Loaded(s.outcome.value)];
      assert tail[1..] == [];
      assert Loads(tail) == [s.outcome.value] + Loads(tail[1..]);
    }
  }

  lemma {:induction false} NoLoadsInRequests(evs: seq<Event>)
    requires forall i :: 0 <= i < |evs| ==> evs[i].Requested?
    ensures Loads(evs) == []
  {
    if evs != [] {
      NoLoadsInRequests(evs[1..]);
    }
  }

  /**
   * Fail-fast, for any list of stages: with n the number of stages that
   * succeed before the first failure, the run re-raises the error of stage n
   * (none if all succeed), its events are those of stages 0..n and nothing
   * later, and its loader calls are exactly the calls of stages 0..n-1, in
   * order.
   */
  lemma {:induction false} SequenceFailsFast(runs: seq<StageRun>)
    ensures Sequence(runs).failure ==
      if Completed(runs) < |runs| then Some(runs[Completed(runs)].outcome.error) else None
    ensures Sequence(runs).events ==
      AllEvents(runs[..if Completed(runs) < |runs| then Completed(runs) + 1 else Completed(runs)])
    ensures |Loads(Sequence(runs).events)| == Completed(runs)
    ensures forall j :: 0 <= j < Completed(runs) ==> Loads(Sequence(runs).events)[j] == runs[j].outcome.value
  {
    if runs == [] {
      assert runs[..0] == [];
    } else {
      var s := runs[0];
      LoadsOfStage(s);
      if s.outcome.Err? {
        assert runs[..1] == [s] && [s][1..] == [];
        assert StageEvents(s) + [] == StageEvents(s);
      } else {
        var rest := runs[1..];
        SequenceFailsFast(rest);
        var n := Completed(rest);
        assert Completed(runs) == n + 1;
        var m := if n < |rest| then n + 1 else n;
        assert runs[..m + 1][0] == s && runs[..m + 1][1..] == rest[..m];
        forall j | 0 <= j < |rest| ensures rest[j] == runs[j + 1] { }
        LoadsAppend(StageEvents(s), Sequence(rest).events);
        var loads := Loads(Sequence(runs).events);
        assert loads == [s.outcome.value] + Loads(Sequence(rest).events);
        forall j | 1 <= j < n + 1 ensures loads[j] == runs[j].outcome.value {
          assert loads[j] == Loads(Sequence(rest).events)[j - 1];
        }
      }
    }
  }

  /** `main` succeeds iff all three stages do. */
  lemma MainSucceeds(cfg: Config, src: PageSource, clock: Entity -> string, bound: int)
    requires Bounded(src, bound)
    ensures Main(cfg, src, clock, bound).failure.None? <==>
      forall j :: 0 <= j < |Entities| ==> Stage(cfg, src, Entities[j], clock(Entities[j]), bound).outcome.Ok?
  {
    var runs := Stages(cfg, src, clock, bound);
    SequenceFailsFast(runs);
  }

  /**
   * `main` on success: customers, orders, line items loaded once each, in that
   * order, into their tables with their schemas, in the configured database
   * and namespace.
   */
  lemma MainLoadsInOrder(cfg: Config, src: PageSource, clock: Entity -> string, bound: int)
    requires Bounded(src, bound)
    requires Main(cfg, src, clock, bound).failure.None?
    ensures |Loads(Main(cfg, src, clock, bound).events)| == 3
    ensures forall j :: 0 <= j < 3 ==>
      && Loads(Main(cfg, src, clock, bound).events)[j].table == Table(Entities[j])
      && Loads(Main(cfg, src, clock, bound).events)[j].schema == SchemaOf(Entities[j])
      && Loads(Main(cfg, src, clock, bound).events)[j].database == cfg.database
      && Loads(Main(cfg, src, clock, bound).events)[j].namespace == cfg.namespace
  {
    var runs := Stages(cfg, src, clock, bound);
    SequenceFailsFast(runs);
    forall j | 0 <= j < 3
      ensures && Loads(Main(cfg, src, clock, bound).events)[j].table == Table(Entities[j])
              && Loads(Main(cfg, src, clock, bound).events)[j].schema == SchemaOf(Entities[j])
              && Loads(Main(cfg, src, clock, bound).events)[j].database == cfg.database
              && Loads(Main(cfg, src, clock, bound).events)[j].namespace == cfg.namespace
    {
      StageOutcome(cfg, src, Entities[j], clock(Entities[j]), bound);
    }
  }

  /** The tables of a successful `main`, in load order. */
  lemma MainTables()
    ensures Table(Entities[0]) == "CUSTOMERS" && SchemaOf(Entities[0]) == CustomersSchema
    ensures Table(Entities[1]) == "ORDERS" && SchemaOf(Entities[1]) == OrdersSchema
    ensures Table(Entities[2]) == "ORDER_LINE_ITEMS" && SchemaOf(Entities[2]) == LineItemsSchema
  {
  }

  /**
   * `main` on failure: the error of the first failing stage is re-raised, and
   * nothing after it is fetched or loaded.
   */
  lemma MainFailsFast(cfg: Config, src: PageSource, clock: Entity -> string, bound: int, k: nat)
    requires Bounded(src, bound)
    requires k < 3
    requires forall j :: 0 <= j < k ==> Stage(cfg, src, Entities[j], clock(Entities[j]), bound).outcome.Ok?
    requires Stage(cfg, src, Entities[k], clock(Entities[k]), bound).outcome.Err?
    ensures Main(cfg, src, clock, bound).failure == Some(Stage(cfg, src, Entities[k], clock(Entities[k]), bound).outcome.error)
    ensures Main(cfg, src, clock, bound).events == AllEvents(Stages(cfg, src, clock, bound)[..k + 1])
    ensures |Loads(Main(cfg, src, clock, bound).events)| == k
  {
    var runs := Stages(cfg, src, clock, bound);
    SequenceFailsFast(runs);
    assert Completed(runs) == k;
  }

  /**
   * Every row `main` loads has exactly the columns of the schema it is loaded
   * with, the `_loaded_at` of its stage and the configured `_source`.
   */
  lemma MainLoadedRows(cfg: Config, src: PageSource, clock: Entity -> string, bound: int)
    requires Bounded(src, bound)
    ensures |Loads(Main(cfg, src, clock, bound).events)| <= |Entities|
    ensures forall j, i ::
      0 <= j < |Loads(Main(cfg, src, clock, bound).events)| &&
      0 <= i < |Loads(Main(cfg, src, clock, bound).events)[j].rows| ==>
      && Loads(Main(cfg, src, clock, bound).events)[j].rows[i].Keys
           == ColumnNames(Loads(Main(cfg, src, clock, bound).events)[j].schema)
      && Loads(Main(cfg, src, clock, bound).events)[j].rows[i].Keys == FieldsOf(Entities[j]) + MetadataFields
    ensures forall j, i ::
      0 <= j < |Loads(Main(cfg, src, clock, bound).events)| &&
      0 <= i < |Loads(Main(cfg, src, clock, bound).events)[j].rows| ==>
      && Loads(Main(cfg, src, clock, bound).events)[j].rows[i][LoadedAt] == Str(clock(Entities[j]))
      && Loads(Main(cfg, src, clock, bound).events)[j].rows[i][Source] == Str(cfg.source)
  {
    var runs := Stages(cfg, src, clock, bound);
    SequenceFailsFast(runs);
    var loads := Loads(Main(cfg, src, clock, bound).events);
    forall j | 0 <= j < |loads|
      ensures forall i :: 0 <= i < |loads[j].rows| ==>
        && loads[j].rows[i].Keys == ColumnNames(loads[j].schema)
        && loads[j].rows[i].Keys == FieldsOf(Entities[j]) + MetadataFields
        && loads[j].rows[i][LoadedAt] == Str(clock(Entities[j]))
        && loads[j].rows[i][Source] == Str(cfg.source)
    {
      StageOutcome(cfg, src, Entities[j], clock(Entities[j]), bound);
      StageRows(cfg, src, Entities[j], clock(Entities[j]), bound);
      SchemaMatchesStampedRows(Entities[j]);
    }
  }

  /** With the default configuration the customer pages are requested from the shop's own URL. */
  lemma DefaultCustomersUrl()
    ensures FullUrl(DefaultConfig.baseUrl, Endpoint(Customers)) == "https://myshop.com/api/customers"
  {
    FullUrlNoSlash(DefaultConfig.baseUrl, Endpoint(Customers));
  }
}
