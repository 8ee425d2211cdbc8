# snowflake_data_loader, modelled in Dafny

This project models the extract-transform-load job in `data_loader.py`. The
job pulls customers, orders and order line items from a paginated shop API.
It projects each raw record onto a fixed set of columns, flattening the
customer's nested address. It stamps every row with a load timestamp and a
source tag, and hands each batch to the warehouse loader together with the
matching table schema.

The modules follow the program's parts:

- `Wrappers`: Option and Result.
- `Json`: decoded JSON values, records as string-keyed maps, `dict.get` and Python truthiness.
- `Errors`: the two kinds of failure of a run. A network error carries the URL. An unexpected error covers the customer transform meeting an address it cannot read.
- `Fetch`: `fetch_all`.
  - The HTTP layer is a *page source*: a total function from a request (URL, page, page size) to a network failure or a decoded payload. A payload's `data` and `pagination` may be missing.
  - `FetchAll` is the imperative loop. It returns the records, or the error, and the log of requests it made.
  - The recursive function `Pages` is its specification.
- `Transforms`: `transform_customers` as a loop method specified by `CustomerRows`, and the two comprehension-style transforms as functions.
- `Metadata`: `add_metadata` as an in-place method on an array of rows, specified by `Stamped`.
- `Schemas`: the three table schemas as ordered column lists.
- `Pipeline`: `main`.
  - A stage fetches, transforms, stamps and loads.
  - `Sequence` runs stages in order and stops at the first failure.
  - `Run` is the straight-line method with early returns, proved equal to `Main`.
  - The observable behaviour is the sequence of events: the HTTP requests and the loader calls.

## Model

| member | source | states |
|---|---|---|
| Fetch.RStrip | data_loader.py:41 | `s.rstrip(c)` is a prefix of `s` that does not end in `c`, and every character removed is `c` |
| Fetch.RStripIdempotent | data_loader.py:41 | stripping twice is the same as stripping once |
| Fetch.FullUrlShape | data_loader.py:41 | the full URL is the endpoint after a prefix of the base that does not end in `/`; every character of the base after that prefix is `/` |
| Fetch.FullUrlNoSlash | data_loader.py:41 | a base URL without a trailing slash is used unchanged in front of the endpoint |
| Fetch.FullUrlTrailingSlashes | data_loader.py:41 | any number of trailing slashes on the base URL gives the same full URL as none |
| Fetch.FetchAll | data_loader.py:35-68 | the loop's records or error, and the requests it issued, are exactly those of the page-by-page specification `Pages` from page 1 with a page count of 1 |
| Fetch.AlwaysRequestsFirstPage | data_loader.py:44-47 | every fetch issues at least one request, and the first is for page 1 with 100 per page at the full URL |
| Fetch.RequestsAreConsecutive | data_loader.py:49-53 | the i-th request asks for page `page + i` at the same URL with 100 per page, so pages go in increasing order and none repeats |
| Fetch.LastSeenTotalGoverns | data_loader.py:47 | no request is made when page > total; every response except the last was received and reported a `total_pages` above its page; the last one failed or reported a `total_pages` below the next page |
| Fetch.OutcomeOfPages | data_loader.py:48-63 | the fetch succeeds iff every issued request was answered. It then returns the answers' `data` concatenated in request order; a missing `data` counts as empty. Otherwise the last request is the one that failed, nothing after it is requested, and the error is a network error carrying the URL and its cause |
| Fetch.UniformTotalPages | data_loader.py:43-65 | if pages 1..N all report `total_pages` = N, then exactly N requests are made, for pages 1..N in order, and the result is their data concatenated, without deduplication |
| Fetch.EmptySinglePage | test_data_loader.py:48-68 | an empty first page reporting one page gives `[]` after exactly one request |
| Fetch.FirstRequestFails | test_data_loader.py:41-45 | a network failure on the first request raises the network error after that single request |
| Transforms.AddressOf | data_loader.py:90 | `r.get("address", {}) or {}`: a missing or falsy address reads as an empty map, and a dict is used as it is. Any other truthy value cannot be read and raises an unexpected error |
| Transforms.CustomerRow | data_loader.py:91-105 | a customer row has exactly the twelve customer columns. The five address columns come from the address and the others are copied from the record; an absent key gives null. The row fails iff the address cannot be read, with that error |
| Transforms.CustomerRows | data_loader.py:83-107 | the transform succeeds iff every record's row does; then it returns one row per record, in order, row i built from record i alone |
| Transforms.TransformCustomers | data_loader.py:88-107 | the append loop returns exactly `CustomerRows` of its input |
| Transforms.CustomerRowsFirstError | data_loader.py:89-91 | on failure the error is that of the first record whose address cannot be read, and every earlier record succeeds |
| Transforms.AddressFlattening | data_loader.py:90-104 | with a dict address the five address columns are its values. With the address absent, null or empty they are all null |
| Transforms.CustomerAddressExample | test_data_loader.py:8-28 | a record whose address is a dict holding, among any other keys, street "123 Main St" and city "New York" gives a row with those two values as top-level columns |
| Transforms.CustomerTestRecord | test_data_loader.py:9-28 | the unit test's own customer record, with its five-key address, transforms without error into a row whose street is "123 Main St" and whose city is "New York" |
| Transforms.CustomerRowsAppend | data_loader.py:88-107 | transforming two batches joined gives the first batch's error, or else its rows followed by the outcome of the second batch |
| Transforms.OrderRow | data_loader.py:112-124 | an order row has exactly the eleven order columns, each the record's value or null |
| Transforms.TransformOrders | data_loader.py:110-126 | one row per record, in order; row i has exactly the order columns, projected from record i |
| Transforms.TransformOrdersAppend | data_loader.py:110-126 | transforming two batches joined is joining their transforms |
| Transforms.LineItemRow | data_loader.py:131-141 | a line-item row has exactly the nine line-item columns, each the record's value or null |
| Transforms.TransformLineItems | data_loader.py:129-143 | one row per record, in order; row i has exactly the line-item columns, projected from record i |
| Transforms.TransformLineItemsAppend | data_loader.py:129-143 | transforming two batches joined is joining their transforms |
| Metadata.StampRow | data_loader.py:76-77 | a stamped row has the row's keys plus `_loaded_at` and `_source`, holding the given timestamp and source; every other column is unchanged |
| Metadata.Stamped | data_loader.py:73-78 | stamping keeps the batch length. Every row gets the same `_loaded_at` and `_source`, and every other key and value is kept |
| Metadata.AddMetadata | data_loader.py:73-78 | the in-place loop leaves the array holding `Stamped` of its old contents and returns that same array |
| Metadata.StampRowOverwrites | data_loader.py:76-77 | stamping a stamped row again overwrites: the last stamp wins |
| Metadata.StampedOverwrites | data_loader.py:76-77 | re-stamping a batch overwrites rather than adds columns. With the same values it changes nothing, and each row keeps its size; a single stamping leaves both metadata keys present in every row, as test_data_loader.py:32-37 checks |
| Schemas.CustomersSchemaColumns | data_loader.py:148-163 | the customers schema's column names are the customer columns plus the two metadata columns |
| Schemas.OrdersSchemaColumns | data_loader.py:165-179 | the orders schema's column names are the order columns plus the two metadata columns |
| Schemas.LineItemsSchemaColumns | data_loader.py:181-193 | the line-items schema's column names are the line-item columns plus the two metadata columns |
| Pipeline.Transform | data_loader.py:204-230 | the transform `main` applies at lines 204, 217 and 230: only the customer transform can fail; on success there is one row per record, each with exactly its entity's columns |
| Pipeline.SchemaMatchesStampedRows | data_loader.py:205-208 | for every entity, the column names of the schema it is loaded with are its transform's columns plus `_loaded_at` and `_source` |
| Pipeline.StageOutcome | data_loader.py:203-213 | a stage issues exactly its fetch's requests. It fails iff its fetch or its transform fails, with that error. Otherwise it makes one loader call with its own schema and table and the configured database and namespace, carrying one row per fetched record |
| Pipeline.StageRows | data_loader.py:204-212 | every row a stage loads has exactly its schema's columns, the stage's one `_loaded_at` and the configured `_source` |
| Pipeline.OnlyFetchFailsOrders | data_loader.py:216-218 | the orders and line-items stages fail iff their fetch fails |
| Pipeline.RunStage | data_loader.py:203-213 | one block of `main` (fetch, transform, copy into a batch, stamp in place) returns exactly the stage's outcome and requests |
| Pipeline.Completed | data_loader.py:201-248 | the number of leading stages that succeed: all stages before it succeed, and the stage at it, if any, fails |
| Pipeline.SequenceFailsFast | data_loader.py:201-248 | for any list of stages with n leading successes: the run re-raises stage n's error, or none. Its events are those of stages 0..n and nothing later. Its loader calls are exactly stages 0..n-1's, in order |
| Pipeline.Run | data_loader.py:198-250 | the straight-line `main` with early returns produces exactly the events and failure of `Main` |
| Pipeline.MainSucceeds | data_loader.py:201-250 | `main` completes without error iff all three stages succeed |
| Pipeline.MainLoadsInOrder | data_loader.py:201-239 | a successful `main` calls the loader exactly three times, in entity order. Each call uses that entity's table and schema and the configured database and namespace |
| Pipeline.MainTables | data_loader.py:207-239 | the tables and schemas in load order are CUSTOMERS, ORDERS, ORDER_LINE_ITEMS with their respective schemas |
| Pipeline.MainFailsFast | data_loader.py:241-248 | if stage k is the first to fail, `main` re-raises its error. Nothing after stage k is requested or loaded, and exactly k loads happened |
| Pipeline.MainLoadedRows | data_loader.py:205-239 | every row `main` loads has exactly the columns of the schema it is loaded with (its entity's columns plus the metadata columns), the `_loaded_at` of its stage and the configured `_source` |
| Pipeline.DefaultCustomersUrl | data_loader.py:10 | with the default base URL, customers are requested from `https://myshop.com/api/customers` |

## Left out

- Logging (`logger.info`/`logger.error`) is a side effect only and is not modelled.
- `requests.get`, `raise_for_status`, the timeout and `resp.json()` are replaced by the page source. A 4xx/5xx status, a timeout or a connection error is one `NetworkFailure`. A final 1xx/3xx response, which `raise_for_status` lets through, is not modelled separately; the page source gives it as a received payload or a failure.
- Payload shapes outside the payload type are not modelled: a body that is not valid JSON or not an object, a `data` value that is not a list of objects, and a `total_pages` that is not an integer or is null. In the source some of these raise a non-network error (invalid JSON, a null `total_pages` compared with `page`). Others run on without an error: a float or bool `total_pages` is compared with `page` as a number, an empty dict or string `data` adds nothing, and a non-empty one adds its keys or characters and fails only later in the transform.
- A `pagination` value of null (`None.get` would raise) is not modelled. A missing `pagination` is modelled and defaults to one page.
- The clock (`datetime.now(...).strftime(...)`) is a parameter. `main` receives one timestamp per stage through `clock`; the timestamp format is not modelled.
- Environment configuration (`os.getenv`) is the `Config` value. `DefaultConfig` holds the defaults.
- `load_to_snowflake` is an external collaborator and is recorded as a `Loaded` event with its five arguments. It is assumed not to raise, and its return value is unused.
- The network error carries the URL and the cause, not the formatted message text.
- Fetch.FetchAll: stated only for page sources whose reported `total_pages` stay below a bound (`Bounded`). The source loop does not terminate against a server that keeps raising its page count.
- Metadata.AddMetadata: works on an array of row values. The aliasing of Python dicts, where the caller's row objects are mutated, is not modelled.
- Dict key order of the rows is not modelled: rows are maps. The schemas keep their column order.
- Floats are modelled as reals, without precision.
- The unittest/mock scaffolding is not modelled. The tests' scenarios are stated as lemmas: `EmptySinglePage`, `FirstRequestFails`, `CustomerAddressExample`, `CustomerTestRecord`.
