# Product observations as InfluxDB points

This project models how the grocery price database's InfluxDB writer turns one product
observation (a `ProductInfo` record: identifier, name, description, store, department,
location, current price in cents, previous price in cents, weight in grams, timestamp)
into a time-series point, and how it submits one point per write call.

- `product_point.dfy`, module `ProductPoint`: the pure translation. A point has the
  measurement (table) name, a tag map with exactly `id`, `name`, `store`, `location` and
  `department` copied verbatim from the record, and an integer field map with `cents`
  and `grams`, plus `cents_change` (current minus previous price, signed) only when the
  two prices differ.
- `influxdb.dfy`, module `InfluxWriter`: the `InfluxDB` writer as a class. The store
  client is replaced by a log field `written`; `WriteProductDatapoint` appends exactly the
  one translated point to it.
- `write_scenario.dfy`, module `WriteScenario`: writing records one after another, as the
  integration test does with three observations of the same product; the log grows by
  one point per record in input order.

The measurement name, which the writer reads from the `INFLUXDB_DATABASE` environment
variable on every call, is a parameter `table`. The point's time is the clock reading
taken at write time (`time.Now()` in the source), a parameter `now`; it is never the
record's own `Timestamp`.

Where the code and the repository's own test and comments disagree, the model follows
the code:

- Zero previous price: the commented-out expectations of the integration test
  (`internal/databases/influxdb/influxdb_test.go:156-171`) reject a `cents_change` field
  on the first point, whose previous price is 0. The code
  (`internal/databases/influxdb/influxdb.go:67`) tests only
  `PriceCents != PreviousPriceCents`, so it emits one; the model gives that first
  observation a `cents_change` of 100 (`ZeroPreviousPriceStillChanges`,
  `TestWriteProductDatapoint`).
- Point timestamp: the test's `compare` (`influxdb_test.go:42`) matches the record's
  `Timestamp` against the stored `time`. The code stamps the point with `time.Now()`
  (`influxdb.go:71`), so the model carries the write-time clock reading, not the record's.
- Table names: the writer's `productTable` and `systemTable` fields (`influxdb.go:16-17`)
  and the comment asking whether everything writes to the same table (`influxdb.go:20`)
  point to separate tables, and the test queries the table named by
  `INFLUXDB_PRODUCT_TABLE` (`influxdb_test.go:48`, `133`). The code writes to the table
  named by `INFLUXDB_DATABASE` (`influxdb.go:54`) and never sets or reads the two fields.
  The test's count of three (`influxdb_test.go:146`) is of rows its query returns, which
  holds only if the two variables name the same table; the model's count of three in
  `TestWriteProductDatapoint` is of points handed to the store client.

## Model

| member | source | states |
|---|---|---|
| ProductPoint.Tags | internal/databases/influxdb/influxdb.go:55-61 | the tag keys are exactly id, name, store, location, department, each mapped verbatim to the record's member (empty strings included) |
| ProductPoint.Fields | internal/databases/influxdb/influxdb.go:62-69 | `cents` is the price and `grams` the weight, always; `cents_change` is present if and only if the price differs from the previous price, and then equals price minus previous price, signed; no other key appears |
| ProductPoint.BuildProductPoint | internal/databases/influxdb/influxdb.go:54-71 | the point's measurement is the supplied table name and its time is the write-time clock reading, neither taken from the record |
| ProductPoint.TagsAndFieldsDisjoint | internal/databases/influxdb/influxdb.go:55-69 | tag keys and field keys never overlap |
| ProductPoint.FieldCount | internal/databases/influxdb/influxdb.go:62-69 | the field map has 3 entries when the price changed and 2 otherwise |
| ProductPoint.PointShape | internal/databases/influxdb/influxdb.go:55-69 | every point has 5 tags, 2 or 3 fields drawn from cents, grams, cents_change, and disjoint tag and field keys |
| ProductPoint.PointIgnoresUntranslatedMembers | internal/databases/influxdb/influxdb.go:54-71 | records that agree on the eight translated members give the same point: description and the record's timestamp reach neither map, and the translation is a function of its inputs |
| ProductPoint.UnchangedPriceHasNoChangeField | internal/databases/influxdb/influxdb.go:67-69 | an unchanged price leaves `cents_change` absent (not zero): the fields are just cents and grams |
| ProductPoint.ZeroPreviousPriceStillChanges | internal/databases/influxdb/influxdb.go:67-68 | a previous price of 0 is not treated as missing: a non-zero price gets `cents_change` equal to the whole price |
| InfluxWriter.InfluxDB.constructor | internal/databases/influxdb/influxdb_test.go:45-49 | a freshly initialised writer has submitted nothing |
| InfluxWriter.InfluxDB.WriteProductDatapoint | internal/databases/influxdb/influxdb.go:71-74 | one call appends exactly one point, the translation of the record, and leaves earlier submissions untouched |
| WriteScenario.Points | internal/databases/influxdb/influxdb_test.go:127-129 | writing n records yields exactly n points |
| WriteScenario.PointsAt | internal/databases/influxdb/influxdb_test.go:127-129 | the k-th point is the translation of the k-th record: input order is kept |
| WriteScenario.PointsSnoc | internal/databases/influxdb/influxdb_test.go:127-129 | writing one more record extends the earlier points by exactly its own point |
| WriteScenario.PointsAppend | internal/databases/influxdb/influxdb.go:71-74 | composition of in-order writing: since each write depends only on its own record and clock reading, the points of a concatenated batch are the first batch's points followed by the second's |
| WriteScenario.WriteEach | internal/databases/influxdb/influxdb_test.go:127-129 | the loop of writes extends the log by exactly the records' points, in input order, leaving earlier entries alone |
| WriteScenario.TestWriteProductDatapoint | internal/databases/influxdb/influxdb_test.go:95-148 | three writes give exactly three points, in order, with the test product's tags and fields {cents 100, grams 1000, cents_change 100}, {101, 1000, +1}, {99, 1000, -2} |

## Left out

- `Init` (`internal/databases/influxdb/influxdb.go:22-35`): it only builds a network client through the InfluxDB library, a foreign call; the model's constructor stands for a writer whose client was built successfully.
- Loading `.env.test` and reading `INFLUXDB_DATABASE` (`influxdb.go:52-54`): environment I/O; the table name is a parameter.
- The point's timestamp comes from the wall clock; it is a parameter and nothing is proved about its value beyond being carried into the point.
- The `WritePoints` network call and the error it returns, which the source discards (`influxdb.go:74`): the model keeps only the appended point; transmission, batching and failure are not modelled.
- `WriteArbitrarySystemDatapoint`, `WriteSystemDatapoint`, `WriteWorker` and `Close` (`influxdb.go:77-115`): their bodies are empty or commented out, so there is no behaviour to model (no stream-draining worker, flush or `service` tag exists in the code).
- `shared.ProductInfo` is not part of this model; the `ProductInfo` datatype declares only the members the writer and the test use.
- Go's fixed-width integers: prices, weights and the price change are unbounded integers, so a wrap-around of `PriceCents - PreviousPriceCents` at the limits of Go's `int` is not modelled.
- The integration test's directory search, live query and `compare` (`influxdb_test.go:18-43`, `133-145`): file-system and database I/O; of the test only the writes and the field values are modelled, and the count of three is a count of points handed to the client, not of rows a query returns.
