# jberet-support: JDBC and DynamoDB batch artifacts, modelled in Dafny

This project models four batch artifacts of jberet-support, the collection of reusable
readers, writers and batchlets for Jakarta Batch (JSR 352) jobs:

- **JdbcItemReader** (module `JdbcReader`) reads rows of a JDBC result set between the
  1-based rows `start` and `end` and resumes after a checkpointed row number. Its parts:
  - the `resultSetProperties` parser, which gives the result set's type, concurrency,
    holdability, fetch direction and fetch size;
  - the stored-procedure test on the trimmed SQL;
  - `open`, which normalises `start`/`end` and positions the cursor;
  - `readItem`, which shapes a row into a list or a map;
  - `close`.

  `java.sql.ResultSet` is a small class holding column labels, rows and a cursor position.
- **DynamoDbItemWriter** (module `DynamoDbWriter`) splits a chunk into put or delete
  requests. Its inner `InternalWriteBatch` sends them in `BatchWriteItem` calls of at most 25
  requests, and collects what the service leaves unprocessed for two overridable hooks.
  The enhanced client is a class that logs every call. Which requests the service leaves
  unprocessed is an oracle `throttled(call, index)`.
- **DynamoDbItemReader** (module `DynamoDbReader`) builds a scan or query request, on the
  table or on an index, with a filter expression and a projection. It converts the JSON of
  `filterExpressionValues` into DynamoDB attribute values, narrows the returned items to the
  `start`/`end` window with 32-bit `int` arithmetic, and hands the items out one by one.
  What the service returns for a request is a parameter.
- **DynamoDbTableBatchlet** (module `DynamoDbBatchlet`) deletes, creates, updates or
  truncates a table, depending on the `action` property and on whether the table exists.
  The DynamoDB service is a class holding the table's presence, item count, ARN and the
  log of the requests sent to it.
  - Each table operation is a method proved against a plan function: the list of requests
    it sends.
  - Lemmas state what the plans do: a CREATE creates at most one table, however often it
    runs; encryption, tagging and point-in-time recovery are requested exactly when
    configured.
- **JavaLang** holds the JDK behaviour the artifacts depend on, written out so that its
  edge cases are part of the model: `int` wrap-around, `String.trim`, `String.split`,
  `Integer.parseInt` on ASCII digits, `Integer.toString` and `String.toUpperCase`.
- **Wrappers** (`Option`, `Result`) and **Sequences** (associativity of `+`) are shared
  helpers.

Source paths below are relative to the repository root.

## Model

| member | source | states |
|---|---|---|
| JavaLang.Wrap32 | src/main/java/org/jberet/support/io/DynamoDbItemReader.java:125 | Java `int` subtraction: an in-range result is exact; otherwise the result is congruent modulo 2^32 to the exact difference. |
| JavaLang.Trim | src/main/java/org/jberet/support/io/JdbcItemReader.java:275 | `trim()` returns the middle of the text after the leading characters <= U+0020. The result neither starts nor ends with such a character, and everything after it in the text is such a character. |
| JavaLang.TrimUnpadded | src/main/java/org/jberet/support/io/JdbcItemReader.java:275 | Text with nothing to trim comes back unchanged. |
| JavaLang.TrimIdempotent | src/main/java/org/jberet/support/io/JdbcItemReader.java:275 | Trimming the already trimmed `sql` again (a second `open`) changes nothing. |
| JavaLang.StartsWith | src/main/java/org/jberet/support/io/JdbcItemReader.java:276 | Definition: the text begins with the prefix. |
| JavaLang.EndsWith | src/main/java/org/jberet/support/io/JdbcItemReader.java:276 | Definition: the text ends with the suffix. |
| JavaLang.DropTrailingEmpty | src/main/java/org/jberet/support/io/DynamoDbItemReader.java:252 | `split` with limit 0 removes exactly the trailing empty pieces: the result is a prefix, it does not end with an empty piece, and everything removed is empty. |
| JavaLang.JoinPieces | src/main/java/org/jberet/support/io/DynamoDbItemReader.java:252 | Splitting at a separator loses nothing: joining the pieces back gives the text, and no piece contains the separator. |
| JavaLang.SplitOfJoin | src/main/java/org/jberet/support/io/DynamoDbItemReader.java:252 | `split` inverts a join of non-empty, separator-free names. |
| JavaLang.Split | src/main/java/org/jberet/support/io/DynamoDbItemReader.java:252 | Definition of `split` with one separator character: the whole text when the separator does not occur, otherwise the pieces between separators less the trailing empty ones. |
| JavaLang.ParseInt | src/main/java/org/jberet/support/io/JdbcItemReader.java:293 | `Integer.parseInt`: an optional sign, at least one ASCII digit and nothing else, and a value within `int` range; anything else is the NumberFormatException. A result implies a non-empty text. |
| JavaLang.IntToString | src/main/java/org/jberet/support/io/JdbcItemReader.java:197 | Definition of `String.valueOf(int)`: a minus sign for a negative number, then the decimal digits without leading zeros. |
| JavaLang.ParseIntToString | src/main/java/org/jberet/support/io/JdbcItemReader.java:293 | `Integer.parseInt` reads back every `int` that `Integer.toString` writes. |
| JavaLang.ToUpperCase | src/main/java/org/jberet/support/io/DynamoDbTableBatchlet.java:83 | `toUpperCase` keeps the length and maps each character to its upper-case letter (ASCII). |
| JavaLang.ArrayToString | src/main/java/org/jberet/support/io/JdbcItemReader.java:180 | Definition of `Arrays.toString` on strings: the elements joined by ", " inside brackets. |
| JdbcReader.EntryError | src/main/java/org/jberet/support/io/JdbcItemReader.java:292-332 | A `resultSetProperties` entry is rejected exactly when its value is not allowed for its key: `fetchSize` must parse as an `int` after trimming, and the four enumerated keys accept only their named constants. Any other key is rejected. A rejected `fetchSize` raises the NumberFormatException of its trimmed text; every other rejection names the key and the value. |
| JdbcReader.WithEntry | src/main/java/org/jberet/support/io/JdbcItemReader.java:288-333 | Applying one entry fails exactly when the entry is invalid, and it fails with that entry's error. |
| JdbcReader.GatheredStep | src/main/java/org/jberet/support/io/JdbcItemReader.java:287-334 | The loop's state after a valid entry is the settings gathered from all entries visited so far, whatever the visiting order. |
| JdbcReader.ParseResultSetProperties | src/main/java/org/jberet/support/io/JdbcItemReader.java:279-350 | Succeeds exactly when every entry is valid (or there are no properties), giving the settings of the whole map with the defaults filled in, including the DB2 default type. Otherwise it fails with the error of some invalid entry. |
| JdbcReader.SettingsOf | src/main/java/org/jberet/support/io/JdbcItemReader.java:279-350 | Definition of the five settings a valid property map yields. An absent key takes its default, and an absent or zero type becomes scroll-insensitive for a DB2 connection class and forward-only otherwise. |
| JdbcReader.NormalStart | src/main/java/org/jberet/support/io/JdbcItemReader.java:190-192 | The normalised start is at least 1: a positive start is kept and any other start becomes 1. |
| JdbcReader.NormalEnd | src/main/java/org/jberet/support/io/JdbcItemReader.java:193-195 | `end == 0` means no upper bound (`Integer.MAX_VALUE`); any other end is kept. |
| JdbcReader.ReadyPosition | src/main/java/org/jberet/support/io/JdbcItemReader.java:200-207 | The ready position is the larger of `start - 1` and the checkpoint. |
| JdbcReader.RejectedBounds | src/main/java/org/jberet/support/io/JdbcItemReader.java:190-198 | `open` rejects the bounds exactly when `end` is negative, or positive and below the normalised start. |
| JdbcReader.ReadStep | src/main/java/org/jberet/support/io/JdbcItemReader.java:230-259 | Definition of one `readItem` on the cursor. At or past `end`, nothing moves and null is returned. Otherwise `next` either moves to the following row, which becomes `currentRowNumber` and is delivered, or moves after the last row. |
| JdbcReader.Delivered | src/main/java/org/jberet/support/io/JdbcItemReader.java:230-259 | Definition of the row numbers that successive `readItem` calls deliver, up to the first null. |
| JdbcReader.DeliveredFromReady | src/main/java/org/jberet/support/io/JdbcItemReader.java:230-259 | From a cursor positioned at `ready`, successive `readItem` calls deliver rows `ready + 1` through `min(end, rows)`, each once, in order. |
| JdbcReader.AdvanceFromReady | src/main/java/org/jberet/support/io/JdbcItemReader.java:230-258 | After `k` successful reads the cursor and `currentRowNumber` are where `open` would put them for ready position `ready + k`. |
| JdbcReader.FreshReadDeliversBounds | src/main/java/org/jberet/support/io/JdbcItemReader.java:190-261 | Without a checkpoint, the reader delivers exactly rows `start..min(end, rows)`. |
| JdbcReader.ResumeAfterCheckpoint | src/main/java/org/jberet/support/io/JdbcItemReader.java:200-211 | The checkpoint taken after `k` reads is the row last delivered. Reopening from it delivers exactly the rest of the run: nothing is lost or repeated. |
| JdbcReader.ResumeFrom | src/main/java/org/jberet/support/io/JdbcItemReader.java:230-259 | After `k` reads from `ready`, `currentRowNumber` is `ready + k`, the `k`-th row delivered, and the rows still to come are the run after its first `k`. |
| JdbcReader.KnownType | src/main/java/org/jberet/support/io/JdbcItemReader.java:366-419 | Definition of the 28 `columnTypes` names that select a getter. |
| JdbcReader.ColumnValue | src/main/java/org/jberet/support/io/JdbcItemReader.java:360-427 | Definition of `getColumnValue(i)`. An index past `columnTypes` fails there. A name that selects no getter gives null without reading the row. Otherwise, as with no `columnTypes`, the value is the row's column `i + 1`, or the driver's invalid-column error past the row. |
| JdbcReader.ReadableColumns | src/main/java/org/jberet/support/io/JdbcItemReader.java:360-366 | `getColumnValue(i)` succeeds for each of the first `k` columns, and column `k` fails, either on `columnTypes[k]` or in the driver. `k` never exceeds the length of `columnTypes`, or the row's width when there is none. |
| JdbcReader.Cells | src/main/java/org/jberet/support/io/JdbcItemReader.java:237-244 | Definition of the values `getColumnValue` returns for the first `m` columns, in column order. |
| JdbcReader.RowItem | src/main/java/org/jberet/support/io/JdbcItemReader.java:235-250 | Definition of the item `readItem` builds. A list of the mapped columns' values, or the map of mapping names to those values (the bean's fields). It fails with the first unreadable column's error when a mapped column cannot be read. |
| JdbcReader.ZipMap | src/main/java/org/jberet/support/io/JdbcItemReader.java:243-246 | The map built from `columnMapping` has exactly the mapped names as keys. |
| JdbcReader.ZipMapAt | src/main/java/org/jberet/support/io/JdbcItemReader.java:243-246 | A name that no later mapping entry repeats maps to its own column's value; later puts win. |
| JdbcReader.ColumnValues | src/main/java/org/jberet/support/io/JdbcItemReader.java:237-240 | The list bean holds the row's first `|columnMapping|` values in order. If a column cannot be read, the result is the error of the first such column. |
| JdbcReader.ColumnFields | src/main/java/org/jberet/support/io/JdbcItemReader.java:243-246 | The map bean is the mapping zipped with the row's values. If a column cannot be read, the result is the error of the first such column. |
| JdbcReader.RowItemShape | src/main/java/org/jberet/support/io/JdbcItemReader.java:236-250 | When every mapped column is readable, a list item holds one value per mapped column in column order: the row's value, or null where the type name selects no getter. A map item has exactly the mapped names as keys. |
| JdbcReader.UnknownTypeReadsNull | src/main/java/org/jberet/support/io/JdbcItemReader.java:360-427 | With `columnTypes` `["String", "Foo"]` and a one-column row, the list item is the row's value followed by null, although the row has no second column. |
| JdbcReader.CloseAsWritten | src/main/java/org/jberet/support/io/JdbcItemReader.java:215-227 | Definition of `close` as written, on which handles are set. When any is set, it throws the NullPointerException if the result set is null, and otherwise releases all three. When none is set, nothing changes. |
| JdbcReader.CloseAsWrittenFailsAfterFailedOpen | src/main/java/org/jberet/support/io/JdbcItemReader.java:215-227 | `close` as written throws a NullPointerException on a reader whose `open` failed after getting the connection. |
| JdbcReader.FailedOpenThenClose | src/main/java/org/jberet/support/io/JdbcItemReader.java:155-227 | A reader with an unknown `resultSetProperties` key: `open` fails holding only the connection, `close` as written would throw, and the corrected `close` releases everything. |
| JdbcReader.ResultSet.Absolute | src/main/java/org/jberet/support/io/JdbcItemReader.java:209 | `absolute(p)` moves to row `p`, or after the last row when `p` is past the end. |
| JdbcReader.ResultSet.Next | src/main/java/org/jberet/support/io/JdbcItemReader.java:235 | `next()` answers whether a row follows and moves onto it, or after the last row. |
| JdbcReader.ResultSet.GetRow | src/main/java/org/jberet/support/io/JdbcItemReader.java:258 | Definition of `getRow()`: the current row number, or 0 when the cursor is before the first row or after the last. |
| JdbcReader.ResultSet.Close | src/main/java/org/jberet/support/io/JdbcItemReader.java:218 | The result set is closed. |
| JdbcReader.JdbcItemReader.constructor | src/main/java/org/jberet/support/io/JdbcItemReader.java:48-152 | The batch properties are injected and no JDBC handle is open. |
| JdbcReader.JdbcItemReader.IsStoredProcedure | src/main/java/org/jberet/support/io/JdbcItemReader.java:274-277 | `sql` is replaced by its trimmed form, and the answer is whether the trimmed SQL is wrapped in braces. |
| JdbcReader.JdbcItemReader.PrepareStatement | src/main/java/org/jberet/support/io/JdbcItemReader.java:157-171 | The connection is taken. Bad properties fail before anything is prepared. Otherwise a call or a plain statement is prepared from the trimmed SQL with the parsed settings. |
| JdbcReader.JdbcItemReader.SetUpColumns | src/main/java/org/jberet/support/io/JdbcItemReader.java:175-188 | A configured `columnMapping` is kept. Without one, a `columnTypes` of the wrong length is rejected with the array's text; otherwise the column labels become the mapping. |
| JdbcReader.JdbcItemReader.CheckBounds | src/main/java/org/jberet/support/io/JdbcItemReader.java:190-198 | `start` and `end` are normalised in place, and the result is the error naming `end`'s text exactly when `end < start`. |
| JdbcReader.JdbcItemReader.OpenWithoutResultSet | src/main/java/org/jberet/support/io/JdbcItemReader.java:167-209 | With no result set, null is stored. Without a mapping the NullPointerException comes first and the bounds are untouched. With one, the bounds are normalised and the `end` error or else the NullPointerException follows. |
| JdbcReader.JdbcItemReader.PositionCursor | src/main/java/org/jberet/support/io/JdbcItemReader.java:190-211 | `start` and `end` are normalised, and `end < start` is rejected with `end`'s text. Otherwise the cursor and `currentRowNumber` are at the ready position. |
| JdbcReader.JdbcItemReader.Open | src/main/java/org/jberet/support/io/JdbcItemReader.java:155-212 | Every failure path of `open` and what it leaves behind. A stored-procedure call that reports no result set stores null and fails with the NullPointerException: at the metadata when no mapping is set, otherwise after the bounds are normalised and checked. On success the result set is new and open, the mapping is set and the cursor is at the ready position. |
| JdbcReader.JdbcItemReader.ReadItem | src/main/java/org/jberet/support/io/JdbcItemReader.java:230-261 | Past `end`, or when the rows run out, the result is null and the row number is unchanged. Otherwise the item is built from the next row and `currentRowNumber` becomes that row; a column that cannot be read is an error. |
| JdbcReader.JdbcItemReader.CheckpointInfo | src/main/java/org/jberet/support/io/JdbcItemReader.java:270-272 | Definition: the checkpoint is `currentRowNumber`. |
| JdbcReader.JdbcItemReader.Close | src/main/java/org/jberet/support/io/JdbcItemReader.java:215-227 | Corrected `close`: it releases whichever handles are set and closes an existing result set. It never fails, and it changes nothing when no handle is set. |
| DynamoDbWriter.RequestFor | src/main/java/org/jberet/support/io/DynamoDbItemWriter.java:85-100 | An item becomes a put of the whole item, or, when `deleteItem` is set, a delete of its key. |
| DynamoDbWriter.WriteRequests | src/main/java/org/jberet/support/io/DynamoDbItemWriter.java:108-110 | The chunk becomes one request per item, in order. |
| DynamoDbWriter.Batches | src/main/java/org/jberet/support/io/DynamoDbItemWriter.java:58-80 | Definition of the batches `writeItems` sends: consecutive runs of 25 requests, the last one shorter, none when there are no requests. |
| DynamoDbWriter.BatchesPartition | src/main/java/org/jberet/support/io/DynamoDbItemWriter.java:35-78 | The batches sent cover the requests exactly and in order. Each batch holds 1 to 25 requests, all but the last hold 25, and there are `ceil(n / 25)` of them. |
| DynamoDbWriter.Unprocessed | src/main/java/org/jberet/support/io/DynamoDbItemWriter.java:67-76 | Definition of the requests of one call that the service leaves unprocessed, in batch order, as chosen by the oracle `throttled(call, index)`. |
| DynamoDbWriter.UnprocessedAcross | src/main/java/org/jberet/support/io/DynamoDbItemWriter.java:108-111 | Definition of the unprocessed requests of consecutive calls, concatenated in call order. |
| DynamoDbWriter.PutItems | src/main/java/org/jberet/support/io/DynamoDbItemWriter.java:75 | Definition of `unprocessedPutItemsForTable`: the items of the put requests, in order. |
| DynamoDbWriter.DeleteKeys | src/main/java/org/jberet/support/io/DynamoDbItemWriter.java:76 | Definition of `unprocessedDeleteItemsForTable`: the keys of the delete requests, in order. |
| DynamoDbWriter.UnprocessedOfBatch | src/main/java/org/jberet/support/io/DynamoDbItemWriter.java:71-76 | What one call leaves unprocessed is a sub-multiset of the batch sent. |
| DynamoDbWriter.UnprocessedOfBatches | src/main/java/org/jberet/support/io/DynamoDbItemWriter.java:71-76 | Across calls, what is left unprocessed is a sub-multiset of all requests sent. |
| DynamoDbWriter.UnprocessedFromItems | src/main/java/org/jberet/support/io/DynamoDbItemWriter.java:108-117 | The unprocessed requests of a chunk come from that chunk. A put chunk leaves no unprocessed deletes, and its unprocessed put items are a sub-multiset of the items. A delete chunk leaves no unprocessed puts. |
| DynamoDbWriter.NothingLeftWhenAllProcessed | src/main/java/org/jberet/support/io/DynamoDbItemWriter.java:112-117 | When the service processes everything, nothing is left for the hooks. |
| DynamoDbWriter.AllProcessed | src/main/java/org/jberet/support/io/DynamoDbItemWriter.java:75-76 | When the service processes everything, a call leaves nothing unprocessed. |
| DynamoDbWriter.EnhancedClient.BatchWriteItem | src/main/java/org/jberet/support/io/DynamoDbItemWriter.java:71-73 | A call of 1 to 25 requests is logged, and returns what the service leaves unprocessed of it. |
| DynamoDbWriter.InternalWriteBatch.constructor | src/main/java/org/jberet/support/io/DynamoDbItemWriter.java:48-51 | A new writer batch is empty and has no unprocessed items. |
| DynamoDbWriter.InternalWriteBatch.NewBatch | src/main/java/org/jberet/support/io/DynamoDbItemWriter.java:53-56 | The pending batch is emptied. |
| DynamoDbWriter.InternalWriteBatch.Flush | src/main/java/org/jberet/support/io/DynamoDbItemWriter.java:66-78 | An empty batch sends nothing. Otherwise the batch is sent once and its unprocessed puts and deletes are appended to the lists; the pending batch is then empty. |
| DynamoDbWriter.InternalWriteBatch.AddItem | src/main/java/org/jberet/support/io/DynamoDbItemWriter.java:58-64 | The item's request is added, and the batch is sent exactly when it reaches 25 requests. |
| DynamoDbWriter.InternalWriteBatch.AddNext | src/main/java/org/jberet/support/io/DynamoDbItemWriter.java:110 | Adding the next request keeps the invariant of `forEach(addItem)`. Every full batch of the requests added so far has been sent, the remainder is pending, and the unprocessed lists hold what the sent batches left. |
| DynamoDbWriter.InternalWriteBatch.AddItems | src/main/java/org/jberet/support/io/DynamoDbItemWriter.java:109-110 | After a chunk is added, its full batches of 25 have been sent in order, and the remainder is pending. |
| DynamoDbWriter.DynamoDbItemWriter.constructor | src/main/java/org/jberet/support/io/DynamoDbItemWriter.java:102-105 | The writer gets its `deleteItem` property and its client; no hook has been called. |
| DynamoDbWriter.DynamoDbItemWriter.SendBatches | src/main/java/org/jberet/support/io/DynamoDbItemWriter.java:109-111 | The chunk goes out as its batches of at most 25 requests, in order. The result is all put items and delete keys left unprocessed across those calls. |
| DynamoDbWriter.DynamoDbItemWriter.WriteItems | src/main/java/org/jberet/support/io/DynamoDbItemWriter.java:108-118 | `writeItems` sends the chunk's batches. Each hook is called once with the unprocessed puts or deletes, and only when that list is non-empty. |
| DynamoDbReader.AttributeValueOf | src/main/java/org/jberet/support/io/DynamoDbItemReader.java:231-246 | Definition of `getAttributeValue`. Null becomes NUL true, text S, a number N of its rendering, a boolean BOOL, an array L and an object M, both element by element. |
| DynamoDbReader.JsonOf | src/main/java/org/jberet/support/io/DynamoDbItemReader.java:231-246 | Definition of the inverse conversion, from each attribute-value kind back to its JSON kind. |
| DynamoDbReader.Rendered | src/main/java/org/jberet/support/io/DynamoDbItemReader.java:237 | Definition: the JSON value with each number spelt as its numeric node's `toString()`. |
| DynamoDbReader.JsonOfAttributeValue | src/main/java/org/jberet/support/io/DynamoDbItemReader.java:231-246 | The JSON-to-attribute-value conversion loses nothing but the spelling of numbers: converting back gives the JSON with every number as Jackson renders it, and every NUL it builds is `true`. |
| DynamoDbReader.AttributeValueOfJson | src/main/java/org/jberet/support/io/DynamoDbItemReader.java:231-246 | Every attribute value whose NULs are `true` is the conversion of some JSON value. |
| DynamoDbReader.ObjectAttributeValues | src/main/java/org/jberet/support/io/DynamoDbItemReader.java:213-221 | The field loop builds a map with the object's keys, each mapped to the conversion of its field. |
| DynamoDbReader.ArrayAttributeValues | src/main/java/org/jberet/support/io/DynamoDbItemReader.java:223-229 | The element loop builds a list converting each element, in order. |
| DynamoDbReader.AttributesToProject | src/main/java/org/jberet/support/io/DynamoDbItemReader.java:248-254 | An unset property projects nothing. Otherwise it projects the comma-separated pieces, each trimmed, in order. |
| DynamoDbReader.AttributesToProjectOfJoin | src/main/java/org/jberet/support/io/DynamoDbItemReader.java:248-254 | A comma-joined list of unpadded names is read back as exactly those names. |
| DynamoDbReader.AttributesToProjectTrimmed | src/main/java/org/jberet/support/io/DynamoDbItemReader.java:252-253 | Every projected name is already trimmed. |
| DynamoDbReader.NameValue | src/main/java/org/jberet/support/io/DynamoDbItemReader.java:194 | Definition of a JSON value read as a `String` map value. Text stays itself, a number gives its token as written and a boolean its text. Null stays null, and an array or object is refused. |
| DynamoDbReader.FilterExpressionNames | src/main/java/org/jberet/support/io/DynamoDbItemReader.java:189-199 | Unset gives null. Every failure is the IllegalArgumentException with its message. A parsed object keeps its keys, and is accepted exactly when every value is a scalar or null. Each alias is its value's text, a number spelt as written, and null stays null. |
| DynamoDbReader.NumberAliasKeepsToken | src/main/java/org/jberet/support/io/DynamoDbItemReader.java:189-211 | The number `1.50` is the alias `1.50` in the names but the attribute value `1.5` in the values. |
| DynamoDbReader.FilterExpressionValues | src/main/java/org/jberet/support/io/DynamoDbItemReader.java:201-211 | Unset gives the empty map. Malformed JSON gives exactly the IllegalArgumentException, and non-object JSON exactly the ClassCastException. An object gives its fields converted to attribute values. |
| DynamoDbReader.FilterExpression | src/main/java/org/jberet/support/io/DynamoDbItemReader.java:177-187 | Without an expression there is no filter. Otherwise the filter holds the expression, names and values, and fails exactly when the names or the values fail, names first. |
| DynamoDbReader.Read | src/main/java/org/jberet/support/io/DynamoDbItemReader.java:130-164 | The request is on an index exactly when `indexName` is set, and is a query exactly when `partitionKey` is set. It carries the consistency, limit and filter, and a scan also carries the projection. |
| DynamoDbReader.Window | src/main/java/org/jberet/support/io/DynamoDbItemReader.java:120-126 | Definition of `open`'s `skip` and `limit`. A set, non-negative `start` skips that many items. A set, positive `end` limits the stream to `end - start` items in `int` arithmetic, with an unset `start` counting as 0. A negative limit is the IllegalArgumentException carrying the limit. |
| DynamoDbReader.WindowBetween | src/main/java/org/jberet/support/io/DynamoDbItemReader.java:121-126 | With `0 <= start <= end`, the items read are those at indices `start` up to `end`, clipped to the items there are. |
| DynamoDbReader.WindowTenOfSixty | src/main/java/org/jberet/support/io/DynamoDbItemReader.java:121-126 | Of 60 items, `start = 10`, `end = 20` reads items 10 to 19: ten items. |
| DynamoDbReader.WindowUnbounded | src/main/java/org/jberet/support/io/DynamoDbItemReader.java:121-126 | Without a positive `end`, only a non-negative `start` skips items. |
| DynamoDbReader.WindowNegativeStart | src/main/java/org/jberet/support/io/DynamoDbItemReader.java:121-126 | A negative `start` skips nothing but enlarges the limit to `end - start`. If that overflows an `int`, the read fails. |
| DynamoDbReader.WindowStartAfterEnd | src/main/java/org/jberet/support/io/DynamoDbItemReader.java:121-126 | `start > end > 0` fails with the negative limit as its message. |
| DynamoDbReader.WindowIsSlice | src/main/java/org/jberet/support/io/DynamoDbItemReader.java:121-126 | Whatever the bounds, a successful window is a contiguous slice of the items, in order. |
| DynamoDbReader.Opened | src/main/java/org/jberet/support/io/DynamoDbItemReader.java:117-128 | Definition of `open` before the iterator exists: build the request, failing on its error; send it; then window the items that come back. |
| DynamoDbReader.DynamoDbItemReader.constructor | src/main/java/org/jberet/support/io/DynamoDbItemReader.java:48-114 | The properties are injected; there is no iterator yet. |
| DynamoDbReader.DynamoDbItemReader.Open | src/main/java/org/jberet/support/io/DynamoDbItemReader.java:117-128 | On success the iterator is the window of what the service returns for the built request. On failure the error is the request's or the window's, and the state is unchanged. |
| DynamoDbReader.DynamoDbItemReader.ReadItem | src/main/java/org/jberet/support/io/DynamoDbItemReader.java:173-175 | An exhausted iterator gives null. Otherwise the next item of the window is returned and consumed, so the items read so far are a prefix of the window. |
| DynamoDbBatchlet.ValueOf | src/main/java/org/jberet/support/io/DynamoDbTableBatchlet.java:31-33 | Definition of `Action.valueOf`: the constant whose name is exactly the text, or none. |
| DynamoDbBatchlet.ValueOfName | src/main/java/org/jberet/support/io/DynamoDbTableBatchlet.java:31-33 | `Action.valueOf` accepts exactly the four constant names. |
| DynamoDbBatchlet.ActionOf | src/main/java/org/jberet/support/io/DynamoDbTableBatchlet.java:83 | Definition: `valueOf` of the ASCII upper-cased text. |
| DynamoDbBatchlet.NoEnumConstant | src/main/java/org/jberet/support/io/DynamoDbTableBatchlet.java:83 | Definition of the message of `valueOf`'s IllegalArgumentException: the enum's qualified name followed by the text. |
| DynamoDbBatchlet.ActionOfExamples | src/main/java/org/jberet/support/io/DynamoDbTableBatchlet.java:83 | `truncate`, `Create`, `DELETE` and `upDate` name actions; `drop` does not. |
| DynamoDbBatchlet.ActionOfIgnoresCase | src/main/java/org/jberet/support/io/DynamoDbTableBatchlet.java:83 | The action is found exactly when the upper-cased property is its name, so the lookup ignores case. |
| DynamoDbBatchlet.RequestOf | src/main/java/org/jberet/support/io/DynamoDbTableBatchlet.java:76-83 | A null or empty action does nothing. A known name runs its action. Any other text is unknown, and keeps its upper-cased form for the error. |
| DynamoDbBatchlet.IsValidCapacityUnits | src/main/java/org/jberet/support/io/DynamoDbTableBatchlet.java:132-134 | Definition of `isValidCapacityUnits`: set and positive. |
| DynamoDbBatchlet.CreateRequestOf | src/main/java/org/jberet/support/io/DynamoDbTableBatchlet.java:116-134 | Secondary indices are set exactly when a non-empty list is configured, one ALL-projected index per name. Provisioned throughput is set exactly when both capacities are positive. |
| DynamoDbBatchlet.DeletePlan | src/main/java/org/jberet/support/io/DynamoDbTableBatchlet.java:110-114 | Definition of `doDelete`'s requests: delete the table, then wait until it no longer exists. |
| DynamoDbBatchlet.CreatePlan | src/main/java/org/jberet/support/io/DynamoDbTableBatchlet.java:116-130 | Definition of `doCreate`'s requests: create with `CreateRequestOf`, then wait until the table exists. |
| DynamoDbBatchlet.UpdatePlan | src/main/java/org/jberet/support/io/DynamoDbTableBatchlet.java:136-173 | Definition of `doUpdate`'s requests, in this order: the encryption update, then the tagging, then point-in-time recovery, each only when it applies. |
| DynamoDbBatchlet.ActionPlan | src/main/java/org/jberet/support/io/DynamoDbTableBatchlet.java:83-105 | Definition of each action's requests. DELETE deletes an existing table. CREATE creates a missing table, then updates. UPDATE updates an existing table. TRUNCATE deletes an existing table, then creates and updates. |
| DynamoDbBatchlet.RequestPlan | src/main/java/org/jberet/support/io/DynamoDbTableBatchlet.java:75-107 | Definition of `process`'s requests for an action request. No action sends nothing. An unknown name sends only the existence check. A known action sends the existence check, then its plan. |
| DynamoDbBatchlet.ProcessPlan | src/main/java/org/jberet/support/io/DynamoDbTableBatchlet.java:75-108 | Definition: `RequestPlan` of the configured `action` property. |
| DynamoDbBatchlet.Effect | src/main/java/org/jberet/support/io/DynamoDbTableBatchlet.java:83-105 | Definition of what each action leaves. After DELETE there is no table. After CREATE there is a table, new and empty if there was none. UPDATE leaves the table as it was. After TRUNCATE there is a new, empty table. |
| DynamoDbBatchlet.UpdatePlanCreatesNothing | src/main/java/org/jberet/support/io/DynamoDbTableBatchlet.java:136-173 | `doUpdate` never creates a table. |
| DynamoDbBatchlet.CreateRunCreations | src/main/java/org/jberet/support/io/DynamoDbTableBatchlet.java:89-94 | CREATE creates a table exactly when none exists. |
| DynamoDbBatchlet.CreateTwiceCreatesOnce | src/main/java/org/jberet/support/io/DynamoDbTableBatchlet.java:75-108 | Running CREATE, then again, creates at most one table. |
| DynamoDbBatchlet.UpdatePlanEncrypts | src/main/java/org/jberet/support/io/DynamoDbTableBatchlet.java:139-149 | The table is updated exactly when a KMS key is configured; the first request then enables KMS encryption with that key. |
| DynamoDbBatchlet.UpdatePlanTags | src/main/java/org/jberet/support/io/DynamoDbTableBatchlet.java:150-163 | Tags are sent exactly when tags are configured and the target is not DynamoDB Local. They go to the table's ARN with the configured tags. The table is described for its ARN only when no encryption update supplied it. |
| DynamoDbBatchlet.UpdatePlanRecovers | src/main/java/org/jberet/support/io/DynamoDbTableBatchlet.java:164-172 | Continuous backups are updated exactly when recovery is configured and the target is not DynamoDB Local. The request always enables recovery. |
| DynamoDbBatchlet.TableService.TableExists | src/main/java/org/jberet/support/io/DynamoDbTableBatchlet.java:60-67 | `describeTable` is sent, and the answer is whether the table exists. |
| DynamoDbBatchlet.TableService.DescribeArn | src/main/java/org/jberet/support/io/DynamoDbTableBatchlet.java:153-154 | `describeTable` is sent and yields the table's ARN. |
| DynamoDbBatchlet.TableService.DeleteTable | src/main/java/org/jberet/support/io/DynamoDbTableBatchlet.java:112 | The table is gone, and the request is logged. |
| DynamoDbBatchlet.TableService.WaitUntilTableNotExists | src/main/java/org/jberet/support/io/DynamoDbTableBatchlet.java:113 | The waiter request is logged. |
| DynamoDbBatchlet.TableService.CreateTable | src/main/java/org/jberet/support/io/DynamoDbTableBatchlet.java:128 | The table exists, empty, and the request is logged. |
| DynamoDbBatchlet.TableService.WaitUntilTableExists | src/main/java/org/jberet/support/io/DynamoDbTableBatchlet.java:129 | The waiter request is logged. |
| DynamoDbBatchlet.TableService.UpdateTable | src/main/java/org/jberet/support/io/DynamoDbTableBatchlet.java:147-148 | The update is logged, and the response carries the table's ARN. |
| DynamoDbBatchlet.TableService.TagResource | src/main/java/org/jberet/support/io/DynamoDbTableBatchlet.java:159-162 | The tagging request is logged. |
| DynamoDbBatchlet.TableService.UpdateContinuousBackups | src/main/java/org/jberet/support/io/DynamoDbTableBatchlet.java:166-171 | The backup request is logged. |
| DynamoDbBatchlet.DynamoDbTableBatchlet.constructor | src/main/java/org/jberet/support/io/DynamoDbTableBatchlet.java:38-58 | The batchlet holds its properties and the service. |
| DynamoDbBatchlet.DynamoDbTableBatchlet.DoDelete | src/main/java/org/jberet/support/io/DynamoDbTableBatchlet.java:110-114 | The table is deleted, then waited for until it is gone. |
| DynamoDbBatchlet.DynamoDbTableBatchlet.DoCreate | src/main/java/org/jberet/support/io/DynamoDbTableBatchlet.java:116-130 | The table is created from the configured request, then waited for; it exists and is empty. |
| DynamoDbBatchlet.DynamoDbTableBatchlet.DoUpdate | src/main/java/org/jberet/support/io/DynamoDbTableBatchlet.java:136-173 | The requests sent are the encryption, tagging and recovery steps that apply, in that order. |
| DynamoDbBatchlet.DynamoDbTableBatchlet.RunAction | src/main/java/org/jberet/support/io/DynamoDbTableBatchlet.java:83-106 | Each action sends its plan for the table's presence, and leaves the table in that action's state. DELETE: gone. CREATE: present, and items kept if it existed. UPDATE: presence and items unchanged. TRUNCATE: present and empty. |
| DynamoDbBatchlet.DynamoDbTableBatchlet.Dispatch | src/main/java/org/jberet/support/io/DynamoDbTableBatchlet.java:76-107 | No action sends nothing and completes. An unknown action sends only the existence check and fails with `valueOf`'s message. A known action runs as above and completes. |
| DynamoDbBatchlet.DynamoDbTableBatchlet.Process | src/main/java/org/jberet/support/io/DynamoDbTableBatchlet.java:75-108 | `process()` as a whole: the requests sent, the status `COMPLETED` or the `IllegalArgumentException` for an unknown action, and the table's resulting state. |

## Left out

- Connections, JDBC drivers, the AWS SDK clients and their credentials, and waiters stand as small classes. They hold only the state the artifacts read, plus a log of the requests sent. Network behaviour, timeouts and SDK exceptions other than those named below are not modelled.
- Which requests DynamoDB leaves unprocessed is an oracle `throttled(call, index)`. The unprocessed lists keep the batch's order; the real service does not promise an order.
- `JdbcItemReaderWriterBase` is not part of this model: the data source lookup (`init`, `getConnection`), `autoCommit` and the static `close(connection, statement)`. Closing releases the handles.
- `DynamoDbItemReadWriterBase` is not part of this model: client initialisation, the table schema and `getTable`.
- `executeStoredProcedure` is not modelled separately: the statement's outcome is an input. Only a stored-procedure call may report no result set, and then the null is stored and its next use throws the NullPointerException. A plain query always yields a result set.
- `getColumnValue`'s per-type getters (`getString`, `getDate`, …) and `wasNull` are left out. A row already holds the values the known getters return. A type name that selects no getter gives null without reading the row. The model keeps the two failure modes: an index past `columnTypes`, and a known getter on a column past the row. A driver's `wasNull` that throws when no column of the row has been read yet is not modelled.
- For bean types other than `List` and `Map`, the Jackson `convertValue` conversion and bean validation are left out. The item is the map of fields.
- JSON text parsing is left out: a property holds an already parsed tree or `Malformed`. A number carries both its token as written, which is what it becomes as a name alias, and the text Jackson renders for it (`1.50` as `1.5`, `1e2` as `100.0`), which is what it becomes as an attribute value. The rendering is an input; the model does not compute it.
- JavaLang.ParseInt: only ASCII digits are modelled. `Integer.parseInt` also accepts any other Unicode decimal digit (`Character.digit`), such as fullwidth or Arabic-Indic digits.
- JdbcReader.EntryError: a `fetchSize` written in non-ASCII decimal digits is rejected in the model, while the source accepts it, for the reason above.
- JavaLang.ToUpperCase: case mapping beyond ASCII letters is not modelled.
- JdbcReader.JdbcItemReader.ReadItem: requires an opened reader. `readItem` before `open` dereferences a null result set in the source.
- DynamoDbReader.DynamoDbItemReader.ReadItem: requires an opened reader, for the same reason.
- Overrides of `shouldDeleteItem`, `handleUnprocessedPutItems` and `handleUnprocessedDeleteItems` in subclasses are left out. The model uses the defaults: a delete when `deleteItem` is set, and hooks that record their argument instead of logging.
- Tags are a map. The order in which `tableTags` entries become `Tag` objects is not modelled.
- `currentRowNumber` and the positions are unbounded integers: they never exceed the row count, which the model does not bound by `Integer.MAX_VALUE`.
- In `process`, the model looks up the action before the existence check, while the source does so after it. The order is unobservable, because `valueOf` has no side effects and the existence check is logged either way. `initClient` for an unknown action is not modelled.
- Logging is left out, as are `stop`, the readers' empty `close` and the `checkpointInfo` methods that return null. They are kept only as `CheckpointInfo` functions without contracts.

## Findings

| source | as written | input that shows it | evidently intended | confidence | as-written member | corrected member |
|---|---|---|---|---|---|---|
| src/main/java/org/jberet/support/io/JdbcItemReader.java:216-218 | `close` tests whether any of connection, statement or result set is set, then calls `resultSet.close()` without checking it for null | `resultSetProperties = {fetchsize=10}` (an unknown key): `open` throws after `getConnection`, leaving a connection and no result set; the following `close` throws a NullPointerException and never releases the connection | close the result set only when it is set, then release the connection and statement | not executed; high | JdbcReader.CloseAsWrittenFailsAfterFailedOpen | JdbcReader.JdbcItemReader.Close |
