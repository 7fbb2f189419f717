/**
 * The DynamoDB item reader: it scans or queries a table or one of its indexes, narrows the
 * items to a start/end window, and hands them out one by one.
 *
 * What the service returns for a request is a parameter (`service`); what Jackson parses a
 * JSON property into is given as an already parsed tree, or as `Malformed`.
 */
module DynamoDbReader {
  import opened Wrappers
  import opened JavaLang

  // ---------------------------------------------------------------------------
  // JSON trees and DynamoDB attribute values

  /** A parsed JSON value, one constructor per kind of value in RFC 8259, section 3.
      A number keeps two texts: `token`, exactly as written in the JSON text (what Jackson
      hands out when a number is read as a `String`), and `rendered`, what the parsed
      numeric node's `toString()` writes back (`1.50` is rendered `1.5`, `1e2` is `100.0`). */
  datatype Json =
    | JNull
    | JString(text: string)
    | JNumber(token: string, rendered: string)
    | JBool(b: bool)
    | JArray(elems: seq<Json>)
    | JObject(fields: map<string, Json>)

  /** The outcome of parsing a JSON property: `Malformed` stands for Jackson's
      `JsonProcessingException`. */
  datatype JsonText = Malformed | Parsed(tree: Json)

  /** The DynamoDB `AttributeValue` kinds the reader produces. */
  datatype AttributeValue =
    | NUL(nul: bool)
    | S(s: string)
    | N(n: string)
    | BOOL(b: bool)
    | L(l: seq<AttributeValue>)
    | M(m: map<string, AttributeValue>)

  /** What the reader throws. */
  datatype Error =
    | IllegalArgument(message: string)
    | ClassCast

  /** getAttributeValue(node): one attribute value per JSON kind, arrays and objects
      converted element by element. */
  function AttributeValueOf(j: Json): AttributeValue
  {
    match j
    case JNull => NUL(true)
    case JString(t) => S(t)
    case JNumber(_, d) => N(d)
    case JBool(b) => BOOL(b)
    case JArray(es) => L(seq(|es|, i requires 0 <= i < |es| => AttributeValueOf(es[i])))
    case JObject(fs) => M(map k | k in fs :: AttributeValueOf(fs[k]))
  }

  /** The JSON value an attribute value stands for: the inverse of `AttributeValueOf`. */
  function JsonOf(v: AttributeValue): Json
  {
    match v
    case NUL(_) => JNull
    case S(t) => JString(t)
    case N(d) => JNumber(d, d)
    case BOOL(b) => JBool(b)
    case L(vs) => JArray(seq(|vs|, i requires 0 <= i < |vs| => JsonOf(vs[i])))
    case M(vm) => JObject(map k | k in vm :: JsonOf(vm[k]))
  }

  /** Attribute values in which every NUL says `true`, as every one the reader builds does. */
  predicate NulsTrue(v: AttributeValue)
  {
    match v
    case NUL(b) => b
    case L(vs) => forall i :: 0 <= i < |vs| ==> NulsTrue(vs[i])
    case M(vm) => forall k :: k in vm ==> NulsTrue(vm[k])
    case _ => true
  }

  /** The JSON value with every number spelt as Jackson renders it. */
  function Rendered(j: Json): Json
  {
    match j
    case JNumber(_, d) => JNumber(d, d)
    case JArray(es) => JArray(seq(|es|, i requires 0 <= i < |es| => Rendered(es[i])))
    case JObject(fs) => JObject(map k | k in fs :: Rendered(fs[k]))
    case _ => j
  }

  /** The conversion loses nothing but the spelling of numbers: the JSON value, its numbers
      as rendered, can be read back from its attribute value, and every NUL it builds says
      `true`. */
  lemma {:induction false} JsonOfAttributeValue(j: Json)
    ensures JsonOf(AttributeValueOf(j)) == Rendered(j)
    ensures NulsTrue(AttributeValueOf(j))
  {
    match j
    case JArray(es) =>
      forall i | 0 <= i < |es| {
        JsonOfAttributeValue(es[i]);
      }
      assert JsonOf(AttributeValueOf(j)).elems == Rendered(j).elems;
    case JObject(fs) =>
      forall k | k in fs {
        JsonOfAttributeValue(fs[k]);
      }
      assert JsonOf(AttributeValueOf(j)).fields == Rendered(j).fields;
    case _ =>
  }

  /** And the other way round: every attribute value with NULs saying `true` is the
      conversion of exactly one JSON value. */
  lemma {:induction false} AttributeValueOfJson(v: AttributeValue)
    requires NulsTrue(v)
    ensures AttributeValueOf(JsonOf(v)) == v
  {
    match v
    case L(vs) =>
      forall i | 0 <= i < |vs| {
        AttributeValueOfJson(vs[i]);
      }
      assert AttributeValueOf(JsonOf(v)).l == vs;
    case M(vm) =>
      forall k | k in vm {
        AttributeValueOfJson(vm[k]);
      }
      assert AttributeValueOf(JsonOf(v)).m == vm;
    case _ =>
  }

  /** getAttributeValues(ObjectNode): fills a new map field by field. The map has exactly
      the object's field names, each mapped to its converted value. */
  method ObjectAttributeValues(fields: map<string, Json>) returns (r: map<string, AttributeValue>)
    ensures r.Keys == fields.Keys
    ensures forall k :: k in fields ==> r[k] == AttributeValueOf(fields[k])
    ensures M(r) == AttributeValueOf(JObject(fields))
  {
    r := map[];
    var fieldIter := fields.Keys;
    while fieldIter != {}
      invariant fieldIter <= fields.Keys
      invariant r.Keys == fields.Keys - fieldIter
      invariant forall k :: k in r ==> r[k] == AttributeValueOf(fields[k])
      decreases fieldIter
    {
      var k :| k in fieldIter;
      r := r[k := AttributeValueOf(fields[k])];
      fieldIter := fieldIter - {k};
    }
  }

  /** getAttributeValues(ArrayNode): fills a new list element by element, in order. */
  method ArrayAttributeValues(elems: seq<Json>) returns (r: seq<AttributeValue>)
    ensures |r| == |elems|
    ensures forall i :: 0 <= i < |elems| ==> r[i] == AttributeValueOf(elems[i])
    ensures L(r) == AttributeValueOf(JArray(elems))
  {
    r := [];
    for i := 0 to |elems|
      invariant |r| == i
      invariant forall j :: 0 <= j < i ==> r[j] == AttributeValueOf(elems[j])
    {
      r := r + [AttributeValueOf(elems[i])];
    }
  }

  // ---------------------------------------------------------------------------
  // The reader's properties and the request they describe

  /** The batch properties of the reader; `None` is an unset (null) property. */
  datatype ReaderConfig = ReaderConfig(
    indexName: Option<string>,
    partitionKey: Option<string>,
    consistentRead: Option<bool>,
    start: Option<Int32>,
    end: Option<Int32>,
    limit: Option<Int32>,
    filterExpression: Option<string>,
    filterExpressionNames: Option<JsonText>,
    filterExpressionValues: Option<JsonText>,
    attributesToProject: Option<string>)

  /** An `Expression`: the filter text with its name aliases and its values. */
  datatype Filter = Filter(
    expression: string,
    names: Option<map<string, Option<string>>>,
    values: map<string, AttributeValue>)

  datatype ScanRequest = ScanRequest(
    consistentRead: Option<bool>,
    limit: Option<Int32>,
    filter: Option<Filter>,
    attributesToProject: Option<seq<string>>)

  /** A query on one partition; it has no projection. */
  datatype QueryRequest = QueryRequest(
    consistentRead: Option<bool>,
    limit: Option<Int32>,
    partitionValue: string,
    filter: Option<Filter>)

  datatype ReadRequest =
    | TableScan(scan: ScanRequest)
    | TableQuery(query: QueryRequest)
    | IndexScan(index: string, scan: ScanRequest)
    | IndexQuery(index: string, query: QueryRequest)
  {
    predicate OnIndex() { IndexScan? || IndexQuery? }
    predicate IsQuery() { TableQuery? || IndexQuery? }
  }

  /** getAttributesToProject(): unset stays unset; otherwise the comma-separated names,
      each trimmed. */
  function AttributesToProject(attributes: Option<string>): (r: Option<seq<string>>)
    ensures r.Some? <==> attributes.Some?
    ensures r.Some? ==> |r.value| == |Split(attributes.value, ',')|
    ensures r.Some? ==> forall i :: 0 <= i < |r.value| ==> r.value[i] == Trim(Split(attributes.value, ',')[i])
  {
    match attributes
    case None => None
    case Some(text) =>
      var parts := Split(text, ',');
      Some(seq(|parts|, i requires 0 <= i < |parts| => Trim(parts[i])))
  }

  /** A name with something other than blanks at both of its ends. */
  predicate Unpadded(n: string)
  {
    n != [] && n[0] > ' ' && n[|n| - 1] > ' '
  }

  /** Names already trimmed, non-empty and free of commas come back from their
      comma-separated list unchanged. */
  lemma AttributesToProjectOfJoin(names: seq<string>)
    requires |names| > 0
    requires forall n :: n in names ==> Unpadded(n) && ',' !in n
    ensures AttributesToProject(Some(Join(names, [',']))) == Some(names)
  {
    var text := Join(names, [',']);
    SplitOfJoin(names, ',');
    assert Split(text, ',') == names;
    var r := AttributesToProject(Some(text)).value;
    assert |r| == |names|;
    forall i | 0 <= i < |names|
      ensures r[i] == names[i]
    {
      assert names[i] in names;
      assert Unpadded(names[i]);
      TrimUnpadded(names[i]);
    }
    assert r == names;
  }

  /** The projected names are all trimmed already: trimming them again changes nothing. */
  lemma AttributesToProjectTrimmed(attributes: string)
    ensures var r := AttributesToProject(Some(attributes)).value;
            forall i :: 0 <= i < |r| ==> Trim(r[i]) == r[i]
  {
    var r := AttributesToProject(Some(attributes)).value;
    forall i | 0 <= i < |r|
      ensures Trim(r[i]) == r[i]
    {
      TrimIdempotent(Split(attributes, ',')[i]);
    }
  }

  /** A JSON scalar read as a `String` map value: Jackson hands out a number's token as
      written and a boolean's text, keeps null as null and refuses arrays and objects. */
  function NameValue(j: Json): Option<Option<string>>
  {
    match j
    case JString(t) => Some(Some(t))
    case JNumber(t, _) => Some(Some(t))
    case JBool(b) => Some(Some(if b then "true" else "false"))
    case JNull => Some(None)
    case _ => None
  }

  /** getFilterExpressionNames(): unset or a JSON null gives no names; an object of scalars
      gives the alias map; anything else is an `IllegalArgumentException`. */
  function FilterExpressionNames(names: Option<JsonText>): (r: Result<Option<map<string, Option<string>>>, Error>)
    ensures names.None? ==> r == Ok(None)
    ensures r.Err? ==> r.error == IllegalArgument("Invalid filterExpressionNames JSON")
    ensures r.Ok? && r.value.Some? ==>
              && names.Some? && names.value.Parsed? && names.value.tree.JObject?
              && r.value.value.Keys == names.value.tree.fields.Keys
              && forall k :: k in r.value.value ==> Some(r.value.value[k]) == NameValue(names.value.tree.fields[k])
    ensures names.Some? && names.value.Parsed? && names.value.tree.JObject? ==>
              (r.Ok? <==> forall k :: k in names.value.tree.fields ==> NameValue(names.value.tree.fields[k]).Some?)
  {
    match names
    case None => Ok(None)
    case Some(Malformed) => Err(IllegalArgument("Invalid filterExpressionNames JSON"))
    case Some(Parsed(JNull)) => Ok(None)
    case Some(Parsed(JObject(fs))) =>
      if forall k :: k in fs ==> NameValue(fs[k]).Some? then
        Ok(Some(map k | k in fs :: NameValue(fs[k]).value))
      else
        Err(IllegalArgument("Invalid filterExpressionNames JSON"))
    case Some(Parsed(_)) => Err(IllegalArgument("Invalid filterExpressionNames JSON"))
  }

  /** A number keeps its spelling as a name alias, while the same number as a filter value
      is the text Jackson renders. */
  lemma NumberAliasKeepsToken()
    ensures var number := JNumber("1.50", "1.5");
            && FilterExpressionNames(Some(Parsed(JObject(map["#price" := number]))))
                 == Ok(Some(map["#price" := Some("1.50")]))
            && FilterExpressionValues(Some(Parsed(JObject(map[":price" := number]))))
                 == Ok(map[":price" := N("1.5")])
  {
    var names := map["#price" := JNumber("1.50", "1.5")];
    assert forall k :: k in names ==> NameValue(names[k]).Some?;
    assert (map k | k in names :: NameValue(names[k]).value) == map["#price" := Some("1.50")];
    var values := map[":price" := JNumber("1.50", "1.5")];
    assert (map k | k in values :: AttributeValueOf(values[k])) == map[":price" := N("1.5")];
  }

  /** getFilterExpressionValues(): unset gives the empty map; an object gives its converted
      fields; malformed JSON is an `IllegalArgumentException` and any other JSON value, not
      being an object, a `ClassCastException`. */
  function FilterExpressionValues(values: Option<JsonText>): (r: Result<map<string, AttributeValue>, Error>)
    ensures values.None? ==> r == Ok(map[])
    ensures values == Some(Malformed) <==> r == Err(IllegalArgument("Invalid filterExpressionValues JSON"))
    ensures r == Err(ClassCast) <==> values.Some? && values.value.Parsed? && !values.value.tree.JObject?
    ensures values.Some? && values.value.Parsed? && values.value.tree.JObject? ==>
              r == Ok(AttributeValueOf(values.value.tree).m)
  {
    match values
    case None => Ok(map[])
    case Some(Malformed) => Err(IllegalArgument("Invalid filterExpressionValues JSON"))
    case Some(Parsed(JObject(fs))) => Ok(AttributeValueOf(JObject(fs)).m)
    case Some(Parsed(_)) => Err(ClassCast)
  }

  /** getFilterExpression(): no filter when no expression is set; otherwise the expression
      with its names and then its values, the first failure of the two winning. */
  function FilterExpression(c: ReaderConfig): (r: Result<Option<Filter>, Error>)
    ensures c.filterExpression.None? ==> r == Ok(None)
    ensures r.Ok? && r.value.Some? ==>
              && Some(r.value.value.expression) == c.filterExpression
              && Ok(r.value.value.names) == FilterExpressionNames(c.filterExpressionNames)
              && Ok(r.value.value.values) == FilterExpressionValues(c.filterExpressionValues)
    ensures c.filterExpression.Some? ==>
              (r.Ok? <==> FilterExpressionNames(c.filterExpressionNames).Ok?
                          && FilterExpressionValues(c.filterExpressionValues).Ok?)
    ensures c.filterExpression.Some? && FilterExpressionNames(c.filterExpressionNames).Err? ==>
              r == Err(FilterExpressionNames(c.filterExpressionNames).error)
  {
    match c.filterExpression
    case None => Ok(None)
    case Some(e) =>
      match FilterExpressionNames(c.filterExpressionNames)
      case Err(err) => Err(err)
      case Ok(names) =>
        match FilterExpressionValues(c.filterExpressionValues)
        case Err(err) => Err(err)
        case Ok(values) => Ok(Some(Filter(e, names, values)))
  }

  /** read(table): the source follows `indexName` and `partitionKey`, scans carry the
      projection, queries carry the partition key. */
  function Read(c: ReaderConfig): (r: Result<ReadRequest, Error>)
    ensures r.Ok? <==> FilterExpression(c).Ok?
    ensures r.Err? ==> r.error == FilterExpression(c).error
    ensures r.Ok? ==> (r.value.OnIndex() <==> c.indexName.Some?)
    ensures r.Ok? ==> (r.value.IsQuery() <==> c.partitionKey.Some?)
    ensures r.Ok? && r.value.OnIndex() ==> Some(r.value.index) == c.indexName
    ensures r.Ok? && r.value.IsQuery() ==>
              r.value.query == QueryRequest(c.consistentRead, c.limit, c.partitionKey.value, FilterExpression(c).value)
    ensures r.Ok? && !r.value.IsQuery() ==>
              r.value.scan == ScanRequest(c.consistentRead, c.limit, FilterExpression(c).value,
                                          AttributesToProject(c.attributesToProject))
  {
    match FilterExpression(c)
    case Err(e) => Err(e)
    case Ok(filter) =>
      match (c.indexName, c.partitionKey)
      case (None, None) =>
        Ok(TableScan(ScanRequest(c.consistentRead, c.limit, filter, AttributesToProject(c.attributesToProject))))
      case (None, Some(key)) =>
        Ok(TableQuery(QueryRequest(c.consistentRead, c.limit, key, filter)))
      case (Some(index), None) =>
        Ok(IndexScan(index, ScanRequest(c.consistentRead, c.limit, filter, AttributesToProject(c.attributesToProject))))
      case (Some(index), Some(key)) =>
        Ok(IndexQuery(index, QueryRequest(c.consistentRead, c.limit, key, filter)))
  }

  // ---------------------------------------------------------------------------
  // The start/end window

  /** The `skip`/`limit` steps of open(): a `start` that is set and not negative skips that
      many items; an `end` that is set and positive limits the stream to `end - start` items,
      computed in 32-bit `int` arithmetic with an unset `start` counting as 0. A negative
      limit is the `IllegalArgumentException` of `Stream.limit`, whose message is the limit. */
  function Window<D>(items: seq<D>, start: Option<Int32>, end: Option<Int32>): (r: Result<seq<D>, Error>)
  {
    var skipped := if start.Some? && start.value >= 0 then items[Min(start.value, |items|)..] else items;
    if end.Some? && end.value > 0 then
      var limit := Wrap32(end.value - (if start.None? then 0 else start.value));
      if limit < 0 then Err(IllegalArgument(IntToString(limit)))
      else Ok(skipped[..Min(limit, |skipped|)])
    else Ok(skipped)
  }

  /** With `0 <= start <= end` and a positive `end`, the window is the items at indices
      `start` up to `min(end, n) - 1`, in source order. */
  lemma WindowBetween<D>(items: seq<D>, start: Int32, end: Int32)
    requires 0 <= start <= end && end > 0
    ensures Window(items, Some(start), Some(end)) == Ok(items[Min(start, |items|)..Min(end, |items|)])
  {
    var skipped := items[Min(start, |items|)..];
    assert Min(end - start, |skipped|) + Min(start, |items|) == Min(end, |items|);
    assert skipped[..Min(end - start, |skipped|)] == items[Min(start, |items|)..Min(end, |items|)];
  }

  /** Start 10 and end 20 over 60 items give the ten items from index 10 on. */
  lemma WindowTenOfSixty<D>(items: seq<D>)
    requires |items| == 60
    ensures Window(items, Some(10), Some(20)) == Ok(items[10..20])
    ensures |Window(items, Some(10), Some(20)).value| == 10
  {
    WindowBetween(items, 10, 20);
  }

  /** An unset or non-positive `end` applies no limit; an unset or negative `start` skips
      nothing. */
  lemma WindowUnbounded<D>(items: seq<D>, start: Option<Int32>, end: Option<Int32>)
    requires end.None? || end.value <= 0
    ensures start.None? || start.value < 0 ==> Window(items, start, end) == Ok(items)
    ensures start.Some? && start.value >= 0 ==> Window(items, start, end) == Ok(items[Min(start.value, |items|)..])
  {
  }

  /** The limit subtracts the raw `start`: a negative `start` skips nothing but lets the
      window run to `end - start` items, as long as that difference fits an `int`. */
  lemma WindowNegativeStart<D>(items: seq<D>, start: Int32, end: Int32)
    requires start < 0 < end
    ensures end - start <= INT_MAX ==> Window(items, Some(start), Some(end)) == Ok(items[..Min(end - start, |items|)])
    ensures end - start > INT_MAX ==> Window(items, Some(start), Some(end)).Err?
  {
  }

  /** A `start` beyond a positive `end` gives a negative limit, which `Stream.limit` refuses. */
  lemma WindowStartAfterEnd<D>(items: seq<D>, start: Int32, end: Int32)
    requires 0 < end < start
    ensures Window(items, Some(start), Some(end)) == Err(IllegalArgument(IntToString(end - start)))
  {
  }

  /** The window never holds more items than the source and never reorders them: it is a
      contiguous slice of the source. */
  lemma WindowIsSlice<D>(items: seq<D>, start: Option<Int32>, end: Option<Int32>)
    ensures Window(items, start, end).Ok? ==>
              exists lo, hi :: 0 <= lo <= hi <= |items| && Window(items, start, end).value == items[lo..hi]
  {
    if Window(items, start, end).Ok? {
      var lo := if start.Some? && start.value >= 0 then Min(start.value, |items|) else 0;
      var skipped := items[lo..];
      if end.Some? && end.value > 0 {
        var limit := Wrap32(end.value - (if start.None? then 0 else start.value));
        assert skipped[..Min(limit, |skipped|)] == items[lo..lo + Min(limit, |skipped|)];
        assert Window(items, start, end).value == items[lo..lo + Min(limit, |skipped|)];
      } else {
        assert Window(items, start, end).value == items[lo..|items|];
      }
    }
  }

  /** Everything open() does before the iterator exists: build the request (which is where
      a bad filter property throws), send it, and window what comes back. */
  function Opened<D>(c: ReaderConfig, service: ReadRequest -> seq<D>): Result<seq<D>, Error>
  {
    match Read(c)
    case Err(e) => Err(e)
    case Ok(request) => Window(service(request), c.start, c.end)
  }

  // ---------------------------------------------------------------------------
  // The reader

  class DynamoDbItemReader<D> {
    const config: ReaderConfig
    /** The item iterator; `None` until open() has succeeded. */
    var itemIterator: Option<seq<D>>
    /** The window open() exposed, and the part of it readItem() has handed out. */
    ghost var window: seq<D>
    ghost var delivered: seq<D>

    /** Whatever has been read, followed by what the iterator still holds, is the window. */
    ghost predicate Valid()
      reads this
    {
      itemIterator.Some? ==> delivered + itemIterator.value == window
    }

    constructor (config: ReaderConfig)
      ensures Valid()
      ensures this.config == config && itemIterator == None
    {
      this.config := config;
      itemIterator := None;
      window := [];
      delivered := [];
    }

    /** open(checkpoint): the checkpoint is ignored; on success the iterator holds the
        window of what the service returned, on failure nothing changes. */
    method Open(checkpoint: Option<int>, service: ReadRequest -> seq<D>) returns (err: Option<Error>)
      requires Valid()
      modifies this
      ensures Valid()
      ensures Opened(config, service).Ok? ==>
                && err == None
                && itemIterator == Some(Opened(config, service).value)
                && window == Opened(config, service).value && delivered == []
      ensures Opened(config, service).Err? ==>
                && err == Some(Opened(config, service).error)
                && itemIterator == old(itemIterator) && window == old(window) && delivered == old(delivered)
    {
      var request := Read(config);
      if request.Err? {
        return Some(request.error);
      }
      var itemStream := service(request.value);
      var windowed := Window(itemStream, config.start, config.end);
      if windowed.Err? {
        return Some(windowed.error);
      }
      itemIterator := Some(windowed.value);
      window := windowed.value;
      delivered := [];
      err := None;
    }

    /** readItem(): the next item of the window while one remains, then null on every call. */
    method ReadItem() returns (item: Option<D>)
      requires Valid() && itemIterator.Some?
      modifies this`itemIterator, this`delivered
      ensures Valid() && itemIterator.Some?
      ensures old(itemIterator.value) == [] ==> item == None && itemIterator == old(itemIterator)
      ensures old(itemIterator.value) != [] ==>
                && item == Some(old(itemIterator.value)[0])
                && itemIterator == Some(old(itemIterator.value)[1..])
      ensures delivered == old(delivered) + (if item.Some? then [item.value] else [])
      ensures item.Some? ==> item.value == window[|old(delivered)|]
    {
      var remaining := itemIterator.value;
      if remaining == [] {
        return None;
      }
      item := Some(remaining[0]);
      itemIterator := Some(remaining[1..]);
      delivered := delivered + [remaining[0]];
      assert window == old(delivered) + [remaining[0]] + remaining[1..];
    }

    /** checkpointInfo(): the reader keeps no checkpoint. */
    function CheckpointInfo(): Option<int>
    {
      None
    }
  }
}
