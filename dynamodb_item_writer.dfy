/**
 * DynamoDbItemWriter: writes each chunk of items to a DynamoDB table through
 * BatchWriteItem, in batches of at most 25 requests (the service's limit per call), then
 * hands the requests DynamoDB left unprocessed to two overridable hooks.
 */
module DynamoDbWriter {
  import opened Wrappers
  import opened Sequences

  /** The most write requests one BatchWriteItem call accepts. */
  const MAX_BATCH_WRITE_ITEMS: nat := 25

  /** A table item: its primary key and its other attributes. */
  datatype Item = Item(key: string, attributes: map<string, string>)

  /** One request of a write batch; a delete is addressed by the item's key. */
  datatype WriteRequest = PutRequest(item: Item) | DeleteRequest(key: string)

  /** addItemToBatch with the default shouldDeleteItem, which answers the `deleteItem` property. */
  function RequestFor(item: Item, deleteItem: bool): (r: WriteRequest)
    ensures r.PutRequest? <==> !deleteItem
    ensures r.PutRequest? ==> r.item == item
    ensures r.DeleteRequest? ==> r.key == item.key
  {
    if deleteItem then DeleteRequest(item.key) else PutRequest(item)
  }

  /** The requests for a list of items, one per item and in order. */
  function WriteRequests(items: seq<Item>, deleteItem: bool): (rs: seq<WriteRequest>)
    ensures |rs| == |items|
    ensures forall i :: 0 <= i < |items| ==> rs[i] == RequestFor(items[i], deleteItem)
  {
    seq(|items|, i requires 0 <= i < |items| => RequestFor(items[i], deleteItem))
  }

  // ---------------------------------------------------------------------------
  // Batching.

  /** The batches writeItems sends: consecutive runs of 25, the last one shorter. */
  function Batches<T>(s: seq<T>): seq<seq<T>>
    decreases |s|
  {
    if |s| == 0 then []
    else if |s| <= MAX_BATCH_WRITE_ITEMS then [s]
    else [s[..MAX_BATCH_WRITE_ITEMS]] + Batches(s[MAX_BATCH_WRITE_ITEMS..])
  }

  function Flatten<T>(ss: seq<seq<T>>): seq<T>
  {
    if |ss| == 0 then [] else ss[0] + Flatten(ss[1..])
  }

  /** Batching loses, repeats and reorders nothing; no batch is empty or over the limit,
      every batch but the last is full, and there are ceil(n / 25) of them. */
  lemma {:induction false} BatchesPartition<T>(s: seq<T>)
    ensures Flatten(Batches(s)) == s
    ensures forall b :: b in Batches(s) ==> 0 < |b| <= MAX_BATCH_WRITE_ITEMS
    ensures forall j :: 0 <= j < |Batches(s)| - 1 ==> |Batches(s)[j]| == MAX_BATCH_WRITE_ITEMS
    ensures |Batches(s)| == (|s| + MAX_BATCH_WRITE_ITEMS - 1) / MAX_BATCH_WRITE_ITEMS
    decreases |s|
  {
    if |s| > MAX_BATCH_WRITE_ITEMS {
      var rest := s[MAX_BATCH_WRITE_ITEMS..];
      BatchesPartition(rest);
      assert Batches(s) == [s[..MAX_BATCH_WRITE_ITEMS]] + Batches(rest);
      assert Batches(s)[1..] == Batches(rest);
      assert s == s[..MAX_BATCH_WRITE_ITEMS] + rest;
      forall j | 1 <= j < |Batches(s)| - 1
        ensures |Batches(s)[j]| == MAX_BATCH_WRITE_ITEMS
      {
        assert Batches(s)[j] == Batches(rest)[j - 1];
      }
    }
  }

  /** How many full batches `n` requests make. */
  function FullBatches(n: nat): (k: nat)
    ensures MAX_BATCH_WRITE_ITEMS * k <= n < MAX_BATCH_WRITE_ITEMS * k + MAX_BATCH_WRITE_ITEMS
  {
    n / MAX_BATCH_WRITE_ITEMS
  }

  /** Appending a batch's worth after a whole number of full batches adds one batch. */
  lemma {:induction false} BatchesAppend<T>(s: seq<T>, t: seq<T>, k: nat)
    requires |s| == MAX_BATCH_WRITE_ITEMS * k
    requires 0 < |t| <= MAX_BATCH_WRITE_ITEMS
    ensures Batches(s + t) == Batches(s) + [t]
    decreases k
  {
    if k > 0 {
      var n := MAX_BATCH_WRITE_ITEMS;
      assert (s + t)[..n] == s[..n];
      assert (s + t)[n..] == s[n..] + t;
      BatchesAppend(s[n..], t, k - 1);
      assert Batches(s + t) == [s[..n]] + Batches(s[n..] + t);
      if |s| == n {
        assert s[n..] == [] && s[..n] == s;
      } else {
        assert Batches(s) == [s[..n]] + Batches(s[n..]);
      }
    } else {
      assert s + t == t;
    }
  }

  // ---------------------------------------------------------------------------
  // What DynamoDB leaves unprocessed.

  /**
   * The requests of batch `batch`, sent as call number `call`, that DynamoDB leaves
   * unprocessed (throttling, capacity), in batch order; `throttled(call, i)` says whether
   * the request at position `i` was left.
   */
  function Unprocessed(throttled: (nat, nat) -> bool, call: nat, batch: seq<WriteRequest>): seq<WriteRequest>
  {
    if |batch| == 0 then []
    else
      var last := |batch| - 1;
      Unprocessed(throttled, call, batch[..last]) + (if throttled(call, last) then [batch[last]] else [])
  }

  /** The unprocessed requests of consecutive calls, the first numbered `firstCall`. */
  function UnprocessedAcross(throttled: (nat, nat) -> bool, firstCall: nat, batches: seq<seq<WriteRequest>>)
    : seq<WriteRequest>
    decreases |batches|
  {
    if |batches| == 0 then []
    else Unprocessed(throttled, firstCall, batches[0]) + UnprocessedAcross(throttled, firstCall + 1, batches[1..])
  }

  /** One more call adds that call's unprocessed requests at the end. */
  lemma {:induction false} UnprocessedAcrossSnoc(throttled: (nat, nat) -> bool, firstCall: nat,
                                                 batches: seq<seq<WriteRequest>>, t: seq<WriteRequest>)
    ensures UnprocessedAcross(throttled, firstCall, batches + [t])
            == UnprocessedAcross(throttled, firstCall, batches) + Unprocessed(throttled, firstCall + |batches|, t)
    decreases |batches|
  {
    if |batches| > 0 {
      assert (batches + [t])[1..] == batches[1..] + [t];
      UnprocessedAcrossSnoc(throttled, firstCall + 1, batches[1..], t);
    }
  }

  lemma SubMultisetConcat<T>(a: seq<T>, x: seq<T>, b: seq<T>, y: seq<T>)
    requires multiset(a) <= multiset(x) && multiset(b) <= multiset(y)
    ensures multiset(a + b) <= multiset(x + y)
  {
  }

  /** DynamoDB only ever hands back requests of the batch it was sent. */
  lemma {:induction false} UnprocessedOfBatch(throttled: (nat, nat) -> bool, call: nat, batch: seq<WriteRequest>)
    ensures multiset(Unprocessed(throttled, call, batch)) <= multiset(batch)
  {
    if |batch| > 0 {
      var last := |batch| - 1;
      var init := batch[..last];
      var pre := Unprocessed(throttled, call, init);
      assert batch == init + [batch[last]];
      UnprocessedOfBatch(throttled, call, init);
      if throttled(call, last) {
        assert Unprocessed(throttled, call, batch) == pre + [batch[last]];
        SubMultisetConcat(pre, init, [batch[last]], [batch[last]]);
      } else {
        assert Unprocessed(throttled, call, batch) == pre + [];
        SubMultisetConcat(pre, init, [], [batch[last]]);
      }
    }
  }

  lemma {:induction false} UnprocessedOfBatches(throttled: (nat, nat) -> bool, firstCall: nat,
                                                batches: seq<seq<WriteRequest>>)
    ensures multiset(UnprocessedAcross(throttled, firstCall, batches)) <= multiset(Flatten(batches))
    decreases |batches|
  {
    if |batches| > 0 {
      UnprocessedOfBatches(throttled, firstCall + 1, batches[1..]);
      UnprocessedOfBatch(throttled, firstCall, batches[0]);
      SubMultisetConcat(Unprocessed(throttled, firstCall, batches[0]), batches[0],
                        UnprocessedAcross(throttled, firstCall + 1, batches[1..]), Flatten(batches[1..]));
    }
  }

  lemma {:induction false} FlattenSnoc<T>(ss: seq<seq<T>>, t: seq<T>)
    ensures Flatten(ss + [t]) == Flatten(ss) + t
  {
    if |ss| > 0 {
      assert (ss + [t])[1..] == ss[1..] + [t];
      FlattenSnoc(ss[1..], t);
    }
  }

  /** When `s` holds fewer than 25 requests past its first `k` full batches, those requests
      are its last batch, and their unprocessed put items and delete keys come last. */
  lemma SentLast(throttled: (nat, nat) -> bool, firstCall: nat, s: seq<WriteRequest>, k: nat)
    requires MAX_BATCH_WRITE_ITEMS * k < |s| <= MAX_BATCH_WRITE_ITEMS * k + MAX_BATCH_WRITE_ITEMS
    ensures var a := MAX_BATCH_WRITE_ITEMS * k;
            var before := UnprocessedAcross(throttled, firstCall, Batches(s[..a]));
            var now := Unprocessed(throttled, firstCall + |Batches(s[..a])|, s[a..]);
            var after := UnprocessedAcross(throttled, firstCall, Batches(s));
            && Batches(s) == Batches(s[..a]) + [s[a..]]
            && PutItems(after) == PutItems(before) + PutItems(now)
            && DeleteKeys(after) == DeleteKeys(before) + DeleteKeys(now)
  {
    var a := MAX_BATCH_WRITE_ITEMS * k;
    assert s[..a] + s[a..] == s;
    BatchesAppend(s[..a], s[a..], k);
    var bs := Batches(s[..a]);
    UnprocessedAcrossSnoc(throttled, firstCall, bs, s[a..]);
    var before := UnprocessedAcross(throttled, firstCall, bs);
    var now := Unprocessed(throttled, firstCall + |bs|, s[a..]);
    PutItemsAppend(before, now);
    DeleteKeysAppend(before, now);
  }

  /** Sending `s[a..b]` as one more batch after the `k` full batches of `s[..a]` extends
      the batches of `s[..a]` to those of `s[..b]`, and the unprocessed put items and delete
      keys by that batch's share. */
  lemma SentBatch(throttled: (nat, nat) -> bool, firstCall: nat, s: seq<WriteRequest>, k: nat, b: nat)
    requires MAX_BATCH_WRITE_ITEMS * k < b <= |s| && b - MAX_BATCH_WRITE_ITEMS * k <= MAX_BATCH_WRITE_ITEMS
    ensures var a := MAX_BATCH_WRITE_ITEMS * k;
            var before := UnprocessedAcross(throttled, firstCall, Batches(s[..a]));
            var now := Unprocessed(throttled, firstCall + |Batches(s[..a])|, s[a..b]);
            var after := UnprocessedAcross(throttled, firstCall, Batches(s[..b]));
            && Batches(s[..b]) == Batches(s[..a]) + [s[a..b]]
            && PutItems(after) == PutItems(before) + PutItems(now)
            && DeleteKeys(after) == DeleteKeys(before) + DeleteKeys(now)
  {
    var a := MAX_BATCH_WRITE_ITEMS * k;
    assert s[..b][..a] == s[..a] && s[..b][a..] == s[a..b];
    SentLast(throttled, firstCall, s[..b], k);
  }

  /** The full batches of `rs` followed by what is left of it, flushed last, are the
      batches of `rs`. */
  lemma FlushedBatches(throttled: (nat, nat) -> bool, sent: seq<seq<WriteRequest>>, rs: seq<WriteRequest>)
    ensures var done := MAX_BATCH_WRITE_ITEMS * FullBatches(|rs|);
            var full := Batches(rs[..done]);
            sent + Batches(rs) == (sent + full) + (if rs[done..] == [] then [] else [rs[done..]])
  {
    if MAX_BATCH_WRITE_ITEMS * FullBatches(|rs|) < |rs| {
      SentLast(throttled, |sent|, rs, FullBatches(|rs|));
    } else {
      assert rs[..|rs|] == rs && rs[|rs|..] == [];
      assert sent + Batches(rs) + [] == sent + Batches(rs);
    }
  }

  /** The unprocessed put items of the batches of `rs`, sent from call number `firstCall`
      on, are those of its full batches followed by those of the rest, flushed last. */
  lemma FlushedPuts(throttled: (nat, nat) -> bool, firstCall: nat, rs: seq<WriteRequest>)
    ensures var done := MAX_BATCH_WRITE_ITEMS * FullBatches(|rs|);
            var full := Batches(rs[..done]);
            var sentLeft := UnprocessedAcross(throttled, firstCall, full);
            var lastLeft := Unprocessed(throttled, firstCall + |full|, rs[done..]);
            var left := UnprocessedAcross(throttled, firstCall, Batches(rs));
            PutItems(left) == PutItems(sentLeft) + PutItems(lastLeft)
  {
    if MAX_BATCH_WRITE_ITEMS * FullBatches(|rs|) < |rs| {
      SentLast(throttled, firstCall, rs, FullBatches(|rs|));
    } else {
      assert rs[..|rs|] == rs && rs[|rs|..] == [];
      var left := UnprocessedAcross(throttled, firstCall, Batches(rs));
      assert PutItems(left) + [] == PutItems(left);
    }
  }

  /** The same for the keys of the unprocessed delete requests. */
  lemma FlushedDeletes(throttled: (nat, nat) -> bool, firstCall: nat, rs: seq<WriteRequest>)
    ensures var done := MAX_BATCH_WRITE_ITEMS * FullBatches(|rs|);
            var full := Batches(rs[..done]);
            var sentLeft := UnprocessedAcross(throttled, firstCall, full);
            var lastLeft := Unprocessed(throttled, firstCall + |full|, rs[done..]);
            var left := UnprocessedAcross(throttled, firstCall, Batches(rs));
            DeleteKeys(left) == DeleteKeys(sentLeft) + DeleteKeys(lastLeft)
  {
    if MAX_BATCH_WRITE_ITEMS * FullBatches(|rs|) < |rs| {
      SentLast(throttled, firstCall, rs, FullBatches(|rs|));
    } else {
      assert rs[..|rs|] == rs && rs[|rs|..] == [];
      var left := UnprocessedAcross(throttled, firstCall, Batches(rs));
      assert DeleteKeys(left) + [] == DeleteKeys(left);
    }
  }

  /** `unprocessedPutItemsForTable`: the items of the put requests. */
  function PutItems(rs: seq<WriteRequest>): seq<Item>
  {
    if |rs| == 0 then []
    else PutItems(rs[..|rs| - 1]) + (if rs[|rs| - 1].PutRequest? then [rs[|rs| - 1].item] else [])
  }

  /** `unprocessedDeleteItemsForTable`: the keys of the delete requests. */
  function DeleteKeys(rs: seq<WriteRequest>): seq<string>
  {
    if |rs| == 0 then []
    else DeleteKeys(rs[..|rs| - 1]) + (if rs[|rs| - 1].DeleteRequest? then [rs[|rs| - 1].key] else [])
  }

  lemma {:induction false} PutItemsAppend(a: seq<WriteRequest>, b: seq<WriteRequest>)
    ensures PutItems(a + b) == PutItems(a) + PutItems(b)
    decreases |b|
  {
    if |b| > 0 {
      assert (a + b)[..|a + b| - 1] == a + b[..|b| - 1];
      PutItemsAppend(a, b[..|b| - 1]);
    } else {
      assert a + b == a;
    }
  }

  lemma {:induction false} DeleteKeysAppend(a: seq<WriteRequest>, b: seq<WriteRequest>)
    ensures DeleteKeys(a + b) == DeleteKeys(a) + DeleteKeys(b)
    decreases |b|
  {
    if |b| > 0 {
      assert (a + b)[..|a + b| - 1] == a + b[..|b| - 1];
      DeleteKeysAppend(a, b[..|b| - 1]);
    } else {
      assert a + b == a;
    }
  }

  /** Requests made of puts only leave no delete keys, and the other way round. */
  lemma {:induction false} OneKindOnly(rs: seq<WriteRequest>)
    ensures (forall r :: r in rs ==> r.PutRequest?) ==> DeleteKeys(rs) == []
    ensures (forall r :: r in rs ==> r.DeleteRequest?) ==> PutItems(rs) == []
  {
    if |rs| > 0 {
      OneKindOnly(rs[..|rs| - 1]);
      assert rs[|rs| - 1] in rs;
      assert forall r :: r in rs[..|rs| - 1] ==> r in rs;
    }
  }

  /** Everything handed to the hooks after writeItems comes from the items written, and
      only the kind of request the `deleteItem` property selects is ever left over. */
  lemma UnprocessedFromItems(throttled: (nat, nat) -> bool, firstCall: nat, items: seq<Item>, deleteItem: bool)
    ensures var rs := WriteRequests(items, deleteItem);
            var failed := UnprocessedAcross(throttled, firstCall, Batches(rs));
            && multiset(failed) <= multiset(rs)
            && (!deleteItem ==> DeleteKeys(failed) == [] && multiset(PutItems(failed)) <= multiset(items))
            && (deleteItem ==> PutItems(failed) == [])
  {
    var rs := WriteRequests(items, deleteItem);
    var failed := UnprocessedAcross(throttled, firstCall, Batches(rs));
    assert multiset(failed) <= multiset(rs) by {
      BatchesPartition(rs);
      UnprocessedOfBatches(throttled, firstCall, Batches(rs));
    }
    assert forall r :: r in failed ==> r in rs by {
      forall r | r in failed ensures r in rs {
        assert r in multiset(failed);
      }
    }
    OneKindOnly(failed);
    if !deleteItem {
      assert multiset(PutItems(failed)) <= multiset(items) by {
        PutItemsOfPuts(rs, items);
        PutItemsSub(failed, rs);
      }
    }
  }

  /** Without delete items, the put items of the requests are the items themselves. */
  lemma {:induction false} PutItemsOfPuts(rs: seq<WriteRequest>, items: seq<Item>)
    requires rs == WriteRequests(items, false)
    ensures PutItems(rs) == items
    decreases |items|
  {
    if |items| > 0 {
      var k := |items| - 1;
      assert rs[..k] == WriteRequests(items[..k], false);
      PutItemsOfPuts(rs[..k], items[..k]);
      assert items == items[..k] + [items[k]];
    }
  }

  /** Taking put items keeps the sub-multiset relation. */
  lemma {:induction false} PutItemsSub(u: seq<WriteRequest>, rs: seq<WriteRequest>)
    requires multiset(u) <= multiset(rs)
    ensures multiset(PutItems(u)) <= multiset(PutItems(rs))
    decreases |u|
  {
    if |u| > 0 {
      var init := u[..|u| - 1];
      var last := u[|u| - 1];
      assert u == init + [last];
      assert last in multiset(rs);
      var i :| 0 <= i < |rs| && rs[i] == last;
      var rest := rs[..i] + rs[i + 1..];
      var p := PutItems([last]);
      assert multiset(PutItems(rs)) == multiset(PutItems(rest)) + multiset(p) by {
        RemoveOne(rs, i);
        PutItemsAppend(rs[..i] + [last], rs[i + 1..]);
        PutItemsAppend(rs[..i], [last]);
        PutItemsAppend(rs[..i], rs[i + 1..]);
      }
      assert multiset(PutItems(u)) == multiset(PutItems(init)) + multiset(p) by {
        PutItemsAppend(init, [last]);
      }
      assert multiset(PutItems(init)) <= multiset(PutItems(rest)) by {
        RemoveOne(rs, i);
        CancelOne(init, rest, last);
        PutItemsSub(init, rest);
      }
    }
  }

  lemma RemoveOne<T>(s: seq<T>, i: nat)
    requires i < |s|
    ensures s == s[..i] + [s[i]] + s[i + 1..]
    ensures multiset(s) == multiset(s[..i] + s[i + 1..]) + multiset{s[i]}
  {
    assert s == s[..i] + [s[i]] + s[i + 1..];
  }

  lemma CancelOne<T>(a: seq<T>, b: seq<T>, x: T)
    requires multiset(a + [x]) <= multiset(b) + multiset{x}
    ensures multiset(a) <= multiset(b)
  {
    forall y
      ensures multiset(a)[y] <= multiset(b)[y]
    {
      assert multiset(a + [x])[y] == multiset(a)[y] + multiset{x}[y];
    }
  }

  /** When DynamoDB processes every request, neither hook is called. */
  lemma {:induction false} NothingLeftWhenAllProcessed(throttled: (nat, nat) -> bool, firstCall: nat,
                                                      batches: seq<seq<WriteRequest>>)
    requires forall c, i :: !throttled(c, i)
    ensures UnprocessedAcross(throttled, firstCall, batches) == []
    decreases |batches|
  {
    if |batches| > 0 {
      AllProcessed(throttled, firstCall, batches[0]);
      NothingLeftWhenAllProcessed(throttled, firstCall + 1, batches[1..]);
    }
  }

  lemma {:induction false} AllProcessed(throttled: (nat, nat) -> bool, call: nat, batch: seq<WriteRequest>)
    requires forall c, i :: !throttled(c, i)
    ensures Unprocessed(throttled, call, batch) == []
  {
    if |batch| > 0 {
      AllProcessed(throttled, call, batch[..|batch| - 1]);
    }
  }

  // ---------------------------------------------------------------------------
  // The service and the writer.

  /** The enhanced client's BatchWriteItem against the one table the writer uses. */
  class EnhancedClient {
    const throttled: (nat, nat) -> bool
    /** Every batch sent so far, in order. */
    var requests: seq<seq<WriteRequest>>

    constructor (throttled: (nat, nat) -> bool)
      ensures this.throttled == throttled && requests == []
    {
      this.throttled := throttled;
      requests := [];
    }

    /** BatchWriteItem: DynamoDB refuses an empty batch and one of more than 25 requests. */
    method BatchWriteItem(batch: seq<WriteRequest>) returns (unprocessed: seq<WriteRequest>)
      requires 0 < |batch| <= MAX_BATCH_WRITE_ITEMS
      modifies this`requests
      ensures requests == old(requests) + [batch]
      ensures unprocessed == Unprocessed(throttled, |old(requests)|, batch)
    {
      unprocessed := Unprocessed(throttled, |requests|, batch);
      requests := requests + [batch];
    }
  }

  /** The writer's inner InternalWriteBatch: the batch being built, and what came back
      unprocessed from the batches already sent. */
  class InternalWriteBatch {
    const client: EnhancedClient
    const deleteItem: bool
    var batch: seq<WriteRequest>
    var batchSize: int
    var unprocessedPutItems: seq<Item>
    var unprocessedDeleteItems: seq<string>

    /** Between calls the batch is never full: a 25th request sends it at once. */
    ghost predicate Valid()
      reads this
    {
      batchSize == |batch| < MAX_BATCH_WRITE_ITEMS
    }

    constructor (client: EnhancedClient, deleteItem: bool)
      ensures Valid()
      ensures this.client == client && this.deleteItem == deleteItem
      ensures batch == [] && unprocessedPutItems == [] && unprocessedDeleteItems == []
    {
      this.client := client;
      this.deleteItem := deleteItem;
      batch := [];
      batchSize := 0;
      unprocessedPutItems := [];
      unprocessedDeleteItems := [];
    }

    method NewBatch()
      modifies this`batch, this`batchSize
      ensures batch == [] && batchSize == 0
    {
      batch := [];
      batchSize := 0;
    }

    /** flush(): sends a non-empty batch and collects what it leaves unprocessed. */
    method Flush()
      requires batchSize == |batch| <= MAX_BATCH_WRITE_ITEMS
      modifies this`batch, this`batchSize, this`unprocessedPutItems, this`unprocessedDeleteItems
      modifies client`requests
      ensures batch == [] && batchSize == 0
      ensures client.requests == old(client.requests) + (if old(batch) == [] then [] else [old(batch)])
      ensures var left := Unprocessed(client.throttled, |old(client.requests)|, old(batch));
              && unprocessedPutItems == old(unprocessedPutItems) + PutItems(left)
              && unprocessedDeleteItems == old(unprocessedDeleteItems) + DeleteKeys(left)
    {
      if batchSize == 0 {
        assert PutItems([]) == [] && DeleteKeys([]) == [];
        return;
      }
      var left := client.BatchWriteItem(batch);
      unprocessedPutItems := unprocessedPutItems + PutItems(left);
      unprocessedDeleteItems := unprocessedDeleteItems + DeleteKeys(left);
      NewBatch();
    }

    /** addItem(item): adds the item's request; the 25th request of a batch sends it. */
    method AddItem(item: Item)
      requires Valid()
      modifies this`batch, this`batchSize, this`unprocessedPutItems, this`unprocessedDeleteItems
      modifies client`requests
      ensures Valid()
      ensures var pending := old(batch) + [RequestFor(item, deleteItem)];
              var left := Unprocessed(client.throttled, |old(client.requests)|, pending);
              && (|pending| < MAX_BATCH_WRITE_ITEMS ==>
                    && batch == pending && client.requests == old(client.requests)
                    && unprocessedPutItems == old(unprocessedPutItems)
                    && unprocessedDeleteItems == old(unprocessedDeleteItems))
              && (|pending| == MAX_BATCH_WRITE_ITEMS ==>
                    && batch == [] && client.requests == old(client.requests) + [pending]
                    && unprocessedPutItems == old(unprocessedPutItems) + PutItems(left)
                    && unprocessedDeleteItems == old(unprocessedDeleteItems) + DeleteKeys(left))
    {
      batch := batch + [RequestFor(item, deleteItem)];
      batchSize := batchSize + 1;
      if batchSize == MAX_BATCH_WRITE_ITEMS {
        Flush();
      }
    }

    /** After the first `i` of the requests `rs` were added to a batch that started empty,
        with `sent0` already sent: the first `k` batches have gone out, each left its
        unprocessed requests behind, and the rest of the `i` requests are pending. */
    ghost predicate Progress(rs: seq<WriteRequest>, sent0: seq<seq<WriteRequest>>, k: nat, i: nat)
      reads this, client
    {
      && Valid()
      && MAX_BATCH_WRITE_ITEMS * k <= i <= |rs|
      && batch == rs[MAX_BATCH_WRITE_ITEMS * k..i]
      && client.requests == sent0 + Batches(rs[..MAX_BATCH_WRITE_ITEMS * k])
      && var left := UnprocessedAcross(client.throttled, |sent0|, Batches(rs[..MAX_BATCH_WRITE_ITEMS * k]));
         unprocessedPutItems == PutItems(left) && unprocessedDeleteItems == DeleteKeys(left)
    }

    /** addItem on the next request, `rs[i]`: the progress moves on by one request, and by
        one batch when that request fills the batch. */
    method AddNext(item: Item, ghost rs: seq<WriteRequest>, ghost sent0: seq<seq<WriteRequest>>,
                   ghost k: nat, ghost i: nat) returns (ghost k': nat)
      requires Progress(rs, sent0, k, i) && i < |rs| && rs[i] == RequestFor(item, deleteItem)
      modifies this`batch, this`batchSize, this`unprocessedPutItems, this`unprocessedDeleteItems
      modifies client`requests
      ensures Progress(rs, sent0, k', i + 1)
    {
      ghost var first: nat := |sent0|;
      ghost var a := MAX_BATCH_WRITE_ITEMS * k;
      ghost var pending := batch + [rs[i]];
      assert rs[a..i + 1] == pending;
      if batchSize + 1 == MAX_BATCH_WRITE_ITEMS {
        SentBatch(client.throttled, first, rs, k, i + 1);
        ghost var sent := client.requests;
        assert |sent| == first + |Batches(rs[..a])|;
        ghost var before := UnprocessedAcross(client.throttled, first, Batches(rs[..a]));
        ghost var now := Unprocessed(client.throttled, |sent|, pending);
        ghost var after := UnprocessedAcross(client.throttled, first, Batches(rs[..i + 1]));
        assert PutItems(after) == PutItems(before) + PutItems(now);
        assert DeleteKeys(after) == DeleteKeys(before) + DeleteKeys(now);
        AddItem(item);
        k' := k + 1;
        assert MAX_BATCH_WRITE_ITEMS * k' == i + 1;
        assert batch == rs[i + 1..i + 1];
        assert client.requests == sent0 + Batches(rs[..i + 1]) by {
          AppendAssoc(sent0, Batches(rs[..a]), [pending]);
        }
        assert unprocessedPutItems == PutItems(after);
        assert unprocessedDeleteItems == DeleteKeys(after);
      } else {
        AddItem(item);
        k' := k;
      }
    }

    /**
     * `items.forEach(batch::addItem)` on a new batch: every full batch of 25 requests has
     * been sent; the last, partial one is still pending. Together with the final flush
     * this sends exactly the batches of the items' requests.
     */
    method AddItems(items: seq<Item>)
      requires Valid() && batch == [] && unprocessedPutItems == [] && unprocessedDeleteItems == []
      modifies this`batch, this`batchSize, this`unprocessedPutItems, this`unprocessedDeleteItems
      modifies client`requests
      ensures Valid()
      ensures var rs := WriteRequests(items, deleteItem);
              var done := MAX_BATCH_WRITE_ITEMS * FullBatches(|items|);
              var left := UnprocessedAcross(client.throttled, |old(client.requests)|, Batches(rs[..done]));
              && batch == rs[done..]
              && client.requests == old(client.requests) + Batches(rs[..done])
              && unprocessedPutItems == PutItems(left) && unprocessedDeleteItems == DeleteKeys(left)
    {
      var rs := WriteRequests(items, deleteItem);
      ghost var sent0 := client.requests;
      ghost var k := 0;
      assert Progress(rs, sent0, 0, 0);
      for i := 0 to |items|
        invariant Progress(rs, sent0, k, i)
      {
        k := AddNext(items[i], rs, sent0, k, i);
      }
      assert k == FullBatches(|items|);
    }
  }

  class DynamoDbItemWriter {
    const deleteItem: bool
    const client: EnhancedClient
    /** The lists handed to handleUnprocessedPutItems and handleUnprocessedDeleteItems. */
    var unprocessedPutHookCalls: seq<seq<Item>>
    var unprocessedDeleteHookCalls: seq<seq<string>>

    constructor (deleteItem: bool, client: EnhancedClient)
      ensures this.deleteItem == deleteItem && this.client == client
      ensures unprocessedPutHookCalls == [] && unprocessedDeleteHookCalls == []
    {
      this.deleteItem := deleteItem;
      this.client := client;
      unprocessedPutHookCalls := [];
      unprocessedDeleteHookCalls := [];
    }

    /**
     * The sending half of writeItems: the items' requests go out through a new internal
     * batch, one BatchWriteItem call per batch of 25, in order; the result is what the
     * calls left unprocessed, put items and delete keys apart.
     */
    method SendBatches(items: seq<Item>) returns (puts: seq<Item>, deletes: seq<string>)
      modifies client`requests
      ensures var batches := Batches(WriteRequests(items, deleteItem));
              var left := UnprocessedAcross(client.throttled, |old(client.requests)|, batches);
              && client.requests == old(client.requests) + batches
              && puts == PutItems(left) && deletes == DeleteKeys(left)
    {
      ghost var first: nat := |client.requests|;
      var wb := new InternalWriteBatch(client, deleteItem);
      wb.AddItems(items);
      wb.Flush();
      var rs := WriteRequests(items, deleteItem);
      FlushedBatches(client.throttled, old(client.requests), rs);
      FlushedPuts(client.throttled, first, rs);
      FlushedDeletes(client.throttled, first, rs);
      puts := wb.unprocessedPutItems;
      deletes := wb.unprocessedDeleteItems;
    }

    /**
     * writeItems(items): one BatchWriteItem call per batch of 25 requests, in order, then
     * each hook once with everything left unprocessed of its kind, if anything was.
     */
    method WriteItems(items: seq<Item>)
      modifies this, client
      ensures var batches := Batches(WriteRequests(items, deleteItem));
              var left := UnprocessedAcross(client.throttled, |old(client.requests)|, batches);
              && client.requests == old(client.requests) + batches
              && unprocessedPutHookCalls
                   == old(unprocessedPutHookCalls) + (if PutItems(left) == [] then [] else [PutItems(left)])
              && unprocessedDeleteHookCalls
                   == old(unprocessedDeleteHookCalls) + (if DeleteKeys(left) == [] then [] else [DeleteKeys(left)])
    {
      var puts, deletes := SendBatches(items);
      if puts != [] {
        unprocessedPutHookCalls := unprocessedPutHookCalls + [puts];
      }
      if deletes != [] {
        unprocessedDeleteHookCalls := unprocessedDeleteHookCalls + [deletes];
      }
    }

    /** checkpointInfo(): the writer keeps no checkpoint. */
    function CheckpointInfo(): Option<int>
    {
      None
    }
  }
}
