/**
 The websocket ticker cache: a table from exchange symbol to the latest
 Ask/Bid/Last prices, filled by batches of updates of which only those for
 tracked symbols are kept.
 */
module Tickers {

  /** The three prices an update carries and a cache entry holds. They are
      only ever copied, never computed. */
  datatype Quote = Quote(ask: real, bid: real, last: real)

  /** One streamed update: an exchange symbol and its new prices. */
  type Update = (string, Quote)

  /** A cache entry; an update for a symbol already cached overwrites its
      fields in place. */
  class Ticker {
    var ask: real
    var bid: real
    var last: real

    constructor (q: Quote)
      ensures Value() == q
    {
      ask, bid, last := q.ask, q.bid, q.last;
    }

    /** The prices this entry currently holds. */
    function Value(): Quote
      reads this
    {
      Quote(ask, bid, last)
    }
  }

  /** The effect of one update on the cache's contents: kept when its symbol
      is tracked, dropped otherwise. */
  function Upsert(cache: map<string, Quote>, tracked: seq<string>, u: Update): map<string, Quote> {
    if u.0 in tracked then cache[u.0 := u.1] else cache
  }

  /** An untracked update changes nothing; a tracked one makes its symbol
      hold its prices, adds its symbol to the keys and nothing else, and
      leaves every other entry as it was; for a cached symbol the number of
      entries stays the same. */
  lemma UpsertEffect(cache: map<string, Quote>, tracked: seq<string>, u: Update)
    ensures u.0 !in tracked ==> Upsert(cache, tracked, u) == cache
    ensures u.0 in tracked ==> u.0 in Upsert(cache, tracked, u) && Upsert(cache, tracked, u)[u.0] == u.1
    ensures Upsert(cache, tracked, u).Keys == if u.0 in tracked then cache.Keys + {u.0} else cache.Keys
    ensures forall k :: k in cache && k != u.0 ==> Upsert(cache, tracked, u)[k] == cache[k]
    ensures u.0 in cache ==> |Upsert(cache, tracked, u)| == |cache|
  {
  }

  /** The tracked symbols a batch mentions. */
  function TrackedKeys(tracked: seq<string>, batch: seq<Update>): set<string> {
    set j | 0 <= j < |batch| && batch[j].0 in tracked :: batch[j].0
  }

  /** The tracked symbols of a batch are those of all but its last update,
      plus the last update's symbol when it is tracked. */
  lemma TrackedKeysOfPrefix(tracked: seq<string>, batch: seq<Update>)
    requires batch != []
    ensures TrackedKeys(tracked, batch)
         == TrackedKeys(tracked, batch[..|batch| - 1])
          + (if batch[|batch| - 1].0 in tracked then {batch[|batch| - 1].0} else {})
  {
    var prefix := batch[..|batch| - 1];
    forall k | k in TrackedKeys(tracked, batch)
      ensures k in TrackedKeys(tracked, prefix) || (batch[|batch| - 1].0 in tracked && k == batch[|batch| - 1].0)
    {
      var j :| 0 <= j < |batch| && batch[j].0 in tracked && batch[j].0 == k;
      if j < |prefix| {
        assert prefix[j] == batch[j];
      }
    }
    forall k | k in TrackedKeys(tracked, prefix) ensures k in TrackedKeys(tracked, batch) {
      var j :| 0 <= j < |prefix| && prefix[j].0 in tracked && prefix[j].0 == k;
      assert batch[j] == prefix[j];
    }
  }

  /** The effect of a whole batch, applied in order. */
  function ApplyBatch(cache: map<string, Quote>, tracked: seq<string>, batch: seq<Update>): map<string, Quote>
    decreases |batch|
  {
    if batch == [] then cache
    else Upsert(ApplyBatch(cache, tracked, batch[..|batch| - 1]), tracked, batch[|batch| - 1])
  }

  /** After a batch, the cache's keys are its old keys plus the tracked
      symbols the batch mentions: keys are only ever added, and only tracked
      ones. */
  lemma {:induction false} ApplyBatchKeys(cache: map<string, Quote>, tracked: seq<string>, batch: seq<Update>)
    ensures ApplyBatch(cache, tracked, batch).Keys == cache.Keys + TrackedKeys(tracked, batch)
  {
    if batch != [] {
      TrackedKeysOfPrefix(tracked, batch);
      ApplyBatchKeys(cache, tracked, batch[..|batch| - 1]);
    }
  }

  /** Applying one more update extends the batch's effect by that update. */
  lemma ApplyBatchSnoc(cache: map<string, Quote>, tracked: seq<string>, batch: seq<Update>, u: Update)
    ensures ApplyBatch(cache, tracked, batch + [u]) == Upsert(ApplyBatch(cache, tracked, batch), tracked, u)
  {
  }

  /** Applying the first `i + 1` updates extends the effect of the first `i`
      by update `i`. */
  lemma ApplyBatchStep(cache: map<string, Quote>, tracked: seq<string>, batch: seq<Update>, i: nat)
    requires i < |batch|
    ensures ApplyBatch(cache, tracked, batch[..i + 1]) == Upsert(ApplyBatch(cache, tracked, batch[..i]), tracked, batch[i])
  {
    assert batch[..i + 1] == batch[..i] + [batch[i]];
    ApplyBatchSnoc(cache, tracked, batch[..i], batch[i]);
  }

  /** A batch made only of updates for untracked symbols changes nothing. */
  lemma {:induction false} UntrackedBatchIsNoop(cache: map<string, Quote>, tracked: seq<string>, batch: seq<Update>)
    requires forall j :: 0 <= j < |batch| ==> batch[j].0 !in tracked
    ensures ApplyBatch(cache, tracked, batch) == cache
  {
    if batch != [] {
      var prefix := batch[..|batch| - 1];
      assert forall j :: 0 <= j < |prefix| ==> prefix[j] == batch[j];
      UntrackedBatchIsNoop(cache, tracked, prefix);
    }
  }

  /** The last update of a batch for a tracked symbol decides that symbol's
      entry afterwards. */
  lemma {:induction false} LastUpdateWins(cache: map<string, Quote>, tracked: seq<string>, batch: seq<Update>, j: nat)
    requires j < |batch| && batch[j].0 in tracked
    requires forall j' :: j < j' < |batch| ==> batch[j'].0 != batch[j].0
    ensures batch[j].0 in ApplyBatch(cache, tracked, batch)
    ensures ApplyBatch(cache, tracked, batch)[batch[j].0] == batch[j].1
  {
    if j < |batch| - 1 {
      var prefix := batch[..|batch| - 1];
      assert prefix[j] == batch[j];
      forall j' | j < j' < |prefix| ensures prefix[j'].0 != prefix[j].0 {
        assert prefix[j'] == batch[j'];
      }
      LastUpdateWins(cache, tracked, prefix, j);
    }
  }

  /** A symbol with no tracked update in the batch keeps its entry, or its
      absence. */
  lemma {:induction false} UntouchedKeyIsKept(cache: map<string, Quote>, tracked: seq<string>, batch: seq<Update>, k: string)
    requires k !in tracked || forall j :: 0 <= j < |batch| ==> batch[j].0 != k
    ensures k in ApplyBatch(cache, tracked, batch) <==> k in cache
    ensures k in cache ==> ApplyBatch(cache, tracked, batch)[k] == cache[k]
  {
    if batch != [] {
      var prefix := batch[..|batch| - 1];
      assert forall j :: 0 <= j < |prefix| ==> prefix[j] == batch[j];
      UntouchedKeyIsKept(cache, tracked, prefix, k);
    }
  }
}
