/**
 * Properties of the alert cycle: the batch priority is the highest tier
 * among the new features, the batch is exactly the unsent features in feed
 * order, marking only adds records, a cycle dispatches at most once and
 * writes nothing unless it dispatched, and a second cycle over the same
 * feed dispatches nothing.
 */
module AlertLemmas {
  import opened Alerts

  /** The batch priority is the maximum tier over the batch, NoTier when no
      feature reaches 5.0. */
  lemma {:induction false} PriorityIsMax(batch: seq<Feature>)
    ensures forall i :: 0 <= i < |batch| ==> Tier(batch[i].mag) <= Priority(batch)
    ensures Priority(batch) == NoTier || exists i :: 0 <= i < |batch| && Tier(batch[i].mag) == Priority(batch)
    ensures Priority(batch) == NoTier <==> forall i :: 0 <= i < |batch| ==> Tier(batch[i].mag) == NoTier
  {
    if batch != [] {
      var init := batch[..|batch| - 1];
      PriorityIsMax(init);
      assert forall i :: 0 <= i < |init| ==> init[i] == batch[i];
      if Priority(batch) != Priority(init) {
        assert Tier(batch[|batch| - 1].mag) == Priority(batch);
      } else if Priority(init) != NoTier {
        var i :| 0 <= i < |init| && Tier(init[i].mag) == Priority(init);
        assert Tier(batch[i].mag) == Priority(batch);
      }
    }
  }

  /** Appending features never lowers the running priority. */
  lemma {:induction false} PriorityMonotone(b: seq<Feature>, c: seq<Feature>)
    ensures Priority(b) <= Priority(b + c)
  {
    if c == [] {
      assert b + c == b;
    } else {
      var c' := c[..|c| - 1];
      assert (b + c)[..|b + c| - 1] == b + c';
      PriorityMonotone(b, c');
    }
  }

  /** A feature is batched exactly when it is in the feed and its id is not
      in the ledger. */
  lemma {:induction false} BatchMembers(features: seq<Feature>, sent: set<string>)
    ensures forall x :: x in Batch(features, sent) <==> x in features && x.id !in sent
  {
    if features != [] {
      var init := features[..|features| - 1];
      BatchMembers(init, sent);
      assert features == init + [features[|features| - 1]];
    }
  }

  /** Batching preserves feed order: the batch of a concatenation is the
      concatenation of the batches. */
  lemma {:induction false} BatchAppend(a: seq<Feature>, b: seq<Feature>, sent: set<string>)
    ensures Batch(a + b, sent) == Batch(a, sent) + Batch(b, sent)
  {
    if b == [] {
      assert a + b == a;
    } else {
      var b' := b[..|b| - 1];
      assert (a + b)[..|a + b| - 1] == a + b';
      BatchAppend(a, b', sent);
    }
  }

  /** Nothing in the feed is batched once every id is in the ledger. */
  lemma {:induction false} BatchOfSent(features: seq<Feature>, sent: set<string>)
    requires forall i :: 0 <= i < |features| ==> features[i].id in sent
    ensures Batch(features, sent) == []
  {
    if features != [] {
      var init := features[..|features| - 1];
      assert forall i :: 0 <= i < |init| ==> init[i] == features[i];
      BatchOfSent(init, sent);
    }
  }

  /** Marking adds exactly the batch's ids to the ledger's keys. */
  lemma {:induction false} MarkedKeys(ledger: Ledger, batch: seq<Feature>)
    ensures Marked(ledger, batch).Keys == ledger.Keys + Ids(batch)
  {
    if batch != [] {
      var init := batch[..|batch| - 1];
      MarkedKeys(ledger, init);
      assert Ids(batch) == Ids(init) + {batch[|batch| - 1].id} by {
        forall k | k in Ids(batch) ensures k in Ids(init) + {batch[|batch| - 1].id} {
          var i :| 0 <= i < |batch| && batch[i].id == k;
          if i < |init| {
            assert init[i] == batch[i];
          }
        }
        forall k | k in Ids(init) ensures k in Ids(batch) {
          var i :| 0 <= i < |init| && init[i].id == k;
          assert batch[i] == init[i];
        }
      }
    }
  }

  /** Marking leaves every record outside the batch as it was, and stores
      each batched id with `sent` set under its own id. */
  lemma {:induction false} MarkedEntries(ledger: Ledger, batch: seq<Feature>)
    ensures forall k :: k in ledger && k !in Ids(batch) ==>
              k in Marked(ledger, batch) && Marked(ledger, batch)[k] == ledger[k]
    ensures forall i :: 0 <= i < |batch| ==>
              batch[i].id in Marked(ledger, batch) &&
              Marked(ledger, batch)[batch[i].id].sent &&
              Marked(ledger, batch)[batch[i].id].id == batch[i].id
  {
    if batch != [] {
      var init := batch[..|batch| - 1];
      MarkedEntries(ledger, init);
      forall k | k in ledger && k !in Ids(batch)
        ensures k in Marked(ledger, batch) && Marked(ledger, batch)[k] == ledger[k]
      {
        assert k != batch[|batch| - 1].id;
      }
      forall i | 0 <= i < |batch| - 1 ensures batch[i] == init[i] { }
    }
  }

  /** Marking keeps every stored record under its own id with `sent` set. */
  lemma {:induction false} MarkedWellFormed(ledger: Ledger, batch: seq<Feature>)
    requires WellFormedLedger(ledger)
    ensures WellFormedLedger(Marked(ledger, batch))
  {
    MarkedKeys(ledger, batch);
    MarkedEntries(ledger, batch);
    forall k | k in Marked(ledger, batch)
      ensures Marked(ledger, batch)[k].id == k && Marked(ledger, batch)[k].sent
    {
      if k in Ids(batch) {
        var i :| 0 <= i < |batch| && batch[i].id == k;
      }
    }
  }

  /** Marking a batch of ids the ledger does not hold yet keeps every
      existing record and adds exactly the batch's ids. */
  lemma {:induction false} MarkedGrows(ledger: Ledger, batch: seq<Feature>)
    requires forall i :: 0 <= i < |batch| ==> batch[i].id !in ledger
    ensures Marked(ledger, batch).Keys == ledger.Keys + Ids(batch)
    ensures forall k :: k in ledger ==> Marked(ledger, batch)[k] == ledger[k]
  {
    MarkedKeys(ledger, batch);
    MarkedEntries(ledger, batch);
    assert forall k :: k in ledger ==> k !in Ids(batch);
  }

  /** Marking a prefix of such a batch keeps every existing record, adds
      only batched ids, and keeps a well-formed ledger well-formed. */
  lemma MarkedPrefixGrows(ledger: Ledger, batch: seq<Feature>, n: nat)
    requires n <= |batch|
    requires forall i :: 0 <= i < |batch| ==> batch[i].id !in ledger
    ensures ledger.Keys <= Marked(ledger, batch[..n]).Keys <= ledger.Keys + Ids(batch)
    ensures forall k :: k in ledger ==> Marked(ledger, batch[..n])[k] == ledger[k]
    ensures WellFormedLedger(ledger) ==> WellFormedLedger(Marked(ledger, batch[..n]))
  {
    var prefix := batch[..n];
    assert forall i :: 0 <= i < |prefix| ==> prefix[i] == batch[i];
    MarkedGrows(ledger, prefix);
    if WellFormedLedger(ledger) {
      MarkedWellFormed(ledger, prefix);
    }
    assert Ids(prefix) <= Ids(batch) by {
      forall k | k in Ids(prefix) ensures k in Ids(batch) {
        var i :| 0 <= i < |prefix| && prefix[i].id == k;
        assert batch[i].id == k;
      }
    }
  }

  /** A cycle dispatches exactly when the feed has features, every ledger
      read succeeds, some feature is not yet in the ledger and the
      summarizer answers; the one message carries the summary and the
      priority of the batch, and the batch is the unsent features in feed
      order. */
  lemma CycleDispatch(ledger: Ledger, feed: FeedResult, summary: Option<string>, faults: Faults)
    ensures var out := CycleSpec(ledger, feed, summary, faults);
            out.dispatch.Some? <==>
              && feed.Fetched? && feed.features.Some? && feed.features.value != []
              && !(faults.readFault.Some? && faults.readFault.value < |feed.features.value|)
              && (exists i :: 0 <= i < |feed.features.value| && feed.features.value[i].id !in ledger)
              && summary.Some?
    ensures var out := CycleSpec(ledger, feed, summary, faults);
            out.dispatch.Some? ==>
              && out.batch == Batch(feed.features.value, ledger.Keys)
              && out.dispatch.value == AlertPayload(summary.value, Priority(out.batch))
              && (forall x :: x in out.batch <==> x in feed.features.value && x.id !in ledger)
    ensures var out := CycleSpec(ledger, feed, summary, faults);
            out.dispatch.None? ==> out.batch == [] && out.ledger == ledger
  {
    if feed.Fetched? && feed.features.Some? {
      var fs := feed.features.value;
      BatchMembers(fs, ledger.Keys);
      if exists i :: 0 <= i < |fs| && fs[i].id !in ledger {
        var i :| 0 <= i < |fs| && fs[i].id !in ledger;
        assert fs[i] in Batch(fs, ledger.Keys);
      }
    }
  }

  /** The fixed result strings: a failed fetch or ledger read gives the
      error string, a missing or empty feature list the "no significant"
      string, a feed whose every feature is already in the ledger the "no
      new" string; none of them dispatches or writes. */
  lemma CycleFixedResults(ledger: Ledger, feed: FeedResult, summary: Option<string>, faults: Faults)
    ensures var out := CycleSpec(ledger, feed, summary, faults);
            feed.FetchFailed? ==> out.result == ErrorMessage && out.dispatch.None? && out.ledger == ledger
    ensures var out := CycleSpec(ledger, feed, summary, faults);
            feed.Fetched? && (feed.features.None? || feed.features.value == []) ==>
              out.result == NoSignificantMessage && out.dispatch.None? && out.ledger == ledger
    ensures var out := CycleSpec(ledger, feed, summary, faults);
            feed.Fetched? && feed.features.Some? && faults.readFault.Some? &&
            faults.readFault.value < |feed.features.value| ==>
              out.result == ErrorMessage && out.dispatch.None? && out.ledger == ledger
    ensures var out := CycleSpec(ledger, feed, summary, faults);
            feed.Fetched? && feed.features.Some? && feed.features.value != [] &&
            !(faults.readFault.Some? && faults.readFault.value < |feed.features.value|) &&
            (forall i :: 0 <= i < |feed.features.value| ==> feed.features.value[i].id in ledger) ==>
              out.result == NoNewMessage && out.dispatch.None? && out.ledger == ledger
  {
    if feed.Fetched? && feed.features.Some? &&
       forall i :: 0 <= i < |feed.features.value| ==> feed.features.value[i].id in ledger
    {
      BatchOfSent(feed.features.value, ledger.Keys);
    }
  }

  /** The ledger only grows: no key is lost, no existing record is
      overwritten, the new keys are batched ids, and well-formed records
      stay well-formed. */
  lemma CycleLedgerGrows(ledger: Ledger, feed: FeedResult, summary: Option<string>, faults: Faults)
    ensures var out := CycleSpec(ledger, feed, summary, faults);
            && ledger.Keys <= out.ledger.Keys <= ledger.Keys + Ids(out.batch)
            && (forall k :: k in ledger ==> out.ledger[k] == ledger[k])
            && (WellFormedLedger(ledger) ==> WellFormedLedger(out.ledger))
  {
    var out := CycleSpec(ledger, feed, summary, faults);
    if feed.Fetched? && feed.features.Some? && feed.features.value != [] {
      var fs := feed.features.value;
      var batch := Batch(fs, ledger.Keys);
      if ScanSpec(ledger.Keys, fs, faults.readFault).Scanned? && batch != [] && summary.Some? {
        var n := Written(|batch|, faults.writeFault);
        assert out.ledger == Marked(ledger, batch[..n]) && out.batch == batch;
        BatchMembers(fs, ledger.Keys);
        forall i | 0 <= i < |batch| ensures batch[i].id !in ledger {
          assert batch[i] in batch;
        }
        MarkedPrefixGrows(ledger, batch, n);
      } else {
        assert out.ledger == ledger && out.batch == [];
      }
    } else {
      assert out.ledger == ledger && out.batch == [];
    }
  }

  /** A dispatching cycle returns the summary exactly when every ledger
      write succeeds, and then every batched feature is in the ledger with
      `sent` set; a failed write returns the error string, and the features
      written before it are in the ledger with `sent` set. */
  lemma CycleCommit(ledger: Ledger, feed: FeedResult, summary: Option<string>, faults: Faults)
    ensures var out := CycleSpec(ledger, feed, summary, faults);
            out.dispatch.Some? ==>
              (out.result == summary.value || out.result == ErrorMessage) &&
              (Written(|out.batch|, faults.writeFault) == |out.batch| ==>
                 out.result == summary.value &&
                 forall i :: 0 <= i < |out.batch| ==>
                   out.batch[i].id in out.ledger && out.ledger[out.batch[i].id].sent)
    ensures var out := CycleSpec(ledger, feed, summary, faults);
            out.dispatch.Some? && Written(|out.batch|, faults.writeFault) < |out.batch| ==>
              out.result == ErrorMessage
    ensures var out := CycleSpec(ledger, feed, summary, faults);
            out.dispatch.Some? ==>
              forall i :: 0 <= i < Written(|out.batch|, faults.writeFault) ==>
                out.batch[i].id in out.ledger && out.ledger[out.batch[i].id].sent
  {
    var out := CycleSpec(ledger, feed, summary, faults);
    if out.dispatch.Some? {
      var batch := out.batch;
      var n := Written(|batch|, faults.writeFault);
      assert out.ledger == Marked(ledger, batch[..n]);
      MarkedEntries(ledger, batch[..n]);
      assert forall i :: 0 <= i < n ==> batch[..n][i] == batch[i];
      if n == |batch| {
        assert batch[..|batch|] == batch;
      }
    }
  }

  /** Every feed id is either already in the ledger or an id of the batch. */
  lemma FeedCovered(features: seq<Feature>, sent: set<string>)
    ensures forall i :: 0 <= i < |features| ==> features[i].id in sent + Ids(Batch(features, sent))
  {
    var batch := Batch(features, sent);
    BatchMembers(features, sent);
    forall i | 0 <= i < |features| ensures features[i].id in sent + Ids(batch) {
      if features[i].id !in sent {
        assert features[i] in batch;
        var j :| 0 <= j < |batch| && batch[j] == features[i];
        assert features[i].id in Ids(batch);
      }
    }
  }

  /** Two cycles over an unchanged feed: when the first dispatches and all
      its writes succeed, the second (with a working ledger) returns the "no
      new" string, dispatches nothing and writes nothing. */
  lemma CycleIdempotent(ledger: Ledger, feed: FeedResult, summary1: Option<string>, summary2: Option<string>,
                        writeFault: Option<nat>, faults2: Faults)
    requires CycleSpec(ledger, feed, summary1, Faults(None, writeFault)).dispatch.Some?
    requires Written(|CycleSpec(ledger, feed, summary1, Faults(None, writeFault)).batch|, writeFault) ==
             |CycleSpec(ledger, feed, summary1, Faults(None, writeFault)).batch|
    requires faults2.readFault.None?
    ensures var first := CycleSpec(ledger, feed, summary1, Faults(None, writeFault));
            var second := CycleSpec(first.ledger, feed, summary2, faults2);
            second.result == NoNewMessage && second.dispatch.None? && second.ledger == first.ledger
  {
    var first := CycleSpec(ledger, feed, summary1, Faults(None, writeFault));
    var fs := feed.features.value;
    var batch := Batch(fs, ledger.Keys);
    assert first.batch == batch && batch[..|batch|] == batch;
    assert first.ledger == Marked(ledger, batch);
    var keys := first.ledger.Keys;
    MarkedKeys(ledger, batch);
    assert keys == ledger.Keys + Ids(batch);
    FeedCovered(fs, ledger.Keys);
    BatchOfSent(fs, keys);
    assert ScanSpec(keys, fs, faults2.readFault) == Scanned([], Priority([]));
    assert CycleSpec(first.ledger, feed, summary2, faults2) == CycleOutcome(first.ledger, [], None, NoNewMessage);
  }

  /** A worked pair of cycles: a magnitude 8.0 feature not yet in an empty
      ledger is dispatched at the top priority with expiry and retry, then a
      rerun reports nothing new. */
  lemma ExampleCriticalThenRerun()
    ensures var e := Feature("us7000abcd", Some(8.0), false);
            var first := CycleSpec(map[], Fetched(Some([e])), Some("summary"), Faults(None, None));
            && first.dispatch == Some(Payload("summary", 1, CriticalTier, Some(ExpireSeconds), Some(RetrySeconds)))
            && first.result == "summary"
            && first.ledger == map["us7000abcd" := e.(sent := true)]
            && CycleSpec(first.ledger, Fetched(Some([e])), Some("summary"), Faults(None, None)).result == NoNewMessage
  {
    var e := Feature("us7000abcd", Some(8.0), false);
    assert [e][..0] == [];
    assert [e][..1] == [e];
  }
}
