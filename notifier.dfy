/**
 * The notifier's state and its alert cycle, written as the imperative steps
 * of `checkEarthquake`: a scan loop that builds the batch and raises the
 * priority, one dispatch, then a loop that writes every batched feature to
 * the ledger.
 */
module Notifier {
  import opened Alerts

  class EarthquakeNotifier {
    /** The "sent_alerts" collection of the document store. */
    var ledger: Ledger
    /** Every message handed to the push-delivery service, oldest first. */
    ghost var dispatched: seq<Payload>

    constructor (initial: Ledger)
      ensures ledger == initial && dispatched == []
    {
      ledger := initial;
      dispatched := [];
    }

    /** Looks `id` up in the ledger; None when the store read fails. */
    method CheckIfAlertSent(id: string, fails: bool) returns (r: Option<bool>)
      ensures r.None? <==> fails
      ensures r.Some? ==> (r.value <==> id in ledger)
    {
      if fails {
        return None;
      }
      r := Some(id in ledger);
    }

    /** Stores `feature` under `id` with `sent` set, unless the write fails. */
    method MarkAlertAsSent(id: string, feature: Feature, fails: bool) returns (ok: bool)
      modifies this`ledger
      ensures ok <==> !fails
      ensures ledger == if fails then old(ledger) else old(ledger)[id := feature.(sent := true)]
    {
      var stored := feature.(sent := true);
      if fails {
        return false;
      }
      ledger := ledger[id := stored];
      ok := true;
    }

    /** Builds the push message and hands it to the delivery service; a
        delivery error is only logged, so the dispatch always happens. */
    method SendAlert(message: string, priority: int)
      modifies this`dispatched
      ensures dispatched == old(dispatched) + [AlertPayload(message, priority)]
    {
      var msg := Payload(message, 1, priority, None, None);
      if priority > 1 {
        msg := msg.(expire := Some(ExpireSeconds), retry := Some(RetrySeconds));
      }
      dispatched := dispatched + [msg];
    }

    /** The first loop of the cycle: skip already-sent features, batch the
        rest in feed order and raise the running priority by magnitude. */
    method Scan(features: seq<Feature>, readFault: Option<nat>) returns (r: ScanResult)
      ensures r == ScanSpec(ledger.Keys, features, readFault)
    {
      var alertPriority := NoTier;
      var batch: seq<Feature> := [];
      var i := 0;
      while i < |features|
        invariant 0 <= i <= |features|
        invariant readFault.Some? ==> readFault.value >= i
        invariant batch == Batch(features[..i], ledger.Keys)
        invariant alertPriority == Priority(batch)
      {
        var earthquake := features[i];
        assert features[..i + 1][..i] == features[..i];
        var isAlertSent := CheckIfAlertSent(earthquake.id, readFault == Some(i));
        if isAlertSent.None? {
          return ReadFailed;
        }
        if !isAlertSent.value {
          match earthquake.mag {
            case Some(m) =>
              if 5.0 <= m < 6.0 {
                if alertPriority < AdvisoryTier {
                  alertPriority := AdvisoryTier;
                }
              } else if 6.0 <= m < 8.0 {
                if alertPriority < WarningTier {
                  alertPriority := WarningTier;
                }
              } else if m >= 8.0 {
                if alertPriority < CriticalTier {
                  alertPriority := CriticalTier;
                }
              }
            case None =>
          }
          batch := batch + [earthquake];
        }
        i := i + 1;
      }
      assert features[..i] == features;
      r := Scanned(batch, alertPriority);
    }

    /** The marking loop: writes the batch to the ledger in order and stops
        at the first failing write, returning how many writes completed. */
    method MarkAllAsSent(batch: seq<Feature>, writeFault: Option<nat>) returns (written: nat)
      modifies this`ledger
      ensures written == Written(|batch|, writeFault)
      ensures ledger == Marked(old(ledger), batch[..written])
    {
      written := 0;
      while written < |batch|
        invariant 0 <= written <= |batch|
        invariant writeFault.Some? ==> writeFault.value >= written
        invariant ledger == Marked(old(ledger), batch[..written])
      {
        var earthquake := batch[written];
        assert batch[..written + 1][..written] == batch[..written];
        var ok := MarkAlertAsSent(earthquake.id, earthquake, writeFault == Some(written));
        if !ok {
          return;
        }
        written := written + 1;
      }
    }

    /** One alert cycle: `feed` is what the feed request produced and
        `summary` what the summarizer returns for the batch (None when it
        fails). */
    method CheckEarthquake(feed: FeedResult, summary: Option<string>, faults: Faults) returns (result: string)
      modifies this
      ensures ledger == CycleSpec(old(ledger), feed, summary, faults).ledger
      ensures result == CycleSpec(old(ledger), feed, summary, faults).result
      ensures var out := CycleSpec(old(ledger), feed, summary, faults);
              dispatched == old(dispatched) + (if out.dispatch.Some? then [out.dispatch.value] else [])
    {
      if feed.FetchFailed? {
        return ErrorMessage;
      }
      var features := feed.features;
      if features.None? || |features.value| == 0 {
        return NoSignificantMessage;
      }
      var scan := Scan(features.value, faults.readFault);
      if scan.ReadFailed? {
        return ErrorMessage;
      }
      if |scan.batch| == 0 {
        return NoNewMessage;
      }
      if summary.None? {
        return ErrorMessage;
      }
      var message := summary.value;
      SendAlert(message, scan.priority);
      var written := MarkAllAsSent(scan.batch, faults.writeFault);
      if written < |scan.batch| {
        return ErrorMessage;
      }
      return message;
    }
  }
}
