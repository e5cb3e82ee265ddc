/**
 * The data of one alert cycle of the earthquake notifier and the functions
 * that specify it: the magnitude tier of one feed feature, the running batch
 * priority, the batch of features not yet in the "sent" ledger, the push
 * message built for a batch, the ledger after the marking loop, and the
 * outcome of a whole cycle.
 */
module Alerts {

  datatype Option<T> = None | Some(value: T)

  /** One element of the feed's `features` list. `mag` is None when the
      record carries no magnitude; `sent` is the flag the ledger copy gets. */
  datatype Feature = Feature(id: string, mag: Option<real>, sent: bool)

  /** What the feed request produced: the response's `features` member
      (None when the response has none), or a failed request. */
  datatype FeedResult = Fetched(features: Option<seq<Feature>>) | FetchFailed

  /** The message object handed to the push-delivery service. */
  datatype Payload = Payload(message: string, html: int, priority: int, expire: Option<int>, retry: Option<int>)

  /** The "sent_alerts" collection: feature id to the stored feature. */
  type Ledger = map<string, Feature>

  /** Where the store fails in a cycle: the feed position of the first
      ledger read that throws, and the batch position of the first ledger
      write that throws. A position past the end means no failure. */
  datatype Faults = Faults(readFault: Option<nat>, writeFault: Option<nat>)

  /** The scan loop either aborts on a failed ledger read or yields the
      batch and its priority. */
  datatype ScanResult = ReadFailed | Scanned(batch: seq<Feature>, priority: int)

  /** Everything one cycle does: the ledger afterwards, the batch it
      alerted on, the push message it dispatched (if any) and the string it
      returns. */
  datatype CycleOutcome = CycleOutcome(ledger: Ledger, batch: seq<Feature>, dispatch: Option<Payload>, result: string)

  const NoSignificantMessage: string := "No significant earthquakes detected."
  const NoNewMessage: string := "No new earthquakes detected."
  const ErrorMessage: string := "Error occurred while checking for earthquakes."

  const AdvisoryTier: int := 0
  const WarningTier: int := 1
  const CriticalTier: int := 2
  /** The priority a batch starts with, and the tier of a feature below 5.0. */
  const NoTier: int := -1

  /** The seconds the delivery service keeps re-alerting, and its interval,
      for a top-priority message. */
  const ExpireSeconds: int := 3600
  const RetrySeconds: int := 180

  /** The tier a feature's magnitude raises the batch priority to. */
  function Tier(mag: Option<real>): (t: int)
    ensures NoTier <= t <= CriticalTier
    ensures t == AdvisoryTier <==> mag.Some? && 5.0 <= mag.value < 6.0
    ensures t == WarningTier <==> mag.Some? && 6.0 <= mag.value < 8.0
    ensures t == CriticalTier <==> mag.Some? && 8.0 <= mag.value
  {
    match mag
    case None => NoTier
    case Some(m) =>
      if 5.0 <= m < 6.0 then AdvisoryTier
      else if 6.0 <= m < 8.0 then WarningTier
      else if m >= 8.0 then CriticalTier
      else NoTier
  }

  /** One step of the running priority: raise `p` to `t` when `t` is higher. */
  function Raise(p: int, t: int): (r: int)
    ensures r >= p && r >= t
    ensures r == p || r == t
  {
    if p < t then t else p
  }

  /** The running priority after the features of `batch`, in order. */
  function Priority(batch: seq<Feature>): (p: int)
    ensures NoTier <= p <= CriticalTier
  {
    if batch == [] then NoTier
    else Raise(Priority(batch[..|batch| - 1]), Tier(batch[|batch| - 1].mag))
  }

  /** The features of `features` whose id is not in `sent`, in feed order. */
  function Batch(features: seq<Feature>, sent: set<string>): (b: seq<Feature>)
  {
    if features == [] then []
    else
      var last := features[|features| - 1];
      Batch(features[..|features| - 1], sent) + (if last.id in sent then [] else [last])
  }

  /** The ids of the features of `batch`. */
  function Ids(batch: seq<Feature>): set<string>
  {
    set i | 0 <= i < |batch| :: batch[i].id
  }

  /** The push message for a batch summary and priority. */
  function AlertPayload(message: string, priority: int): (p: Payload)
    ensures p.message == message && p.html == 1 && p.priority == priority
    ensures p.expire.Some? <==> priority > 1
    ensures p.retry.Some? <==> priority > 1
    ensures p.expire.Some? ==> p.expire.value == ExpireSeconds && p.retry.value == RetrySeconds
  {
    if priority > 1 then Payload(message, 1, priority, Some(ExpireSeconds), Some(RetrySeconds))
    else Payload(message, 1, priority, None, None)
  }

  /** The ledger after storing each feature of `batch`, in order, under its
      id with `sent` set. */
  function Marked(ledger: Ledger, batch: seq<Feature>): Ledger
  {
    if batch == [] then ledger
    else
      var last := batch[|batch| - 1];
      Marked(ledger, batch[..|batch| - 1])[last.id := last.(sent := true)]
  }

  /** Every stored feature sits under its own id and carries `sent`. */
  predicate WellFormedLedger(ledger: Ledger)
  {
    forall k :: k in ledger ==> ledger[k].id == k && ledger[k].sent
  }

  /** The scan loop: every feed position is looked up in the ledger as it
      was when the cycle started; a failed lookup aborts the loop. */
  function ScanSpec(sent: set<string>, features: seq<Feature>, readFault: Option<nat>): (r: ScanResult)
  {
    if readFault.Some? && readFault.value < |features| then ReadFailed
    else Scanned(Batch(features, sent), Priority(Batch(features, sent)))
  }

  /** How many of `n` ledger writes complete before the first failing one. */
  function Written(n: nat, writeFault: Option<nat>): (w: nat)
    ensures w <= n
    ensures w < n <==> writeFault.Some? && writeFault.value < n
    ensures writeFault.Some? && writeFault.value < n ==> w == writeFault.value
  {
    if writeFault.Some? && writeFault.value < n then writeFault.value else n
  }

  /** One alert cycle over `ledger`: `summary` is what the summarizer
      returns for the batch, None when it fails. */
  function CycleSpec(ledger: Ledger, feed: FeedResult, summary: Option<string>, faults: Faults): (out: CycleOutcome)
  {
    match feed
    case FetchFailed => CycleOutcome(ledger, [], None, ErrorMessage)
    case Fetched(features) =>
      if features.None? || features.value == [] then CycleOutcome(ledger, [], None, NoSignificantMessage)
      else
        match ScanSpec(ledger.Keys, features.value, faults.readFault)
        case ReadFailed => CycleOutcome(ledger, [], None, ErrorMessage)
        case Scanned(batch, priority) =>
          if batch == [] then CycleOutcome(ledger, [], None, NoNewMessage)
          else if summary.None? then CycleOutcome(ledger, [], None, ErrorMessage)
          else
            var n := Written(|batch|, faults.writeFault);
            CycleOutcome(Marked(ledger, batch[..n]), batch, Some(AlertPayload(summary.value, priority)),
                         if n < |batch| then ErrorMessage else summary.value)
  }
}
