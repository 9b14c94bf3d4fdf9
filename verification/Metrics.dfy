/** The counters of the observability layer. */
module Metrics {
  import opened Domain

  /** A missing entry of a Go map reads as zero. */
  function At(m: map<Channel, int>, c: Channel): int {
    if c in m then m[c] else 0
  }

  class Metrics {
    var queueDepth: map<Channel, int>
    var successCount: map<Channel, int>
    var failureCount: map<Channel, int>
    var latencySum: map<Channel, Time>
    var latencyCount: map<Channel, int>

    /** What the exporters received: the sum of the up-down deltas and the counts. */
    ghost var depthExported: map<Channel, int>
    ghost var successExported: map<Channel, int>
    ghost var failureExported: map<Channel, int>

    /** Every exported total equals the local one, and every finished delivery, success
        or failure, was timed once. */
    ghost predicate Valid()
      reads this
    {
      forall c: Channel ::
        && At(depthExported, c) == At(queueDepth, c)
        && At(successExported, c) == At(successCount, c)
        && At(failureExported, c) == At(failureCount, c)
        && At(latencyCount, c) == At(successCount, c) + At(failureCount, c)
        && 0 <= At(successCount, c) && 0 <= At(failureCount, c)
    }

    constructor ()
      ensures Valid()
      ensures forall c: Channel :: At(queueDepth, c) == 0 && At(latencyCount, c) == 0
    {
      queueDepth, successCount, failureCount, latencySum, latencyCount := map[], map[], map[], map[], map[];
      depthExported, successExported, failureExported := map[], map[], map[];
    }

    method SetQueueDepth(channel: Channel, depth: int)
      requires Valid()
      modifies this
      ensures Valid()
      ensures queueDepth == old(queueDepth)[channel := depth]
      ensures successCount == old(successCount) && failureCount == old(failureCount)
      ensures latencySum == old(latencySum) && latencyCount == old(latencyCount)
    {
      var previous := At(queueDepth, channel);
      var delta := depth - previous;
      queueDepth := queueDepth[channel := depth];
      if delta != 0 {
        depthExported := depthExported[channel := At(depthExported, channel) + delta];
      }
    }

    method IncSuccess(channel: Channel, latency: Time)
      requires Valid()
      modifies this
      ensures Valid()
      ensures successCount == old(successCount)[channel := At(old(successCount), channel) + 1]
      ensures latencySum == old(latencySum)[channel := At(old(latencySum), channel) + latency]
      ensures failureCount == old(failureCount) && queueDepth == old(queueDepth)
    {
      successCount := successCount[channel := At(successCount, channel) + 1];
      latencySum := latencySum[channel := At(latencySum, channel) + latency];
      latencyCount := latencyCount[channel := At(latencyCount, channel) + 1];
      successExported := successExported[channel := At(successExported, channel) + 1];
    }

    method IncFailure(channel: Channel, latency: Time)
      requires Valid()
      modifies this
      ensures Valid()
      ensures failureCount == old(failureCount)[channel := At(old(failureCount), channel) + 1]
      ensures latencySum == old(latencySum)[channel := At(old(latencySum), channel) + latency]
      ensures successCount == old(successCount) && queueDepth == old(queueDepth)
    {
      failureCount := failureCount[channel := At(failureCount, channel) + 1];
      latencySum := latencySum[channel := At(latencySum, channel) + latency];
      latencyCount := latencyCount[channel := At(latencyCount, channel) + 1];
      failureExported := failureExported[channel := At(failureExported, channel) + 1];
    }
  }
}
