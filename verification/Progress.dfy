/** Byte accounting of one transfer; rates and clocks are left to the environment. */
module ProgressTracking {
  import opened Types

  const MIN_SAMPLE_BYTES: nat := 64 * 1024

  /** The receiving end sees these values, in order. */
  class ProgressChannel {
    var values: seq<nat>

    constructor ()
      ensures values == []
    {
      values := [];
    }
  }

  predicate Ascending(values: seq<nat>) {
    forall i, j :: 0 <= i < j < |values| ==> values[i] <= values[j]
  }

  class Progress {
    var bytes: nat
    var total: Option<nat>
    var lastSampleBytes: nat

    /** Less than one sample is ever held back between two updates. */
    predicate Valid()
      reads this
    {
      lastSampleBytes <= bytes < lastSampleBytes + MIN_SAMPLE_BYTES
    }

    constructor (startingBytes: nat, total: Option<nat>)
      ensures Valid() && bytes == startingBytes && this.total == total && lastSampleBytes == startingBytes
    {
      bytes, this.total, lastSampleBytes := startingBytes, total, startingBytes;
    }

    /** Counts `n` more bytes; true if it is time to publish, which it is after 64 KiB or the given time. */
    method Add(n: nat, elapsed: bool) returns (publish: bool)
      requires Valid()
      modifies this
      ensures Valid() && bytes == old(bytes) + n && total == old(total)
      ensures publish <==> elapsed || bytes - old(lastSampleBytes) >= MIN_SAMPLE_BYTES
      ensures lastSampleBytes == if publish then bytes else old(lastSampleBytes)
    {
      bytes := bytes + n;
      var byteDelta := bytes - lastSampleBytes;
      if elapsed || byteDelta >= MIN_SAMPLE_BYTES {
        lastSampleBytes := bytes;
        return true;
      }
      return false;
    }

    method ForceUpdate()
      requires Valid()
      modifies this`lastSampleBytes
      ensures Valid() && lastSampleBytes == bytes
    {
      lastSampleBytes := bytes;
    }
  }
}
