/** `GcsStorage` (exporter/terra/gcs/storage.py): the staging-bucket writer.
    A writer creates an object only if it is absent and then flags it
    `export_completed`; a writer that finds the object present, or loses the
    race to create it, never uploads and instead polls for the flag with a
    doubling delay.  Time is counted in tenths of a second. */
module GcsStorages {
  import opened Wrappers
  import opened Json

  /** What a staged object holds: a JSON document or raw file bytes. */
  datatype Payload = Document(doc: Json) | Bytes(bytes: seq<bv8>)

  /** An object and whether its metadata carries a truthy `export_completed`. */
  datatype StoredObject = StoredObject(data: Payload, completed: bool)

  /** The objects of the staging bucket. */
  class Bucket {
    var objects: map<string, StoredObject>

    constructor(objects: map<string, StoredObject>)
      ensures this.objects == objects
    {
      this.objects := objects;
    }
  }

  /** The wall clock, in tenths of a second; `sleep` advances it. */
  class Clock {
    var now: nat

    constructor(now: nat)
      ensures this.now == now
    {
      this.now := now;
    }
  }

  /** What other exporters and the storage service do while one `write`
      runs: another writer may create the object between the existence check
      and the upload (`race`); the upload may fail; the patch that sets the
      flag may keep failing past its retry deadline; and a writer whose
      upload is in progress sets its flag at time `flagAt` (never, if None). */
  datatype Environment = Environment(
    race: Option<Payload>,
    uploadError: Option<Exception>,
    patchSucceeds: bool,
    flagAt: Option<nat>)

  /** The first poll waits 0.1 s. */
  const FirstSleep: nat := 1
  /** One hour: polling stops once the next delay would exceed it. */
  const MaxSleep: nat := 36000

  /** The delays slept by polling that never sees the flag, from `sleep`. */
  function Sleeps(sleep: nat, maxSleep: nat): seq<nat>
    requires sleep >= 1
    decreases if sleep > maxSleep then 0 else maxSleep - sleep + 1
  {
    if sleep > maxSleep then [] else [sleep] + Sleeps(2 * sleep, maxSleep)
  }

  function Sum(xs: seq<nat>): nat {
    if xs == [] then 0 else xs[0] + Sum(xs[1..])
  }

  function Pow2(n: nat): (p: nat)
    ensures p >= 1
  {
    if n == 0 then 1 else 2 * Pow2(n - 1)
  }

  /** Starting at 2^k tenths, the delays are the powers of two from 2^k up
      to the hour; their count and total are fixed by where the doubling
      crosses the hour. */
  lemma {:induction false} SleepsFrom(k: nat, n: nat, maxSleep: nat)
    requires k <= n && Pow2(n) <= maxSleep < Pow2(n + 1)
    ensures |Sleeps(Pow2(k), maxSleep)| == n - k + 1
    ensures forall i :: 0 <= i < |Sleeps(Pow2(k), maxSleep)| ==> Sleeps(Pow2(k), maxSleep)[i] == Pow2(k + i)
    ensures Sum(Sleeps(Pow2(k), maxSleep)) == Pow2(n + 1) - Pow2(k)
    decreases n - k
  {
    Pow2Monotone(k, n);
    if k < n {
      assert 2 * Pow2(k) == Pow2(k + 1);
      SleepsFrom(k + 1, n, maxSleep);
      var tail := Sleeps(Pow2(k + 1), maxSleep);
      assert Sleeps(Pow2(k), maxSleep) == [Pow2(k)] + tail;
      forall i | 1 <= i < |Sleeps(Pow2(k), maxSleep)|
        ensures Sleeps(Pow2(k), maxSleep)[i] == Pow2(k + i)
      {
        assert Sleeps(Pow2(k), maxSleep)[i] == tail[i - 1];
      }
    } else {
      assert 2 * Pow2(k) == Pow2(k + 1);
      assert Sleeps(Pow2(k), maxSleep) == [Pow2(k)];
    }
  }

  lemma {:induction false} Pow2Monotone(a: nat, b: nat)
    requires a <= b
    ensures Pow2(a) <= Pow2(b)
    decreases b - a
  {
    if a < b {
      Pow2Monotone(a + 1, b);
    }
  }

  /** Polling that never sees the flag reloads 16 times, waiting 0.1 s, 0.2 s,
      ..., 3276.8 s, about 6553.5 s in total: the hour bounds one delay, not
      the whole wait. */
  lemma PollingBudget()
    ensures |Sleeps(FirstSleep, MaxSleep)| == 16
    ensures Sleeps(FirstSleep, MaxSleep)[15] == 32768
    ensures Sum(Sleeps(FirstSleep, MaxSleep)) == 65535
  {
    assert Pow2(15) == 32768 && Pow2(16) == 65536 by {
      assert Pow2(4) == 16;
      assert Pow2(8) == 256;
      assert Pow2(12) == 4096;
    }
    assert Pow2(0) == 1;
    SleepsFrom(0, 15, MaxSleep);
  }

  class GcsStorage {
    const bucketName: string
    const storagePrefix: string
    const bucket: Bucket
    const clock: Clock
    /** The number of `blob.reload()` calls made. */
    var reloads: nat

    constructor(bucketName: string, storagePrefix: string, bucket: Bucket, clock: Clock)
      ensures this.bucketName == bucketName && this.storagePrefix == storagePrefix
      ensures this.bucket == bucket && this.clock == clock && reloads == 0
    {
      this.bucketName := bucketName;
      this.storagePrefix := storagePrefix;
      this.bucket := bucket;
      this.clock := clock;
      reloads := 0;
    }

    /** The object name of a caller's key. */
    function DestKey(objectKey: string): (k: string) {
      storagePrefix + "/" + objectKey
    }

    /** `file_exists`: present and flagged complete. */
    function FileExists(objectKey: string): (b: bool)
      reads bucket
    {
      DestKey(objectKey) in bucket.objects && bucket.objects[DestKey(objectKey)].completed
    }

    /** `mark_complete`: sets the flag; the patch is retried on
        ServiceUnavailable and fails with RetryError past its deadline. */
    method MarkComplete(key: string, patchSucceeds: bool) returns (r: Result<()>)
      requires key in bucket.objects
      modifies bucket
      ensures r.Ok? <==> patchSucceeds
      ensures r.Err? ==> r.error == RetryError && bucket.objects == old(bucket.objects)
      ensures r.Ok? ==> bucket.objects == old(bucket.objects)[key := old(bucket.objects)[key].(completed := true)]
    {
      if patchSucceeds {
        bucket.objects := bucket.objects[key := bucket.objects[key].(completed := true)];
        r := Ok(());
      } else {
        r := Err(RetryError);
      }
    }

    /** `write` */
    method Write(objectKey: string, data: Payload, env: Environment) returns (r: Result<()>)
      // An upload refused with PreconditionFailed is the lost race, which
      // `env.race` describes.
      requires env.uploadError != Some(PreconditionFailed)
      modifies bucket, clock, this
      ensures var key := DestKey(objectKey);
        && (forall k :: k != key ==> (k in bucket.objects <==> k in old(bucket.objects)))
        && (forall k :: k != key && k in old(bucket.objects) ==> bucket.objects[k] == old(bucket.objects[k]))
        // A writer that finds the object present never uploads.
        && (key in old(bucket.objects) ==> key in bucket.objects && bucket.objects[key].data == old(bucket.objects[key].data))
        // Nor does one that loses the race to create it.
        && (key !in old(bucket.objects) && env.race.Some? ==> key in bucket.objects && bucket.objects[key].data == env.race.value)
        // The winner uploads its data and flags it complete.
        && (key !in old(bucket.objects) && env.race.None? && env.uploadError.None? ==>
              key in bucket.objects && bucket.objects[key].data == data
              && (r.Ok? <==> env.patchSucceeds) && bucket.objects[key].completed == env.patchSucceeds)
        // Other upload errors propagate unchanged, with nothing stored.
        && (key !in old(bucket.objects) && env.race.None? && env.uploadError.Some? ==>
              r == Err(env.uploadError.value) && key !in bucket.objects)
        // An object already flagged complete is accepted as written.
        && (key in old(bucket.objects) && old(bucket.objects[key].completed) ==> r.Ok?)
        // Success means the object is flagged complete.
        && (r.Ok? ==> key in bucket.objects && bucket.objects[key].completed)
    {
      var key := DestKey(objectKey);
      if key !in bucket.objects {
        if env.race.Some? {
          // The other writer's create lands first; ours fails with
          // PreconditionFailed and we poll for its flag instead.
          bucket.objects := bucket.objects[key := StoredObject(env.race.value, false)];
          r := AssertFileUploaded(objectKey, env.flagAt);
        } else if env.uploadError.Some? {
          r := Err(env.uploadError.value);
        } else {
          bucket.objects := bucket.objects[key := StoredObject(data, false)];
          r := MarkComplete(key, env.patchSucceeds);
        }
      } else {
        r := AssertFileUploaded(objectKey, env.flagAt);
      }
    }

    /** `assert_file_uploaded`: poll from 0.1 s up to delays of one hour. */
    method AssertFileUploaded(objectKey: string, flagAt: Option<nat>) returns (r: Result<()>)
      requires DestKey(objectKey) in bucket.objects
      modifies bucket, clock, this
      ensures PollOutcome(DestKey(objectKey), FirstSleep, MaxSleep, r)
    {
      r := PollFrom(DestKey(objectKey), FirstSleep, MaxSleep, flagAt);
    }

    /** What polling from delay `sleep` leaves behind: only the flag of the
        object may change; success means the flag is seen; failure is an
        UploadPollingException after every delay from `sleep` was slept. */
    twostate predicate PollOutcome(key: string, sleep: nat, maxSleep: nat, new r: Result<()>)
      reads this, bucket, clock
      requires sleep >= 1
    {
      && key in old(bucket.objects) && key in bucket.objects
      && bucket.objects == old(bucket.objects)[key := bucket.objects[key]]
      && bucket.objects[key].data == old(bucket.objects[key].data)
      && (r.Ok? ==> bucket.objects[key].completed)
      // A flag already set is seen by the first reload.
      && (old(bucket.objects)[key].completed && sleep <= maxSleep ==> r.Ok?)
      && (r.Err? ==>
            && r.error == UploadPollingException
            && clock.now == old(clock.now) + Sum(Sleeps(sleep, maxSleep))
            && reloads == old(reloads) + |Sleeps(sleep, maxSleep)|)
      && clock.now <= old(clock.now) + Sum(Sleeps(sleep, maxSleep))
      && reloads <= old(reloads) + |Sleeps(sleep, maxSleep)|
    }

    /** `_assert_file_uploaded`: sleep, reload, and either stop on the flag
        or double the delay. */
    method PollFrom(key: string, sleep: nat, maxSleep: nat, flagAt: Option<nat>) returns (r: Result<()>)
      requires sleep >= 1 && key in bucket.objects
      modifies bucket, clock, this
      ensures PollOutcome(key, sleep, maxSleep, r)
      decreases if sleep > maxSleep then 0 else maxSleep - sleep + 1
    {
      if sleep > maxSleep {
        return Err(UploadPollingException);
      }
      clock.now := clock.now + sleep;
      if flagAt.Some? && clock.now >= flagAt.value {
        // The writer in progress has set its flag by now.
        bucket.objects := bucket.objects[key := bucket.objects[key].(completed := true)];
      }
      reloads := reloads + 1;
      if bucket.objects[key].completed {
        return Ok(());
      }
      r := PollFrom(key, 2 * sleep, maxSleep, flagAt);
    }
  }

  /** Two exporters writing the same key one after the other: the first
      uploads and flags its data, the second finds it and uploads nothing. */
  method TwoWriters(storage: GcsStorage, objectKey: string, first: Payload, second: Payload)
    returns (r1: Result<()>, r2: Result<()>)
    requires storage.DestKey(objectKey) !in storage.bucket.objects
    modifies storage.bucket, storage.clock, storage
    ensures r1.Ok? ==> r2.Ok?
    ensures storage.DestKey(objectKey) in storage.bucket.objects
    ensures storage.bucket.objects[storage.DestKey(objectKey)].data == first
  {
    var calm := Environment(None, None, true, None);
    r1 := storage.Write(objectKey, first, calm);
    r2 := storage.Write(objectKey, second, calm);
  }
}
