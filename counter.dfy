/** The fixed-epoch request counter of safe-counter.go: a window of
    `windowLength` seconds opens at the first request after the previous one
    expired, and the count restarts at 1 there.

    Instants are integer nanoseconds (the caller passes the clock reading
    `now`); the persisted record holds milliseconds. */
module SafeCounter {
  import opened Int64Arith

  datatype Option<T> = None | Some(value: T)

  /** The four fields of a live `Counter` that its operations read and write. */
  datatype CounterFields = CounterFields(
    count: Int64,
    windowStart: int,   // nanoseconds
    windowEnd: int,     // nanoseconds
    windowLength: Int64 // seconds, stored as a raw `time.Duration`
  )

  /** The flat record `JsonCounter` that is written to and read from the file. */
  datatype JsonCounter = JsonCounter(
    count: Int64,
    windowStart: int,   // milliseconds
    windowEnd: int,     // milliseconds
    windowLength: Int64
  )

  // ---------------------------------------------------------------------
  // Window arithmetic
  // ---------------------------------------------------------------------

  /** The fields after `Start(length)` at instant `now`: an empty window of
      `length` seconds opening at `now`. */
  function Started(length: Int64, now: int): (f: CounterFields)
    ensures f.count == 0 && f.windowStart == now && f.windowLength == length
    ensures f.windowEnd == now + SecondsToNanos(length)
    ensures 0 <= length <= MaxSeconds ==> f.windowEnd == now + length * NanosPerSecond
  {
    CounterFields(0, now, now + SecondsToNanos(length), length)
  }

  /** The fields after one `Increment` at instant `now`. The new count is the
      value `Increment` returns. */
  function Advance(f: CounterFields, now: int): (r: CounterFields)
    ensures r.windowLength == f.windowLength
    ensures now < f.windowEnd ==> r.windowStart == f.windowStart && r.windowEnd == f.windowEnd
    ensures now < f.windowEnd ==> r.count == Wrap64(f.count + 1)
    ensures now < f.windowEnd && f.count < MaxInt64 ==> r.count == f.count + 1
    ensures f.windowEnd <= now ==> r == Started(f.windowLength, now).(count := 1)
    ensures 0 <= f.count < MaxInt64 ==> 1 <= r.count <= f.count + 1
  {
    if now < f.windowEnd then
      f.(count := Wrap64(f.count + 1))
    else
      CounterFields(1, now, now + SecondsToNanos(f.windowLength), f.windowLength)
  }

  /** What a run of serialised increments at the instants `times` observes:
      the counts returned one by one, and the fields afterwards. */
  datatype Trace = Trace(final: CounterFields, results: seq<Int64>)

  function Run(f: CounterFields, times: seq<int>): (t: Trace)
    ensures |t.results| == |times|
    ensures t.final.windowLength == f.windowLength
    ensures times != [] ==> t.results[|times| - 1] == t.final.count
    decreases |times|
  {
    if times == [] then Trace(f, [])
    else
      var g := Advance(f, times[0]);
      var rest := Run(g, times[1..]);
      Trace(rest.final, [g.count] + rest.results)
  }

  /** Increments that all land strictly before the window's end continue the
      count one by one and leave the window where it is. */
  lemma {:induction false} RunInWindow(f: CounterFields, times: seq<int>)
    requires f.count + |times| <= MaxInt64
    requires forall i :: 0 <= i < |times| ==> times[i] < f.windowEnd
    ensures Run(f, times).final == f.(count := f.count + |times|)
    ensures forall i :: 0 <= i < |times| ==> Run(f, times).results[i] == f.count + i + 1
    decreases |times|
  {
    if times != [] {
      var g := Advance(f, times[0]);
      assert g == f.(count := f.count + 1);
      RunInWindow(g, times[1..]);
      var t := Run(f, times);
      assert t.results == [g.count] + Run(g, times[1..]).results;
      forall i | 0 <= i < |times|
        ensures t.results[i] == f.count + i + 1
      {
        if i > 0 {
          assert t.results[i] == Run(g, times[1..]).results[i - 1];
        }
      }
    }
  }

  /** What the mutex on `Increment` buys: after `Start`, k serialised increments inside the
      window return 1, 2, ..., k, so no two callers see the same count, and
      `Value()` is k afterwards. */
  lemma SerialIncrementsAreDistinct(length: Int64, now: int, times: seq<int>)
    requires |times| <= MaxInt64
    requires forall i :: 0 <= i < |times| ==> times[i] < Started(length, now).windowEnd
    ensures forall i :: 0 <= i < |times| ==> Run(Started(length, now), times).results[i] == i + 1
    ensures forall i, j :: 0 <= i < j < |times| ==>
      Run(Started(length, now), times).results[i] < Run(Started(length, now), times).results[j]
    ensures forall i, j :: 0 <= i < |times| && 0 <= j < |times| && i != j ==>
      Run(Started(length, now), times).results[i] != Run(Started(length, now), times).results[j]
    ensures Run(Started(length, now), times).final.count == |times|
    ensures Run(Started(length, now), times).final.windowStart == now
    ensures Run(Started(length, now), times).final.windowEnd == Started(length, now).windowEnd
  {
    RunInWindow(Started(length, now), times);
  }

  /** The instant a window ends belongs to the next window: an increment exactly
      at `windowEnd` restarts the count. */
  lemma BoundaryOpensNewWindow(f: CounterFields)
    ensures Advance(f, f.windowEnd).count == 1
    ensures Advance(f, f.windowEnd).windowStart == f.windowEnd
  {
  }

  /** The window-moving scenario: a 10-second window, ten increments spaced at
      least a second apart (the i-th no earlier than i seconds after `Start`)
      with the tenth still inside the window, then one more at least a second
      after the tenth. The ten see 1..10; the eleventh falls in a
      new window and sees 1, which is at most 10. */
  lemma WindowMoving(now: int, times: seq<int>, later: int)
    requires |times| == 10
    requires forall i :: 0 <= i < 10 ==> now + i * NanosPerSecond <= times[i]
    requires forall i, j :: 0 <= i < j < 10 ==> times[i] + NanosPerSecond <= times[j]
    requires times[9] < now + 10 * NanosPerSecond
    requires times[9] + NanosPerSecond <= later
    ensures forall i :: 0 <= i < 10 ==> Run(Started(10, now), times).results[i] == i + 1
    ensures Run(Started(10, now), times).results[9] == 10
    ensures Advance(Run(Started(10, now), times).final, later).count == 1
  {
    var f := Started(10, now);
    forall i | 0 <= i < 10
      ensures times[i] < f.windowEnd
    {
      if i < 9 {
        assert times[i] + NanosPerSecond <= times[9];
      }
    }
    SerialIncrementsAreDistinct(10, now, times);
  }

  // ---------------------------------------------------------------------
  // The persisted record
  // ---------------------------------------------------------------------

  /** `SaveToJSON`'s record: bounds as `UnixMilli` readings, the length raw. */
  function ToJson(f: CounterFields): (j: JsonCounter)
    ensures j.count == f.count && j.windowLength == f.windowLength
    ensures j.windowStart * NanosPerMilli <= f.windowStart < (j.windowStart + 1) * NanosPerMilli
    ensures j.windowEnd * NanosPerMilli <= f.windowEnd < (j.windowEnd + 1) * NanosPerMilli
  {
    JsonCounter(f.count, UnixMilli(f.windowStart), UnixMilli(f.windowEnd), f.windowLength)
  }

  /** The `Counter` that `NewCounter` builds from a record it has read. */
  function FromJson(j: JsonCounter): (f: CounterFields)
    ensures f.count == j.count && f.windowLength == j.windowLength
    ensures f.windowStart % NanosPerMilli == 0 && f.windowEnd % NanosPerMilli == 0
  {
    CounterFields(j.count, FromUnixMilli(j.windowStart), FromUnixMilli(j.windowEnd), j.windowLength)
  }

  /** Reading back a record that was written gives the record again. */
  lemma RecordRoundTrip(j: JsonCounter)
    ensures ToJson(FromJson(j)) == j
  {
  }

  /** Saving and loading keeps the count and the length exactly and rounds
      each window bound down to a whole millisecond; a second save and load
      changes nothing more. */
  lemma SnapshotRoundTrip(f: CounterFields)
    ensures FromJson(ToJson(f)).count == f.count
    ensures FromJson(ToJson(f)).windowLength == f.windowLength
    ensures FromJson(ToJson(f)).windowStart <= f.windowStart < FromJson(ToJson(f)).windowStart + NanosPerMilli
    ensures FromJson(ToJson(f)).windowEnd <= f.windowEnd < FromJson(ToJson(f)).windowEnd + NanosPerMilli
    ensures FromJson(ToJson(FromJson(ToJson(f)))) == FromJson(ToJson(f))
  {
    RecordRoundTrip(ToJson(f));
  }

  // ---------------------------------------------------------------------
  // Loading
  // ---------------------------------------------------------------------

  /** The fields `json.Unmarshal` managed to store into the record; a field it
      did not reach keeps the record's zero value. */
  datatype StoredFields = StoredFields(
    count: Option<Int64>,
    windowStart: Option<int>,
    windowEnd: Option<int>,
    windowLength: Option<Int64>
  )

  /** What reading the counter file produced: a read error, or the bytes were
      read and decoding stored some fields, possibly with an error. */
  datatype LoadOutcome =
    | ReadFailed
    | FileRead(stored: StoredFields, decodeFailed: bool)

  function OrZero<T>(o: Option<T>, zero: T): T {
    match o
    case Some(v) => v
    case None => zero
  }

  /** The record after decoding: every field not stored is zero. */
  function Decoded(s: StoredFields): (j: JsonCounter)
    ensures j.count == (if s.count.Some? then s.count.value else 0)
    ensures j.windowStart == (if s.windowStart.Some? then s.windowStart.value else 0)
    ensures j.windowEnd == (if s.windowEnd.Some? then s.windowEnd.value else 0)
    ensures j.windowLength == (if s.windowLength.Some? then s.windowLength.value else 0)
  {
    JsonCounter(OrZero(s.count, 0), OrZero(s.windowStart, 0), OrZero(s.windowEnd, 0), OrZero(s.windowLength, 0))
  }

  /** The fields of the counter `NewCounter(length, file)` returns. */
  function Loaded(length: Int64, outcome: LoadOutcome, now: int): (f: CounterFields)
    ensures outcome.ReadFailed? ==> f == Started(length, now) && f.count == 0
    ensures outcome.FileRead? ==> ToJson(f) == Decoded(outcome.stored)
    ensures outcome.FileRead? ==> f.windowStart % NanosPerMilli == 0 && f.windowEnd % NanosPerMilli == 0
  {
    match outcome
    case ReadFailed => Started(length, now)
    case FileRead(stored, _) => FromJson(Decoded(stored))
  }

  /** Once the file is read, neither the length argument, nor the clock, nor
      whether decoding reported an error changes the loaded counter. */
  lemma LoadedIgnoresArguments(length1: Int64, length2: Int64, stored: StoredFields,
                               failed1: bool, failed2: bool, now1: int, now2: int)
    ensures Loaded(length1, FileRead(stored, failed1), now1)
         == Loaded(length2, FileRead(stored, failed2), now2)
  {
  }

  /** A fully decoded record is taken as it is, with no re-validation; a field
      that was not decoded loads as zero. */
  lemma LoadedFromRecord(length: Int64, j: JsonCounter, failed: bool, now: int)
    ensures Loaded(length, FileRead(StoredFields(Some(j.count), Some(j.windowStart),
                                                 Some(j.windowEnd), Some(j.windowLength)), failed), now)
         == FromJson(j)
    ensures Loaded(length, FileRead(StoredFields(None, None, None, None), failed), now)
         == CounterFields(0, 0, 0, 0)
  {
  }

  /** The saving side: either creating the file failed, or the record was
      written. The source ignores the error of the write itself. */
  datatype SaveResult = CreateFailed | Saved(record: JsonCounter)

  // ---------------------------------------------------------------------
  // The live counter
  // ---------------------------------------------------------------------

  /** A `Counter`. Its mutex serialises `Start`, `Increment` and `Value`, so
      a sequential object states what the lock guarantees for them.
      `SaveToJSON` and `NewCounter` take no lock; the model treats them as
      running while no `Increment` is in flight. */
  class Counter {
    var jsonFile: string
    var count: Int64
    var windowStart: int
    var windowEnd: int
    var windowLength: Int64

    ghost function Fields(): CounterFields
      reads this
    {
      CounterFields(count, windowStart, windowEnd, windowLength)
    }

    /** `NewCounter(length, counterFile)`, with the result of reading and
        decoding the file and the clock reading passed in. */
    constructor (length: Int64, counterFile: string, outcome: LoadOutcome, now: int)
      ensures jsonFile == counterFile
      ensures Fields() == Loaded(length, outcome, now)
      ensures outcome.ReadFailed? ==> Value() == 0
    {
      jsonFile := counterFile;
      count, windowStart, windowEnd, windowLength := 0, 0, 0, 0;
      new;
      if outcome.ReadFailed? {
        Start(length, now);
      } else {
        var j := Decoded(outcome.stored);
        count := j.count;
        windowStart := FromUnixMilli(j.windowStart);
        windowEnd := FromUnixMilli(j.windowEnd);
        windowLength := j.windowLength;
      }
    }

    /** Opens a fresh window of `length` seconds at `now`, with count 0. */
    method Start(length: Int64, now: int)
      modifies this
      ensures Fields() == Started(length, now)
      ensures count == 0 && windowStart == now && windowLength == length
      ensures windowEnd == now + SecondsToNanos(length)
      ensures jsonFile == old(jsonFile)
    {
      windowLength := length;
      windowStart := now;
      windowEnd := windowStart + SecondsToNanos(windowLength);
      count := 0;
    }

    /** Counts one request at `now` and returns the new count. */
    method Increment(now: int) returns (n: Int64)
      modifies this
      ensures Fields() == Advance(old(Fields()), now)
      ensures n == count == Value()
      ensures windowLength == old(windowLength) && jsonFile == old(jsonFile)
      ensures now < old(windowEnd) ==>
        count == Wrap64(old(count) + 1) && windowStart == old(windowStart) && windowEnd == old(windowEnd)
      ensures old(windowEnd) <= now ==>
        count == 1 && windowStart == now && windowEnd == now + SecondsToNanos(windowLength)
    {
      if now < windowEnd {
        count := Wrap64(count + 1);
        return count;
      }
      count := 1;
      windowStart := now;
      windowEnd := now + SecondsToNanos(windowLength);
      return count;
    }

    /** The current count; as a function it changes nothing. */
    function Value(): Int64
      reads this
    {
      count
    }

    /** `SaveToJSON`, with the outcome of creating the file passed in: the
        record it writes is the counter's fields in the persisted units. */
    method SaveToJSON(createFailed: bool) returns (r: SaveResult)
      ensures createFailed <==> r.CreateFailed?
      ensures r.Saved? ==> r.record == ToJson(Fields())
      ensures r.Saved? ==> r.record.count == Value()
    {
      if createFailed {
        return CreateFailed;
      }
      var record := JsonCounter(count, UnixMilli(windowStart), UnixMilli(windowEnd), windowLength);
      return Saved(record);
    }
  }
}
