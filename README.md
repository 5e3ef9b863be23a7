# Request counter and 60-slot queue

This project models, in Dafny, the two pieces of state logic of a small Go
HTTP service:

- `Counter` (safe-counter.go) counts incoming requests in a fixed window of
  `windowLength` seconds. `Start` opens a window at the current instant
  with count 0. `Increment` adds one to the count while the instant is still
  strictly before `windowEnd`. From `windowEnd` on, it opens a new window at
  that instant with count 1. `Value` reads the count. `NewCounter` restores
  the counter from a `JsonCounter` record read from a file, and `SaveToJSON`
  writes that record.
- `Queue` (queue.go) is a `[60]int64` array. `Pop` hands out slot 59, runs a
  forward copy loop and clears slot 0. `Push` pops and then writes slot 0.

The counter is a reset-on-expiry counter holding one integer count. The
test at safe-counter_test.go:145 expects a `RequestTimestamps` field, which
`JsonCounter` does not have; that test belongs to a timestamp-list counter
that is not in the code. This model follows the code.

Modelling choices:

- An instant is an integer number of nanoseconds. The clock reading `now` is
  a parameter of `Start`, `Increment` and the `Counter` constructor (which
  models `NewCounter`).
- `time.Second * windowLength` is an int64 product, so it wraps
  (`Int64Arith.SecondsToNanos`). For lengths up to `MaxSeconds`, it is
  exactly `windowLength` seconds.
- `c.count += 1` is int64 addition and wraps too (`Int64Arith.Wrap64`).
  A loaded count is not re-validated. A record holding the largest int64,
  or a negative count, therefore continues from that value.
- The persisted record holds milliseconds. `UnixMilli` rounds an instant
  down to a whole millisecond, also before the epoch, and `time.UnixMilli`
  multiplies back. The window length is stored raw.
- Reading the file has two abstract outcomes (`SafeCounter.LoadOutcome`).
  `ReadFailed` covers any error from reading. `FileRead` carries the fields
  that decoding managed to store, and a flag saying whether decoding
  reported an error. Every field that was not stored stays zero. The flag
  only decides whether a log line is printed, so it does not change the
  counter.
- The mutex serialises `Start`, `Increment` and `Value`
  (safe-counter.go:52, 61, 75). A sequential object therefore states what
  the lock guarantees for them. `SafeCounter.Run` folds `Advance`, the
  function that specifies `Increment`, over a sequence of instants.
  `NewCounter` and `SaveToJSON` take no lock of their own (on a failed
  read `NewCounter` calls `Start`, which locks).

## Model

| member | source | states |
|---|---|---|
| `Int64Arith.Wrap64` | safe-counter.go:65 | int64 addition wraps: the result is the int64 congruent to the exact sum modulo 2^64, and it equals the sum when the sum fits |
| `Int64Arith.SecondsToNanos` | safe-counter.go:56 | `time.Second * d` is an int64 product: the result is congruent to `1e9 * d` modulo 2^64 for every `d`, and it is exactly `d` seconds in nanoseconds while `d` is at most `MaxSeconds` in magnitude |
| `Int64Arith.UnixMilli` | safe-counter.go:88-89 | the millisecond reading `m` of an instant `t` satisfies `m * 1e6 <= t < m * 1e6 + 1e6` (rounding down) |
| `Int64Arith.FromUnixMilli` | safe-counter.go:43-44 | the instant built from `m` milliseconds is a whole millisecond and reads back as exactly `m` milliseconds, so it is `m * 1e6` nanoseconds |
| `SafeCounter.Started` | safe-counter.go:51-58 | `Start(L)` at `now` gives count 0, `windowStart == now`, `windowLength == L`, and `windowEnd == now + time.Second * L` (wrapping) for every `L`, which is `now + L` seconds when `0 <= L <= MaxSeconds` |
| `SafeCounter.Advance` | safe-counter.go:60-72 | strictly before `windowEnd` the window is kept and the count becomes the wrapped old count + 1, exactly old count + 1 below the int64 maximum; at or after `windowEnd` the fields are a fresh `Start` at `now` with count 1; the length never changes; from a count in `[0, MaxInt64)` the new count is at least 1 and at most old count + 1 |
| `SafeCounter.Run` | safe-counter.go:60-72 | a sequence of serialised increments returns one count per call, keeps the length, and its last returned count is the count afterwards |
| `SafeCounter.RunInWindow` | safe-counter.go:63-67 | from any count, a loaded negative one included, `k` increments all strictly before `windowEnd` (without passing the int64 maximum) return old count + 1, ..., old count + k and leave the window bounds and length unchanged |
| `SafeCounter.SerialIncrementsAreDistinct` | safe-counter.go:60-67 | after `Start`, `k` serialised increments inside the window return 1, 2, ..., k, pairwise distinct and strictly increasing, with `Value() == k` afterwards and the window where `Start` put it |
| `SafeCounter.BoundaryOpensNewWindow` | safe-counter.go:64-70 | an increment exactly at `windowEnd` opens a new window there and returns 1 |
| `SafeCounter.WindowMoving` | safe-counter_test.go:87-113 | with a 10-second window and ten increments at least a second apart, the last still inside the window, the ten return 1..10; an increment a second after the tenth returns 1, which is at most 10 |
| `SafeCounter.ToJson` | safe-counter.go:86-91 | the saved record keeps the count and the raw length, and each bound is its instant rounded down to a millisecond |
| `SafeCounter.FromJson` | safe-counter.go:40-46 | a loaded counter takes the record's count and raw length; its bounds are whole milliseconds |
| `SafeCounter.RecordRoundTrip` | safe-counter.go:86-91 | saving a counter loaded from a record gives back exactly that record |
| `SafeCounter.SnapshotRoundTrip` | safe-counter.go:40-46 | save then load keeps count and length exactly and each bound up to less than one millisecond (rounded down); a second save and load changes nothing |
| `SafeCounter.Loaded` | safe-counter.go:27-49 | if reading the file fails, the counter is `Start(windowLength)` and its value is 0; if the file was read, the bounds are whole milliseconds and saving the counter gives back exactly the decoded record, so the fields are exactly the decoded record's |
| `SafeCounter.Decoded` | safe-counter.go:30-39 | the record `json.Unmarshal` leaves: each field is the decoded value if one was stored, and zero otherwise |
| `SafeCounter.LoadedIgnoresArguments` | safe-counter.go:36-46 | once the file is read, the `windowLength` argument, the clock and a decoding error all leave the loaded counter unchanged |
| `SafeCounter.LoadedFromRecord` | safe-counter.go:30-46 | a fully decoded record is loaded as it is, with no re-validation; a field that was not decoded loads as zero |
| `SafeCounter.Counter.constructor` | safe-counter.go:27-49 | `NewCounter` keeps the file name and produces the fields `Loaded` gives; after a failed read, `Value()` is 0 |
| `SafeCounter.Counter.Start` | safe-counter.go:51-58 | sets count 0, `windowStart = now`, `windowEnd = now + time.Second * L`, `windowLength = L`, and keeps the file name |
| `SafeCounter.Counter.Increment` | safe-counter.go:60-72 | the new fields are `Advance` of the old ones: strictly before `windowEnd` the count goes up by one (wrapping) with the bounds kept; otherwise count 1 and a window from `now`; the result equals the count afterwards and `Value()`; length and file name unchanged |
| `SafeCounter.Counter.SaveToJSON` | safe-counter.go:80-103 | a failure to create the file is returned as an error; otherwise the record written is `ToJson` of the fields, with `count == Value()` |
| `SlotQueue.ForwardCopy` | queue.go:14-16 | the slots after the first `n` rounds of the forward loop, keeping the length; their contents are fixed by `SlotQueue.ForwardCopyPropagates` |
| `SlotQueue.Popped` | queue.go:12-19 | the slots after `Pop`: 60 of them, slot 0 is 0 and every slot 1..59 holds the old slot 0 |
| `SlotQueue.Pushed` | queue.go:7-10 | the slots after `Push(x)`: 60 of them, slot 0 is `x` and every slot 1..59 holds the old slot 0 |
| `SlotQueue.PushAll` | queue.go:7-10 | the slots after a series of `Push` calls, keeping all 60; their contents are fixed by `SlotQueue.PushAllCollapses` |
| `SlotQueue.ForwardCopyPropagates` | queue.go:14-16 | after `n` rounds of the forward loop, slots `0..n` hold the original slot 0 and the slots above `n` are untouched |
| `SlotQueue.PushAllCollapses` | queue.go:7-19 | after two or more pushes, slot 0 holds the last item and every other slot holds the one before it, whatever the queue held |
| `SlotQueue.PushTwiceLosesContents` | queue.go:7-19 | after `Push(a)` and `Push(b)` slot 59 already holds `a` and so does every slot but 0 |
| `SlotQueue.PopDoesNotShift` | queue.go:14-16 | on slots `[1, 2, 0, ...]`, `Pop` leaves 1 in slot 2 where a shift would put 2 |
| `SlotQueue.Queue.constructor` | queue.go:3-5 | a new queue has 60 slots, all 0 |
| `SlotQueue.Queue.Pop` | queue.go:12-19 | returns the old slot 59; afterwards slot 0 is 0 and slots 1..59 hold the old slot 0; the array keeps its 60 slots; the loop invariant says which slots the copy has reached |
| `SlotQueue.Queue.Push` | queue.go:7-10 | slot 0 becomes `item`, slots 1..59 hold the old slot 0, the old slot 59 is dropped |
| `SlotQueue.Shifted` | queue.go:14-16 | a shifting `Pop` clears slot 0 and moves every slot `k` to slot `k + 1` |
| `SlotQueue.ShiftPushed` | queue.go:7-10 | a shifting `Push(x)` puts `x` in slot 0 and moves every slot `k` to slot `k + 1` |
| `SlotQueue.Queue.PopShifted` | queue.go:12-19 | the corrected `Pop`: returns the old slot 59 and leaves the slots `Shifted` describes |
| `SlotQueue.Queue.PushShifted` | queue.go:7-10 | the corrected `Push`: leaves the slots `ShiftPushed` describes |
| `SlotQueue.ShiftPushAll` | queue.go:7-10 | the slots after a series of shifting `Push` calls, keeping all 60; their contents are fixed by `SlotQueue.ShiftPushAllOrder` |
| `SlotQueue.ShiftPushAllOrder` | queue.go:7-10 | after up to 60 shifting pushes the items sit newest first from slot 0 up, with the earlier contents above them |
| `SlotQueue.OldestLeavesFirst` | queue.go:12-13 | after 60 shifting pushes the first item pushed is in slot 59, the one `Pop` hands out next |

`SafeCounter.Counter.Value` (safe-counter.go:74-78) is a function that
returns `count`. Being a function, it changes nothing. `Increment`,
`SaveToJSON` and the constructor state their results in terms of it.

## Findings

| source | as written | input that shows it | evidently intended | confidence | as-written member | corrected member |
|---|---|---|---|---|---|---|
| queue.go:14-16 | the loop runs `Queue[i+1] = Queue[i]` for `i` from 0 up to 58, so slot 0 is copied into every slot | slots `[1, 2, 0, ...]`: after `Pop`, slot 2 holds 1 instead of 2; after `Push(a)`, `Push(b)`, slot 59 already holds `a` | copy from the top down, so every item moves up one slot and a pushed item leaves slot 59 after 60 pushes | high; not executed | `SlotQueue.PopDoesNotShift` | `SlotQueue.ShiftPushAllOrder` |

`SlotQueue.Queue.Pop` and `SlotQueue.Queue.Push` model the loop as written.
`SlotQueue.PushAllCollapses` and `SlotQueue.PushTwiceLosesContents` state
what it does to a sequence of pushes. The corrected loop is
`SlotQueue.Queue.PopShifted`, used by `SlotQueue.Queue.PushShifted`.
`SlotQueue.OldestLeavesFirst` states the first-in-first-out property the
corrected loop has. Nothing else in the service uses the queue.

## Left out

- File I/O and JSON bytes are not modelled. This covers `os.ReadFile`, `json.Unmarshal`, `os.Create`, `json.Marshal`, `file.Write` and `file.Close`. Loading takes an abstract `LoadOutcome`, and saving takes a flag saying whether creating the file failed.
- The error of `file.Write` is ignored by the source, so the model has no case for it. `json.Marshal` of four integers cannot fail, so that error path is not modelled either.
- `sync.RWMutex` is not modelled. `Start`, `Increment` and `Value` are modelled as one serialised sequence, which is what the lock provides.
- `SaveToJSON` reads `count`, `windowStart` and `windowEnd` without taking the lock, so a save concurrent with an `Increment` races in the source. The model assumes `SaveToJSON` runs while no `Increment` is in flight, as main.go:58-60 arranges by saving after `server.Shutdown`.
- `time.Now` is not modelled. The instant is a parameter instead.
- The monotonic clock reading that `time.Now` attaches to an instant is not modelled. Comparisons use the wall-clock instant.
- The range limits of `time.Time` are not modelled, because instants and the millisecond fields of the record are unbounded integers. In the source, the record's millisecond fields are int64. A `UnixMilli` reading that overflows int64 is therefore not represented.
- `log` calls are not modelled.
- main.go is not part of this model. It holds the HTTP server, `CounterMiddleware` (which calls `Increment` once per request and puts the result in a request header), the `Home` handler, signal handling, `onGracefulShutdown`, the global `counter` variable and the unused `ERROR_TOO_MANY_REQUEST` constant. All of these wrap the core in I/O.
- safe-counter_test.go:145 reads a `RequestTimestamps` field that `JsonCounter` does not have. That test belongs to a timestamp-list counter, which is not in the code, so it has no counterpart here.
- The file name `jsonFile` is kept as an opaque string. The model only states that it is carried along unchanged.
