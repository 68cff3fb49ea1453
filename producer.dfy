/**
 * The message producer worker, `produceMessages`: the pacing loop that
 * builds one timestamped payload per iteration, hands it to the publish
 * queue and, when it runs without bound, emits a checkpoint every
 * `interval` messages.
 *
 * The publish queue and the checkpoint channel become the returned
 * sequences `sent` and `checkpoints`; `marks[j]` is the number of messages
 * already sent when checkpoint j was emitted. The clock is the input `now`:
 * `now(t)` is what the t-th call of `time.Now()` in this worker returns,
 * in nanoseconds. The data function is a parameter of the worker, so its
 * successive results are the input `data`. An unbounded worker runs for
 * `fuel` iterations of its endless loop.
 */
module Producer {

  /** The published record: a millisecond timestamp, the constant 2 and the data string. */
  datatype TimestampContainer = TimestampContainer(unixTimestamp: int, data: int, dataString: string)

  /** One message handed to the publish queue for `topic`. */
  datatype Message = Message(topic: string, value: TimestampContainer)

  /** A throughput sample: the worker's label and the nanoseconds since its window opened. */
  datatype Checkpoint = Checkpoint(thread: string, elapsed: int)

  /** The `end` value that makes a worker run without bound. */
  const Unbounded: int := -1

  /** The constant `Data` field of every payload. */
  const PayloadData: int := 2

  /** `int64(time.Millisecond) / int64(time.Nanosecond)`. */
  const NanosPerMilli: int := 1000000

  /** `UnixNano() / 1000000` with Go's division, which truncates toward zero. */
  function Millis(nanos: int): (ms: int)
    ensures nanos >= 0 ==> 0 <= ms && ms * NanosPerMilli <= nanos < ms * NanosPerMilli + NanosPerMilli
    ensures nanos < 0 ==> ms <= 0 && ms * NanosPerMilli - NanosPerMilli < nanos <= ms * NanosPerMilli
  {
    if nanos >= 0 then nanos / NanosPerMilli else -((-nanos) / NanosPerMilli)
  }

  /** A later clock reading never gives an earlier millisecond timestamp. */
  lemma MillisMonotone(a: int, b: int)
    requires a <= b
    ensures Millis(a) <= Millis(b)
  {
  }

  /** A clock whose readings never go backwards. */
  ghost predicate Monotone(now: nat -> int)
  {
    forall a: nat, b: nat :: a <= b ==> now(a) <= now(b)
  }

  lemma MultipleSign(d: int, b: int)
    requires b >= 1
    ensures d >= 1 ==> d * b >= b
    ensures d <= -1 ==> d * b <= -b
  {
    assert d * b - b == (d - 1) * b;
    assert d * b + b == (d + 1) * b;
  }

  /** `q` is the quotient of `a` by `b` when `a` is `q` whole `b`s and a remainder below `b`. */
  lemma QuotientOf(a: int, b: int, q: int, r: int)
    requires b >= 1 && 0 <= r < b && a == q * b + r
    ensures a / b == q
  {
    var d := a / b - q;
    assert a == (a / b) * b + a % b;
    assert d * b == r - a % b;
    MultipleSign(d, b);
  }

  /**
   * produceMessages. A bounded worker (`end != -1`) counts `start` up to
   * `end`, sending one message per step and no checkpoint. An unbounded
   * worker keeps a countdown that starts at 0: the first message takes it
   * below zero and it is reset to `interval` without a checkpoint; from
   * then on a checkpoint is emitted each time the countdown reaches zero,
   * that is after messages 1 + interval, 1 + 2 * interval, ... .
   */
  method ProduceMessages(topic: string, start: int, end: int, interval: int, thread: string,
                         data: seq<string>, now: nat -> int, fuel: nat)
    returns (sent: seq<Message>, checkpoints: seq<Checkpoint>, marks: seq<nat>, countdown: int)
    requires end != Unbounded ==> start <= end
    requires end == Unbounded ==> interval >= 1
    requires |data| >= if end != Unbounded then end - start else fuel
    // bounded: exactly end - start messages, never a checkpoint, countdown untouched
    ensures end != Unbounded ==> |sent| == end - start && checkpoints == [] && countdown == 0
    // unbounded: the loop runs until the fuel is spent (unless start already equals -1)
    ensures end == Unbounded ==> |sent| == if start == Unbounded then 0 else fuel
    ensures end == Unbounded && |sent| == 0 ==> checkpoints == [] && countdown == 0
    ensures end == Unbounded && |sent| >= 1 ==>
              1 <= countdown <= interval && |checkpoints| == (|sent| - 1) / interval
    ensures |marks| == |checkpoints|
    ensures forall j :: 0 <= j < |marks| ==> marks[j] == 1 + (j + 1) * interval
    // the payloads
    ensures forall k :: 0 <= k < |sent| ==>
              sent[k].topic == topic && sent[k].value.data == PayloadData && sent[k].value.dataString == data[k]
    ensures forall c :: c in checkpoints ==> c.thread == thread
    ensures Monotone(now) ==> forall c :: c in checkpoints ==> c.elapsed >= 0
    ensures Monotone(now) ==> forall j, k :: 0 <= j <= k < |sent| ==>
              sent[j].value.unixTimestamp <= sent[k].value.unixTimestamp
  {
    var i := 0;
    var t: nat := 0;                  // clock readings taken so far
    var startTime := now(t);
    ghost var windowTick: nat := t;   // the reading that opened the current window
    t := t + 1;
    ghost var lastTick: nat := 0;     // the reading behind the last timestamp
    var current := start;
    sent, checkpoints, marks := [], [], [];
    while current != end && (end != Unbounded || |sent| < fuel)
      invariant end != Unbounded ==> start <= current <= end && |sent| == current - start
      invariant end != Unbounded ==> checkpoints == [] && marks == [] && i == 0
      invariant end == Unbounded ==> current == start && |sent| <= fuel
      invariant end == Unbounded && start == Unbounded ==> sent == []
      invariant end == Unbounded && |sent| == 0 ==> i == 0 && checkpoints == []
      invariant end == Unbounded && |sent| >= 1 ==>
                  1 <= i <= interval && |sent| - 1 == |checkpoints| * interval + (interval - i)
      invariant |marks| == |checkpoints|
      invariant forall j :: 0 <= j < |marks| ==> marks[j] == 1 + (j + 1) * interval
      invariant forall k :: 0 <= k < |sent| ==>
                  sent[k].topic == topic && sent[k].value.data == PayloadData && sent[k].value.dataString == data[k]
      invariant forall c :: c in checkpoints ==> c.thread == thread
      invariant windowTick < t && startTime == now(windowTick)
      invariant |sent| > 0 ==> lastTick < t && sent[|sent| - 1].value.unixTimestamp == Millis(now(lastTick))
      invariant Monotone(now) ==> forall c :: c in checkpoints ==> c.elapsed >= 0
      invariant Monotone(now) ==> forall j, k :: 0 <= j <= k < |sent| ==>
                  sent[j].value.unixTimestamp <= sent[k].value.unixTimestamp
      decreases if end != Unbounded then end - current else fuel - |sent|
    {
      var stamp := Millis(now(t));
      if Monotone(now) && |sent| > 0 {
        MillisMonotone(now(lastTick), now(t));
      }
      lastTick := t;
      t := t + 1;
      sent := sent + [Message(topic, TimestampContainer(stamp, PayloadData, data[|sent|]))];
      if end != Unbounded {
        current := current + 1;
      } else {
        i := i - 1;
        if i <= 0 {
          if i == 0 {
            var elapsed := now(t) - startTime;
            assert (|checkpoints| + 1) * interval == |checkpoints| * interval + interval;
            checkpoints := checkpoints + [Checkpoint(thread, elapsed)];
            marks := marks + [|sent|];
            t := t + 1;
          }
          i := interval;
          startTime := now(t);
          windowTick := t;
          t := t + 1;
        }
      }
    }
    countdown := i;
    if end == Unbounded && |sent| >= 1 {
      QuotientOf(|sent| - 1, interval, |checkpoints|, interval - i);
    }
  }
}
