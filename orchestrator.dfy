/**
 * The fan-out at the end of `main`: which workers it starts, given the
 * number of process arguments, the message count, the parsed thread count
 * and the configured topics. Starting a worker is modelled by the plan
 * listing the arguments `produceMessages` would be called with.
 */
module Orchestrator {
  import opened Common
  import Producer
  import Configuration
  import Payload

  /** The fatal exits of the fan-out. */
  datatype Fatal =
    | Usage          // fewer than three arguments after the program name
    | FiniteThreads  // a thread count together with a finite message count
    | BadThreadCount // the thread count is not an integer
    | FiniteTopics   // several topics together with a finite message count

  /** One call `produceMessages(topic, start, end, thread)`. */
  datatype Worker = Worker(topic: string, start: int, end: int, thread: string)

  /** What `main` goes on to do. */
  datatype Plan =
    | Abort(reason: Fatal)             // log.Fatal
    | Concurrent(workers: seq<Worker>) // goroutines, then block forever
    | Inline(worker: Worker)           // one worker on the main goroutine, then exit
    | Idle                             // no topic: return at once

  /** The branch `main` takes, in the priority order of its tests. */
  datatype Mode = ThreadMode | TopicsMode | SingleTopicMode | NoTopics | Failed(reason: Fatal)

  /**
   * The fan-out decision. `argc` counts the program name too;
   * `numThreads` is `None` when `os.Args[4]` is absent or not an integer.
   */
  function Decide(argc: int, numMessages: int, numThreads: Option<int>, topicCount: nat): (m: Mode)
    ensures m.Failed? <==>
              || argc < 4
              || (argc >= 5 && (numMessages != Producer.Unbounded || numThreads.None?))
              || (4 <= argc < 5 && topicCount > 1 && numMessages != Producer.Unbounded)
    ensures m == Failed(Usage) <==> argc < 4
    ensures m == Failed(FiniteThreads) <==> argc >= 5 && numMessages != Producer.Unbounded
    ensures m == Failed(BadThreadCount) <==>
              argc >= 5 && numMessages == Producer.Unbounded && numThreads.None?
    ensures m == Failed(FiniteTopics) <==>
              argc == 4 && topicCount > 1 && numMessages != Producer.Unbounded
    ensures m == ThreadMode ==> argc >= 5
    ensures m == TopicsMode ==> topicCount > 1 && numMessages == Producer.Unbounded
    ensures m == SingleTopicMode ==> topicCount == 1
    ensures m == NoTopics ==> topicCount == 0
  {
    if argc < 4 then Failed(Usage)
    else if argc >= 5 then
      if numMessages != Producer.Unbounded then Failed(FiniteThreads)
      else if numThreads.None? then Failed(BadThreadCount)
      else ThreadMode
    else if topicCount > 1 then
      if numMessages != Producer.Unbounded then Failed(FiniteTopics) else TopicsMode
    else if topicCount == 1 then SingleTopicMode
    else NoTopics
  }

  /** A thread count on the command line wins over the topic list, which is then not consulted. */
  lemma ThreadArgumentIgnoresTopics(argc: int, numMessages: int, numThreads: Option<int>, a: nat, b: nat)
    requires argc >= 5
    ensures Decide(argc, numMessages, numThreads, a) == Decide(argc, numMessages, numThreads, b)
  {
  }

  /** With a finite message count, `main` never starts more than the one inline worker. */
  lemma FiniteCountIsSequential(argc: int, numMessages: int, numThreads: Option<int>, topicCount: nat)
    requires numMessages != Producer.Unbounded
    ensures Decide(argc, numMessages, numThreads, topicCount) !in {ThreadMode, TopicsMode}
  {
  }

  /** Go's `string(n)` for an integer `n`: the one-character string of code point n. */
  predicate IsScalarValue(n: int)
  {
    0 <= n < 0xD800 || 0xE000 <= n <= 0x10FFFF
  }

  /**
   * `string(numThreads)`: the character with code point n, or U+FFFD when n
   * is not a Unicode scalar value. It is not the decimal text of n.
   */
  function RuneString(n: int): (s: string)
    ensures |s| == 1
    ensures IsScalarValue(n) ==> s[0] as int == n
    ensures !IsScalarValue(n) ==> s[0] == '\U{FFFD}'
  {
    if IsScalarValue(n) then [n as char] else ['\U{FFFD}']
  }

  /** Distinct scalar values give distinct labels. */
  lemma RuneStringInjective(a: int, b: int)
    requires IsScalarValue(a) && IsScalarValue(b) && a != b
    ensures RuneString(a) != RuneString(b)
  {
    assert RuneString(a)[0] != RuneString(b)[0];
  }

  /** Labels are not unique: every value that is not a scalar value gives U+FFFD. */
  lemma NonScalarLabelsCollide(a: int, b: int)
    requires !IsScalarValue(a) && !IsScalarValue(b)
    ensures RuneString(a) == RuneString(b) == "\U{FFFD}"
  {
  }

  /** The decimal text of n, which the label could have been. */
  function DecimalText(n: nat): (s: string)
    ensures |s| >= 1
    ensures n >= 10 ==> |s| >= 2
  {
    var digit := ('0' as int + n % 10) as char;
    if n < 10 then [digit] else DecimalText(n / 10) + [digit]
  }

  /** From thread 10 on, the label is never the decimal text of the thread number. */
  lemma {:induction false} LabelIsNotDecimal(n: int)
    requires n >= 10
    ensures RuneString(n) != DecimalText(n)
  {
    assert |RuneString(n)| == 1 < |DecimalText(n)|;
  }

  /**
   * The thread loop: one unbounded worker on the configured `topic` per
   * decrement of the thread count, labels n, n-1, ..., 1.
   */
  method ThreadWorkers(n: int, topic: string) returns (workers: seq<Worker>)
    requires n >= 0
    ensures |workers| == n
    ensures forall k :: 0 <= k < n ==> workers[k] == Worker(topic, 0, Producer.Unbounded, RuneString(n - k))
  {
    workers := [];
    var remaining := n;
    while remaining != 0
      invariant 0 <= remaining <= n
      invariant |workers| == n - remaining
      invariant forall k :: 0 <= k < |workers| ==>
                  workers[k] == Worker(topic, 0, Producer.Unbounded, RuneString(n - k))
    {
      workers := workers + [Worker(topic, 0, Producer.Unbounded, RuneString(remaining))];
      remaining := remaining - 1;
    }
  }

  /** The topic loop: one unbounded worker per configured topic, labelled with the topic. */
  method TopicWorkers(topics: seq<string>) returns (workers: seq<Worker>)
    ensures |workers| == |topics|
    ensures forall k :: 0 <= k < |topics| ==>
              workers[k] == Worker(topics[k], 0, Producer.Unbounded, topics[k])
  {
    workers := [];
    for k := 0 to |topics|
      invariant |workers| == k
      invariant forall j :: 0 <= j < k ==> workers[j] == Worker(topics[j], 0, Producer.Unbounded, topics[j])
    {
      workers := workers + [Worker(topics[k], 0, Producer.Unbounded, topics[k])];
    }
  }

  /**
   * The fan-out of `main`. A negative thread count would spawn workers
   * without end and is excluded.
   */
  method FanOut(argc: int, numMessages: int, numThreads: Option<int>, topic: string, topics: seq<string>)
    returns (plan: Plan)
    requires Decide(argc, numMessages, numThreads, |topics|) == ThreadMode ==> numThreads.value >= 0
    ensures plan.Abort? <==> Decide(argc, numMessages, numThreads, |topics|).Failed?
    ensures plan.Abort? ==> plan.reason == Decide(argc, numMessages, numThreads, |topics|).reason
    ensures Decide(argc, numMessages, numThreads, |topics|) == ThreadMode ==>
              plan.Concurrent? && |plan.workers| == numThreads.value &&
              forall k :: 0 <= k < |plan.workers| ==>
                plan.workers[k] == Worker(topic, 0, Producer.Unbounded, RuneString(numThreads.value - k))
    ensures Decide(argc, numMessages, numThreads, |topics|) == TopicsMode ==>
              plan.Concurrent? && |plan.workers| == |topics| &&
              forall k :: 0 <= k < |topics| ==> plan.workers[k] == Worker(topics[k], 0, Producer.Unbounded, topics[k])
    ensures Decide(argc, numMessages, numThreads, |topics|) == SingleTopicMode ==>
              plan == Inline(Worker(topics[0], 0, numMessages, topics[0]))
    ensures Decide(argc, numMessages, numThreads, |topics|) == NoTopics ==> plan == Idle
    // concurrent workers never have a finite bound, and only start with an unbounded message count
    ensures plan.Concurrent? ==> numMessages == Producer.Unbounded
    ensures plan.Concurrent? ==> forall w :: w in plan.workers ==> w.start == 0 && w.end == Producer.Unbounded
  {
    var mode := Decide(argc, numMessages, numThreads, |topics|);
    match mode {
      case Failed(reason) =>
        plan := Abort(reason);
      case ThreadMode =>
        var workers := ThreadWorkers(numThreads.value, topic);
        plan := Concurrent(workers);
      case TopicsMode =>
        var workers := TopicWorkers(topics);
        plan := Concurrent(workers);
      case SingleTopicMode =>
        plan := Inline(Worker(topics[0], 0, numMessages, topics[0]));
      case NoTopics =>
        plan := Idle;
    }
  }

  /**
   * The start-up of `main` between parsing the configuration and the
   * fan-out: set the checkpoint interval, apply the word defaults and build
   * the shared word list from the letter draws.
   */
  method PrepareWorkload(c: Configuration.Config, draws: seq<Payload.LetterIndex>)
    returns (interval: int, words: Option<seq<string>>)
    requires var d := Configuration.WithWordDefaults(c);
             d.wordCount > 0 && d.wordLength >= 0 ==> d.wordCount * d.wordLength <= |draws|
    ensures interval == Configuration.EffectiveCheckpointInterval(c)
    ensures words.None? <==> c.wordCount >= 0 && c.wordLength < 0
    ensures words.Some? ==> |words.value| == if c.wordCount == 0 then 1 else if c.wordCount > 0 then c.wordCount else 0
    ensures words.Some? ==> forall k :: 0 <= k < |words.value| ==>
              |words.value[k]| == Configuration.WithWordDefaults(c).wordLength && Payload.IsLetterWord(words.value[k])
  {
    interval := Configuration.EffectiveCheckpointInterval(c);
    var d := Configuration.WithWordDefaults(c);
    words := Payload.BuildWordList(d.wordCount, d.wordLength, draws);
  }
}
