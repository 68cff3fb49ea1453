# kafka-stress-go, modelled in Dafny

kafka-stress-go is a load generator for Kafka. It builds random letter
payloads, stamps each one with the time it was generated and publishes it
to one or more topics at a fixed pace. It can run one worker, one worker per
topic, or N workers on one topic. An unbounded worker reports a throughput
checkpoint every `checkpoint_interval` messages.

This project models the sequential logic of `main.go` and proves what it
does:

- `payload.dfy` (module `Payload`): `randomStringN` over a stream of letter
  draws, the start-up word-list loop, and the two data functions. The
  multi-word function is modelled with its in-place slice `r[perm[i]] =
  words[i]`, followed by `strings.Join(r, " ")`.
- `producer.dfy` (module `Producer`): the `produceMessages` loop. It covers
  the bounded counter, the unbounded countdown (which starts at 0) and its
  checkpoints, and the millisecond timestamps.
- `config.dfy` (module `Configuration`): the defaults for the checkpoint
  interval, word length and word count.
- `orchestrator.dfy` (module `Orchestrator`): the fan-out decision at the end
  of `main`, the thread and topic spawning loops, the thread label
  `string(n)`, and the start-up step that builds the word list.
- `common.dfy` (module `Common`): an `Option` type. `None` stands for a Go
  runtime panic.

Inputs stand in for the effects the program has:

- Randomness: the successive results of `rand.Intn(52)` are a sequence of
  `LetterIndex` values. Each `rand.Perm(k)` result is a `perm` argument, and
  a precondition says it is a permutation.
- The clock: `now(t)` is the nanosecond reading returned by the worker's
  t-th call to `time.Now()`.
- `dataFunc`: it is a parameter of `produceMessages`, so its successive
  results are an input sequence `data`.
- The publish queue and the checkpoint channel: these are the sequences the
  worker returns.
- The endless unbounded loop: it runs for `fuel` iterations.

Points where `main.go` behaves differently from what a reader might
expect; the model follows the code:

- The unbounded countdown starts at 0, not at the interval. The first
  message therefore resets the countdown without a checkpoint. Checkpoints
  follow messages `1 + k*interval` for k ≥ 1, not messages `k*interval`.
- Only a zero word count or word length is replaced by its default. A
  negative word count is kept and builds an empty word list. A negative word
  length makes `randomStringN` panic.
- The single topic case reads `topics[0]`. The `topic` field is used only in
  thread mode.
- The thread label is the one-character string of code point n, not the
  decimal text of n.

## Model

| member | source | states |
|---|---|---|
| Payload.RandomStringN | main.go:35-41 | A negative length panics. Otherwise the result has exactly n characters, the k-th is `letters[draws[k]]`, and every character is one of the 52 letters. |
| Payload.LetterWordHasNoSpace | main.go:16 | A word made of letters contains no space. |
| Payload.BuildWordList | main.go:148-153 | The list has max(count, 0) words, unless a positive count meets a negative length, which panics. Each word has `length` letters. The words together are the letters of the first count·length draws, in order. |
| Payload.Join | main.go:163 | `strings.Join(r, " ")`: no words give "", one word gives itself, and k ≥ 1 words give a string of their total length plus k − 1 separators, the first word followed by a space when k ≥ 2. Its inverse is `Split` (JoinSplit, SplitJoin). |
| Payload.Split | main.go:163 | The reference tokenizer (`strings.Split` on a single space, which the program itself never calls) used to state the token property of the joined payload; it always returns at least one piece. |
| Payload.JoinSplit | main.go:163 | Joining the pieces of a split with spaces gives the original string back. |
| Payload.SplitJoin | main.go:163 | Splitting the space-join of one or more space-free words gives back exactly those words. |
| Payload.PermutationCovers | main.go:159-162 | A permutation of 0..k-1 reaches every index, so the loop writes every slot of `r`. |
| Payload.IndexOf | main.go:160-161 | Each value of the permutation is found at a position that holds it. |
| Payload.Placement | main.go:158-162 | The filled slice has one slot per word, and slot `perm[i]` holds `words[i]`. |
| Payload.PlacedIsPermutation | main.go:158-162 | Any slice filled through a permutation is multiset-equal to the word list. |
| Payload.MultiWordData | main.go:157-164 | The in-place loop over the array fills exactly the placement, and the result is its space-join. |
| Payload.DataFunc | main.go:155-169 | More than one word gives the permuted join. One word gives that word unchanged on every call, with no permutation drawn. An empty list panics. |
| Payload.MultiWordSplits | main.go:157-164 | A multi-word payload built from letter words splits on single spaces back into exactly the placed slice. |
| Payload.MultiWordTokens | main.go:157-164 | Such a payload has exactly one token per word, and its tokens are a permutation (multiset-equal) of the word list. |
| Producer.Millis | main.go:55 | Dividing nanoseconds by 1e6 truncates toward zero. The result is the millisecond at or below a non-negative reading, and at or above a negative one. |
| Producer.MillisMonotone | main.go:55 | Later clock readings never give earlier millisecond timestamps. |
| Producer.ProduceMessages | main.go:51-76 | Bounded mode with start ≤ end sends exactly end − start messages, emits no checkpoint and leaves the countdown at 0. Unbounded mode sends one message per iteration; a run that sends nothing emits no checkpoint and leaves the countdown at 0. After m ≥ 1 messages the countdown is in [1, interval] and (m−1)/interval checkpoints have been emitted, the j-th right after message 1+(j+1)·interval. Every payload has the worker's topic, `Data == 2` and the data function's output. Every checkpoint has the worker's label. With a clock that never goes backwards, elapsed times are non-negative and timestamps never decrease. |
| Configuration.EffectiveCheckpointInterval | main.go:103-105 | A nonzero configured interval replaces the global default 1000 (main.go:18). A zero one keeps 1000, so the interval is never 0. |
| Configuration.WithWordDefaults | main.go:138-146 | A zero word length becomes 1000 and a zero word count becomes 1. Every other value is kept, and no other field changes. |
| Configuration.WordDefaultsIdempotent | main.go:138-146 | Applying the defaults twice is the same as applying them once. |
| Configuration.WordDefaultsPositive | main.go:138-146 | After defaulting, count and length are ≥ 1 exactly when the configured values were not negative. |
| Orchestrator.Decide | main.go:173-202 | Fatal exactly when there are too few arguments (main.go:88-90), when a thread argument comes with a finite count or an unparsable thread count, or when several topics come with a finite count. Thread mode needs the thread argument. Topics mode needs more than one topic and an unbounded count. Single-topic mode needs exactly one topic. No-op needs zero topics. |
| Orchestrator.ThreadArgumentIgnoresTopics | main.go:173-187 | With a thread argument, the topic count has no effect on the decision. |
| Orchestrator.FiniteCountIsSequential | main.go:173-191 | With a finite message count, neither concurrent mode is ever chosen. |
| Orchestrator.RuneString | main.go:183 | `string(n)` has one character: code point n when n is a Unicode scalar value, U+FFFD otherwise. |
| Orchestrator.RuneStringInjective | main.go:183 | Distinct scalar values give distinct labels. |
| Orchestrator.NonScalarLabelsCollide | main.go:183 | Labels need not be unique: every value that is not a Unicode scalar value (surrogates, above U+10FFFF) gives the same label U+FFFD. |
| Orchestrator.LabelIsNotDecimal | main.go:183 | For every thread number n ≥ 10 the label is not the decimal text of n: it has one character, the decimal text at least two. |
| Orchestrator.ThreadWorkers | main.go:182-185 | Thread count n ≥ 0 starts n unbounded workers on the configured topic, labelled n, n−1, …, 1. |
| Orchestrator.TopicWorkers | main.go:192-196 | One unbounded worker per configured topic, in order, each labelled with its topic. |
| Orchestrator.FanOut | main.go:173-202 | The plan follows the decision: the fatal reason, the thread or topic workers, one inline worker on `topics[0]` bounded by the message count, or nothing. Concurrent workers all start at 0, are unbounded, and appear only with an unbounded message count. |
| Orchestrator.PrepareWorkload | main.go:138-153 | The interval is the effective checkpoint interval. The word list panics exactly when the count is not negative and the length is negative. Otherwise it has 1 word for count 0, `count` words for a positive count and none for a negative count, each word of the defaulted length and made of letters. |

## Left out

- The Kafka client is a foreign library: the producer, its produce channel,
  the delivery-event listener and `TopicPartition` (main.go:107-127). A
  message is modelled as its topic and its payload record.
- JSON encoding and decoding are foreign calls (main.go:56, main.go:99). The
  payload is the `TimestampContainer` record itself. The logged marshal
  error is not modelled; `json.Marshal` cannot fail on this record.
- File reading, `os.Args`, `strconv.Atoi` and `time.ParseDuration` are input
  parsing (main.go:88-101, main.go:129-136). Their results are inputs. The
  fatal parse errors of the message count and the delay come before the
  fan-out and are not modelled.
- Goroutines, the checkpoint channel, `readCheckpoints` and the final
  block-forever on an empty channel are concurrency (main.go:43-49,
  main.go:171-197). Starting a worker is modelled as a `Worker` entry in the
  plan.
- `readCheckpoints` computes its rate in floating point and only logs it
  (main.go:47).
- `time.Sleep(delayDuration)` only paces the loop (main.go:74) and is not
  modelled. `time.Duration` saturation in `Sub` is not modelled: elapsed is
  the plain difference of two readings.
- `randomString()` (main.go:31-33) is never called.
- Producer.ProduceMessages: one clock `now` stands for both readings Go
  takes. The timestamp uses the wall clock (`UnixNano()`, main.go:55), and
  the elapsed time uses the monotonic reading that `time.Now().Sub` compares
  (main.go:67). In Go the elapsed time is never negative, even when the
  wall clock steps back. The model proves a non-negative elapsed time only
  for a clock that never goes backwards (`Monotone(now)`).
- Producer.ProduceMessages: an unbounded worker runs for `fuel` iterations
  instead of forever. A bounded worker with start > end, and an unbounded
  worker with an interval below 1, are excluded by its preconditions. In Go
  these loop until the integer wraps around, or never checkpoint.
- Producer.ProduceMessages: its result does not give the exact clock
  reading behind each timestamp. It states only that timestamps never
  decrease and that elapsed times are non-negative.
- Orchestrator.FanOut: a negative thread count would spawn workers without
  end and is excluded by its precondition.
- Payload.DataFunc: `rand.Perm` is an input. The model proves that any
  permutation gives a permutation of the words. Uniform randomness is not
  modelled.
