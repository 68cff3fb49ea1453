/**
 * The configuration file's fields that the core reads, and the defaults
 * `main` applies after parsing it.
 */
module Configuration {

  /** The parsed configuration; the Kafka producer settings are left out. */
  datatype Config = Config(topic: string, topics: seq<string>, checkpointInterval: int,
                           wordCount: int, wordLength: int)

  /** The initial value of the global checkpoint interval. */
  const DefaultCheckpointInterval: int := 1000

  /** The word length used when the configuration gives 0. */
  const DefaultWordLength: int := 1000

  /** The word count used when the configuration gives 0. */
  const DefaultWordCount: int := 1

  /**
   * The global checkpoint interval once the configuration has been read:
   * a nonzero setting replaces the default, a zero one leaves the default.
   */
  function EffectiveCheckpointInterval(c: Config): (interval: int)
    ensures interval != 0
    ensures c.checkpointInterval != 0 ==> interval == c.checkpointInterval
    ensures c.checkpointInterval == 0 ==> interval == DefaultCheckpointInterval
  {
    if c.checkpointInterval != 0 then c.checkpointInterval else DefaultCheckpointInterval
  }

  /**
   * The configuration after the word-length and word-count defaults: a zero
   * field takes its default, any other value (a negative one too) is kept,
   * and nothing else changes.
   */
  function WithWordDefaults(c: Config): (d: Config)
    ensures d.wordLength != 0 && d.wordCount != 0
    ensures c.wordLength != 0 ==> d.wordLength == c.wordLength
    ensures c.wordLength == 0 ==> d.wordLength == DefaultWordLength
    ensures c.wordCount != 0 ==> d.wordCount == c.wordCount
    ensures c.wordCount == 0 ==> d.wordCount == DefaultWordCount
    ensures d.topic == c.topic && d.topics == c.topics && d.checkpointInterval == c.checkpointInterval
  {
    var withLength := if c.wordLength == 0 then c.(wordLength := DefaultWordLength) else c;
    if withLength.wordCount == 0 then withLength.(wordCount := DefaultWordCount) else withLength
  }

  /** Applying the defaults a second time changes nothing. */
  lemma WordDefaultsIdempotent(c: Config)
    ensures WithWordDefaults(WithWordDefaults(c)) == WithWordDefaults(c)
  {
  }

  /**
   * After defaulting, word count and word length are at least 1 exactly
   * when the configured values were not negative.
   */
  lemma WordDefaultsPositive(c: Config)
    ensures WithWordDefaults(c).wordCount >= 1 <==> c.wordCount >= 0
    ensures WithWordDefaults(c).wordLength >= 1 <==> c.wordLength >= 0
  {
  }
}
