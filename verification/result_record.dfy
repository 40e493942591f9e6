/**
 The result record a processed task leaves in the broker: a key derived
 from the task id, a value that tags the outcome as SUCCESS or ERROR, and
 a fixed expiry. Each string construction has a reader that inverts it.
 */
module ResultRecord {
  import opened Results
  import opened Text

  const ResultKeyPrefix := "mcp::result::"
  const SuccessTag := "SUCCESS: "
  const ErrorTag := "ERROR: "

  /** Seconds before the broker discards a result record. */
  const ResultTtl: nat := 3600

  /** The key a task's result is stored under; the id can be read back. */
  function ResultKey(id: string): (key: string)
    ensures IsPrefix(ResultKeyPrefix, key)
    ensures StripPrefix(ResultKeyPrefix, key) == Some(id)
  {
    StripPrefixOfConcat(ResultKeyPrefix, id);
    ResultKeyPrefix + id
  }

  /** The id a result key belongs to, if it is a result key at all. */
  function TaskIdOf(key: string): Option<string> {
    StripPrefix(ResultKeyPrefix, key)
  }

  lemma ResultKeyInverse(id: string, key: string)
    ensures TaskIdOf(key) == Some(id) <==> key == ResultKey(id)
  {
  }

  lemma ResultKeyInjective(id1: string, id2: string)
    ensures ResultKey(id1) == ResultKey(id2) <==> id1 == id2
  {
    if ResultKey(id1) == ResultKey(id2) {
      assert TaskIdOf(ResultKey(id1)) == Some(id1);
    }
  }

  /** `"SUCCESS: " + output` or `"ERROR: " + message`. */
  function ResultValue(outcome: Result<string, string>): (value: string)
    ensures IsPrefix(SuccessTag, value) <==> outcome.Ok?
    ensures IsPrefix(ErrorTag, value) <==> outcome.Err?
  {
    match outcome
    case Ok(output) =>
      StripPrefixOfConcat(SuccessTag, output);
      DistinctHeads(ErrorTag, SuccessTag, SuccessTag + output);
      SuccessTag + output
    case Err(message) =>
      StripPrefixOfConcat(ErrorTag, message);
      DistinctHeads(SuccessTag, ErrorTag, ErrorTag + message);
      ErrorTag + message
  }

  /** What a reader of the record recovers: the outcome, or nothing when
      the value carries neither tag. */
  function ParseResultValue(value: string): (outcome: Option<Result<string, string>>)
    ensures outcome.Some? <==> IsPrefix(SuccessTag, value) || IsPrefix(ErrorTag, value)
    ensures outcome.Some? ==> ResultValue(outcome.value) == value
  {
    match StripPrefix(SuccessTag, value)
    case Some(output) => Some(Ok(output))
    case None =>
      match StripPrefix(ErrorTag, value)
      case Some(message) => Some(Err(message))
      case None => None
  }

  lemma ResultValueRoundTrip(outcome: Result<string, string>)
    ensures ParseResultValue(ResultValue(outcome)) == Some(outcome)
  {
    match outcome
    case Ok(output) =>
      StripPrefixOfConcat(SuccessTag, output);
    case Err(message) =>
      StripPrefixOfConcat(ErrorTag, message);
      DistinctHeads(SuccessTag, ErrorTag, ResultValue(outcome));
  }

  lemma ResultValueInjective(o1: Result<string, string>, o2: Result<string, string>)
    ensures ResultValue(o1) == ResultValue(o2) <==> o1 == o2
  {
    ResultValueRoundTrip(o1);
    ResultValueRoundTrip(o2);
  }
}
