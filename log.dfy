/**
  requests/log.go: the log level of a route, a bit mask over "log the
  parameters" and "log the return value". Go declares `type LogLevel int`;
  the model keeps its 64 bits as a bit-vector so that the source's `&` tests
  read as they are written.
*/
module LogLevels {

  type LogLevel = bv64

  const LogLevelNone: LogLevel := 0
  const LogLevelParam: LogLevel := 1
  const LogLevelReturn: LogLevel := 2
  const LogLevelAll: LogLevel := 3

  /** `level & bit == bit`, the test beforeLog and afterLog apply. */
  predicate HasBit(level: LogLevel, bit: LogLevel) {
    level & bit == bit
  }

  /** A level with exactly one bit set. */
  predicate SingleBit(level: LogLevel) {
    level != 0 && level & (level - 1) == 0
  }

  /** NONE is the empty mask; PARAM and RETURN are two different single
      bits; ALL is their union and so selects both. */
  lemma LogLevelConstants()
    ensures LogLevelNone == 0
    ensures SingleBit(LogLevelParam) && SingleBit(LogLevelReturn)
    ensures LogLevelParam & LogLevelReturn == 0
    ensures LogLevelAll == LogLevelParam | LogLevelReturn
    ensures HasBit(LogLevelAll, LogLevelParam) && HasBit(LogLevelAll, LogLevelReturn)
    ensures !HasBit(LogLevelParam, LogLevelReturn) && !HasBit(LogLevelReturn, LogLevelParam)
  {
  }
}
