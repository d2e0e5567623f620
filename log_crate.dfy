/** The record types of the external `log` crate that the logger consumes:
    the five-valued severity scale and an emitted record. Records are
    immutable inputs produced by call sites elsewhere. */
module LogCrate {

  /** Unsigned 32-bit integer, the type of a record's source line. */
  type U32 = n: nat | n < 0x1_0000_0000

  /** Severity, most urgent first. */
  datatype LogLevel = Error | Warn | Info | Debug | Trace

  /** The discriminant the crate's ordering compares (Error = 1 .. Trace = 5). */
  function Rank(l: LogLevel): nat {
    match l
    case Error => 1
    case Warn => 2
    case Info => 3
    case Debug => 4
    case Trace => 5
  }

  /** `a <= b` on severities: `a` is at least as urgent as `b`. */
  predicate AtMost(a: LogLevel, b: LogLevel) {
    Rank(a) <= Rank(b)
  }

  /** `<=` on severities is a total order with Error least and Trace greatest. */
  lemma AtMostTotalOrder(a: LogLevel, b: LogLevel, c: LogLevel)
    ensures AtMost(a, a)
    ensures AtMost(a, b) && AtMost(b, a) ==> a == b
    ensures AtMost(a, b) && AtMost(b, c) ==> AtMost(a, c)
    ensures AtMost(a, b) || AtMost(b, a)
    ensures AtMost(Error, a) && AtMost(a, Trace)
  {
  }

  /** Where a record was emitted. */
  datatype Location = Location(modulePath: string, file: string, line: U32)

  /** A log record: its severity, its target (a free-text channel name), its
      source location and its already formatted message. */
  datatype Record = Record(level: LogLevel, target: string, location: Location, message: string)
}
