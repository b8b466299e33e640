/**
 The status codes that travel between BitDHT nodes while a connection is being
 set up, and the verdict a request takes from them.

 A code is a 32-bit word with three fields that do not overlap: the low 16 bits
 name the type of the error, the next 8 the point that raised it, the top 8 are
 reserved.  It is modelled by its fields, so masking is selecting a field and
 or-ing two codes with disjoint fields is filling both in.
 */
module ConnectCodes {

  datatype Mode = Direct | Proxy | Relay
  datatype Point = UnknownPoint | StartPoint | MidPoint | EndPoint

  datatype ErrorType =
    | NoError | Generic | Protocol | Timeout | TempUnavail | NoAddress | Unreachable | Unsupported
    | Overloaded | AuthDenied | Duplicate | TooManyRetry | OutOfProxy | User | OtherType(bits: nat)

  datatype ErrorSource = NoSource | SourceStart | SourceMid | SourceEnd | OtherSource(bits: nat)

  datatype Code = Code(typ: ErrorType, source: ErrorSource, reserved: nat)

  const OKAY := Code(NoError, NoSource, 0)

  function SourceBits(p: Point): ErrorSource {
    match p
    case StartPoint => SourceStart
    case MidPoint => SourceMid
    case EndPoint => SourceEnd
    case UnknownPoint => NoSource
  }

  /** createConnectionErrorCode: whatever the user answers, only the type gets
      through, a refusal never reads as OKAY, and it names the point that made it. */
  function ErrorCode(user: Code, fallback: ErrorType, point: Point): (c: Code)
    ensures c.typ != NoError && c != OKAY
    ensures c.typ in {user.typ, fallback, Generic}
    ensures user.typ != NoError ==> c.typ == user.typ
    ensures point != UnknownPoint ==> (c.source == SourceEnd <==> point == EndPoint)
  {
    var typ := if user.typ == NoError then fallback else user.typ;
    Code(if typ == NoError then Generic else typ, SourceBits(point), 0)
  }

  function StartError(typ: ErrorType): Code { Code(typ, SourceStart, 0) }

  datatype Verdict = Fatal | Recycle | Next

  /** The switch over error types in callbackConnectRequest.  TempUnavail has no
      break and falls into Duplicate, so it is fatal whatever its source. */
  function Judge(c: Code, mode: Mode): Verdict {
    match c.typ
    case Unreachable => if c.source == SourceEnd && mode == Proxy then Fatal else Next
    case AuthDenied => if c.source == SourceEnd then Fatal else Next
    case Unsupported => if c.source == SourceEnd then Fatal else Next
    case TempUnavail => Fatal
    case Duplicate => Fatal
    case Overloaded => if c.source == SourceMid && mode == Relay then Recycle else Next
    case _ => Next
  }
}
