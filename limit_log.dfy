/**
 * The per-signal violation aggregator of the GRETA limit-monitor output
 * (`process_limits_file`), as pure transition functions.
 *
 * The aggregator reads whitespace-split lines
 *   <timestamp> <unused> <msid> <message> [<value>] <operator> <limit>
 * and keeps a dictionary `limlog` from signal id (msid) to a violation record.
 * Besides the dictionary, the loop carries one more thing from line to line:
 * the limit token `lim`, which is only reassigned by 6- and 7-token lines and
 * is unbound until the first of those.
 *
 * Any exception the source raises ends the whole run; here it is an `Error`.
 */
module LimitLog {
  import opened Wrappers
  import opened Text

  /** Owner and description of every record: the metadata lookup always fails. */
  const NotKnown := "Not Known"
  /** Comment left on a record first seen through a NOMINAL line. */
  const NominalFirstComment := "return to nominal is observed before violation"
  const MsgNominal := "NOMINAL"
  const MsgOutOfState := "OUT-OF-STATE"
  const Warning := "WARNING"
  const Caution := "CAUTION"
  /** Value token of a line whose measured value is missing; such lines are skipped. */
  const MissingValue := "none"

  /**
   * The two external conversions: the timestamp to a calendar date
   * (`DateTime(..., 'greta').date`) and Python's `float()`. None means the
   * conversion raised.
   */
  datatype Converters = Converters(date: string -> Option<string>, number: string -> Option<real>)

  /** The `limit` field: a parsed number when an episode opens on a numeric
    * signal, the raw limit token when it is rewritten later. */
  datatype Limit = Parsed(number: real) | Raw(token: string)

  /** The part of a record that depends on the kind of signal. */
  datatype Extent =
    | Numeric(max: real, min: real, initialValue: real)
    | States(stateLog: seq<string>, initialToken: string)

  /** Fields that appear together when the first violation is seen. */
  datatype Violation = Violation(firstViolation: string, worstType: string, limit: Limit, extent: Extent)

  /** One dictionary entry of `limlog`. */
  datatype Record = Record(
    owner: string,
    description: string,
    num: nat,
    endTime: Option<string>,
    comment: Option<string>,
    violation: Option<Violation>)

  /** What ends a run. */
  datatype Error =
    | BadTimestamp(token: string)   // the timestamp conversion raised
    | MissingToken(index: nat)      // IndexError on words[index]
    | NotANumber(token: string)     // float() raised ValueError
    | UnboundLimit                  // `lim` read before any line assigned it
    | MissingField(field: string)   // KeyError on a record field

  /** The loop's state between two lines. */
  datatype Scan = Scan(limlog: map<string, Record>, lim: Option<string>)

  const Initial := Scan(map[], None)

  function Lookup(m: map<string, Record>, k: string): Option<Record>
  {
    if k in m then Some(m[k]) else None
  }

  /** The limit token after reading `words`: only 6- and 7-token lines assign it. */
  function NextLim(words: seq<string>, lim: Option<string>): Option<string>
  {
    if |words| == 7 then Some(words[6])
    else if |words| == 6 then Some(words[5])
    else lim
  }

  /** The value token: a 6-token line has lost its value. */
  function CurrentValue(words: seq<string>): string
    requires |words| >= 5
  {
    if |words| == 6 then MissingValue else words[4]
  }

  /** `words` reaches the record of signal `k`: it has the five tokens the source
    * reads, names `k`, and its value is not missing. */
  predicate Applies(words: seq<string>, k: string)
  {
    |words| >= 5 && words[2] == k && CurrentValue(words) != MissingValue
  }

  /** A message the open-episode branch treats as out-of-state. */
  predicate IsStateClass(msg: string)
  {
    msg != MsgNominal && !Contains(msg, Warning) && !Contains(msg, Caution)
  }

  /** Fields set when a signal's first violation is seen at time `t`. */
  function Open(t: string, msg: string, val: string, lim: Option<string>, conv: Converters): Result<Violation, Error>
  {
    if msg == MsgOutOfState then
      if lim.None? then Err(UnboundLimit)
      else Ok(Violation(t, msg, Raw(lim.value), States([val], val)))
    else
      match conv.number(val)
      case None => Err(NotANumber(val))
      case Some(x) =>
        if lim.None? then Err(UnboundLimit)
        else
          match conv.number(lim.value)
          case None => Err(NotANumber(lim.value))
          case Some(l) => Ok(Violation(t, msg, Parsed(l), Numeric(x, x, x)))
  }

  /** Numeric extent after observing value `x`. */
  function Widen(e: Extent, x: real): Extent
    requires e.Numeric?
  {
    Numeric(if x > e.max then x else e.max, if x < e.min then x else e.min, e.initialValue)
  }

  /** A line on a record whose first violation is already recorded. */
  function Continue(r: Record, t: string, msg: string, val: string, lim: Option<string>, conv: Converters): Result<Record, Error>
    requires r.violation.Some?
  {
    var v := r.violation.value;
    if msg == MsgNominal then
      Ok(r.(num := r.num + 1, endTime := Some(t)))
    else if Contains(msg, Warning) then
      match conv.number(val)
      case None => Err(NotANumber(val))
      case Some(x) =>
        if !v.extent.Numeric? then Err(MissingField("max"))
        else if lim.None? then Err(UnboundLimit)
        else Ok(r.(violation := Some(v.(worstType := msg, limit := Raw(lim.value), extent := Widen(v.extent, x)))))
    else if Contains(msg, Caution) then
      match conv.number(val)
      case None => Err(NotANumber(val))
      case Some(x) =>
        if !v.extent.Numeric? then Err(MissingField("max"))
        else if Contains(v.worstType, Warning) then
          Ok(r.(violation := Some(v.(extent := Widen(v.extent, x)))))
        else if lim.None? then Err(UnboundLimit)
        else Ok(r.(violation := Some(v.(worstType := msg, limit := Raw(lim.value), extent := Widen(v.extent, x)))))
    else
      if !v.extent.States? then Err(MissingField("statelog"))
      else if lim.None? then Err(UnboundLimit)
      else Ok(r.(violation := Some(v.(worstType := msg, limit := Raw(lim.value),
                                      extent := v.extent.(stateLog := v.extent.stateLog + [val])))))
  }

  /** The record of a signal after one line that reaches it. */
  function Apply(rec: Option<Record>, t: string, msg: string, val: string, lim: Option<string>, conv: Converters): Result<Record, Error>
  {
    match rec
    case None =>
      if msg != MsgNominal then
        match Open(t, msg, val, lim, conv)
        case Err(e) => Err(e)
        case Ok(v) => Ok(Record(NotKnown, NotKnown, 0, None, None, Some(v)))
      else Ok(Record(NotKnown, NotKnown, 0, None, Some(NominalFirstComment), None))
    case Some(r) =>
      if r.violation.Some? then Continue(r, t, msg, val, lim, conv)
      else if msg == MsgNominal then Ok(r)
      else
        match Open(t, msg, val, lim, conv)
        case Err(e) => Err(e)
        case Ok(v) => Ok(r.(violation := Some(v)))
  }

  /** One iteration of the source's loop. */
  function Step(s: Scan, words: seq<string>, conv: Converters): Result<Scan, Error>
  {
    if |words| == 0 then Ok(s)
    else
      match conv.date(words[0])
      case None => Err(BadTimestamp(words[0]))
      case Some(t) =>
        if |words| < 5 then Err(MissingToken(if |words| < 3 then 2 else |words|))
        else
          var lim := NextLim(words, s.lim);
          var val := CurrentValue(words);
          if val == MissingValue then Ok(Scan(s.limlog, lim))
          else
            match Apply(Lookup(s.limlog, words[2]), t, words[3], val, lim, conv)
            case Err(e) => Err(e)
            case Ok(r) => Ok(Scan(s.limlog[words[2] := r], lim))
  }

  /** The whole loop, from state `s`, over `lines` in order. */
  function Run(s: Scan, lines: seq<seq<string>>, conv: Converters): Result<Scan, Error>
    decreases |lines|
  {
    if lines == [] then Ok(s)
    else
      match Step(s, lines[0], conv)
      case Err(e) => Err(e)
      case Ok(s') => Run(s', lines[1..], conv)
  }

  /** What `process_limits_file` returns, or the error it raises. */
  function LimLog(lines: seq<seq<string>>, conv: Converters): Result<map<string, Record>, Error>
  {
    match Run(Initial, lines, conv)
    case Err(e) => Err(e)
    case Ok(s) => Ok(s.limlog)
  }
}
