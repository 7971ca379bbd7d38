/**
 * `process_limits_file` as the source runs it: a loop over the lines that
 * updates the `limlog` dictionary in place, proved against the transition
 * functions of module LimitLog.
 */
module LimitLogProcessor {
  import opened Wrappers
  import opened Text
  import opened LimitLog
  import LimitLogProps

  /** The dictionary and the limit token the loop carries between lines. */
  class ViolationLog {
    var limlog: map<string, Record>
    var lim: Option<string>
    const conv: Converters

    function Snapshot(): Scan
      reads this
    {
      Scan(limlog, lim)
    }

    constructor (conv: Converters)
      ensures Snapshot() == Initial && this.conv == conv
    {
      limlog := map[];
      lim := None;
      this.conv := conv;
    }

    /** Applies one whitespace-split line; `err` is the exception the source would raise. */
    method ProcessLine(words: seq<string>) returns (err: Option<Error>)
      modifies this
      ensures match Step(old(Snapshot()), words, conv)
              case Ok(s) => err.None? && Snapshot() == s
              case Err(e) => err == Some(e) && limlog == old(limlog)
    {
      err := None;
      if |words| == 0 {
        return;
      }
      var tstring := conv.date(words[0]);
      if tstring.None? {
        return Some(BadTimestamp(words[0]));
      }
      if |words| < 3 {
        return Some(MissingToken(2));
      }
      var msid := words[2];
      if |words| < 4 {
        return Some(MissingToken(3));
      }
      var msg := words[3];
      if |words| < 5 {
        return Some(MissingToken(4));
      }
      var currentval := words[4];

      if |words| == 7 {
        lim := Some(words[6]);
      } else if |words| == 6 {
        currentval := MissingValue;
        lim := Some(words[5]);
      }

      if currentval == MissingValue {
        return;
      }

      if msid in limlog {
        var rec := limlog[msid];
        if rec.violation.Some? {
          var next := ContinueEpisode(rec, tstring.value, msg, currentval);
          if next.Err? {
            return Some(next.error);
          }
          limlog := limlog[msid := next.value];
        } else if msg != MsgNominal {
          var first := OpenViolation(tstring.value, msg, currentval);
          if first.Err? {
            return Some(first.error);
          }
          limlog := limlog[msid := rec.(violation := Some(first.value))];
        }
      } else {
        var rec := Record(NotKnown, NotKnown, 0, None, None, None);
        if msg != MsgNominal {
          var first := OpenViolation(tstring.value, msg, currentval);
          if first.Err? {
            return Some(first.error);
          }
          rec := rec.(violation := Some(first.value));
        } else {
          rec := rec.(comment := Some(NominalFirstComment));
        }
        limlog := limlog[msid := rec];
      }
    }

    /** A line on a signal whose first violation is already recorded. */
    method ContinueEpisode(rec: Record, t: string, msg: string, currentval: string) returns (r: Result<Record, Error>)
      requires rec.violation.Some?
      ensures r == Continue(rec, t, msg, currentval, lim, conv)
    {
      var v := rec.violation.value;
      if msg == MsgNominal {
        return Ok(rec.(num := rec.num + 1, endTime := Some(t)));
      } else if Contains(msg, Warning) {
        var x := conv.number(currentval);
        if x.None? {
          return Err(NotANumber(currentval));
        }
        if !v.extent.Numeric? {
          return Err(MissingField("max"));
        }
        var maxval := if x.value > v.extent.max then x.value else v.extent.max;
        var minval := if x.value < v.extent.min then x.value else v.extent.min;
        if lim.None? {
          return Err(UnboundLimit);
        }
        v := v.(worstType := msg, extent := v.extent.(max := maxval, min := minval), limit := Raw(lim.value));
        return Ok(rec.(violation := Some(v)));
      } else if Contains(msg, Caution) {
        var x := conv.number(currentval);
        if x.None? {
          return Err(NotANumber(currentval));
        }
        if !v.extent.Numeric? {
          return Err(MissingField("max"));
        }
        var maxval := if x.value > v.extent.max then x.value else v.extent.max;
        var minval := if x.value < v.extent.min then x.value else v.extent.min;
        if !Contains(v.worstType, Warning) {
          if lim.None? {
            return Err(UnboundLimit);
          }
          v := v.(worstType := msg, limit := Raw(lim.value));
        }
        v := v.(extent := v.extent.(max := maxval, min := minval));
        return Ok(rec.(violation := Some(v)));
      } else {
        if !v.extent.States? {
          return Err(MissingField("statelog"));
        }
        if lim.None? {
          return Err(UnboundLimit);
        }
        v := v.(worstType := msg, limit := Raw(lim.value),
                extent := v.extent.(stateLog := v.extent.stateLog + [currentval]));
        return Ok(rec.(violation := Some(v)));
      }
    }

    /** The fields a first violation sets, read from the current limit token. */
    method OpenViolation(t: string, msg: string, currentval: string) returns (r: Result<Violation, Error>)
      ensures r == Open(t, msg, currentval, lim, conv)
    {
      if msg == MsgOutOfState {
        if lim.None? {
          return Err(UnboundLimit);
        }
        return Ok(Violation(t, msg, Raw(lim.value), States([currentval], currentval)));
      }
      var x := conv.number(currentval);
      if x.None? {
        return Err(NotANumber(currentval));
      }
      if lim.None? {
        return Err(UnboundLimit);
      }
      var l := conv.number(lim.value);
      if l.None? {
        return Err(NotANumber(lim.value));
      }
      return Ok(Violation(t, msg, Parsed(l.value), Numeric(x.value, x.value, x.value)));
    }
  }

  /**
   * Aggregates the lines of a limit-monitor output file in order: the final
   * dictionary, or the first exception, and every record of the dictionary is
   * well formed.
   */
  method ProcessLimitsFile(lines: seq<seq<string>>, conv: Converters) returns (r: Result<map<string, Record>, Error>)
    ensures r == LimLog(lines, conv)
    ensures r.Ok? ==> forall k :: k in r.value ==> LimitLogProps.WellFormed(r.value[k])
  {
    var log := new ViolationLog(conv);
    var i := 0;
    while i < |lines|
      invariant 0 <= i <= |lines|
      invariant log.conv == conv
      invariant Run(Initial, lines, conv) == Run(log.Snapshot(), lines[i..], conv)
      invariant LimitLogProps.Valid(log.Snapshot())
    {
      assert lines[i..][1..] == lines[i + 1..];
      var before := log.Snapshot();
      var err := log.ProcessLine(lines[i]);
      if err.Some? {
        return Err(err.value);
      }
      LimitLogProps.StepValid(before, lines[i], conv);
      i := i + 1;
    }
    return Ok(log.limlog);
  }
}
