/**
 * What the aggregator promises about each signal's record: the invariants
 * every line keeps, the frame across signals, the set-once first violation,
 * the toggle count, the WARNING-over-CAUTION precedence, the extrema and the
 * append-only state log.
 */
module LimitLogProps {
  import opened Wrappers
  import opened Text
  import opened LimitLog

  // ---------------------------------------------------------------------------
  // Invariants

  /** What holds of every record in `limlog`. */
  ghost predicate WellFormed(r: Record)
  {
    r.owner == NotKnown && r.description == NotKnown &&
    (r.violation.None? ==> r.num == 0 && r.endTime.None? && r.comment == Some(NominalFirstComment)) &&
    (r.violation.Some? ==> ViolationOk(r.violation.value))
  }

  /** A numeric record's initial value lies between its extrema; a state
    * record's log starts with its initial token and it never records a WARNING. */
  ghost predicate ViolationOk(v: Violation)
  {
    v.worstType != MsgNominal &&
    match v.extent
    case Numeric(hi, lo, init) => lo <= init <= hi
    case States(log, init) => |log| >= 1 && log[0] == init && !Contains(v.worstType, Warning)
  }

  /** Every record is well formed, and the limit token is bound as soon as some
    * record has a violation. */
  ghost predicate Valid(s: Scan)
  {
    (forall k :: k in s.limlog ==> WellFormed(s.limlog[k])) &&
    (s.lim.None? ==> forall k :: k in s.limlog ==> s.limlog[k].violation.None?)
  }

  lemma NoWarningInOutOfState()
    ensures !Contains(MsgOutOfState, Warning)
  {
    ContainsFirstChar(MsgOutOfState, Warning);
  }

  /** The fields a first violation sets: the line's time and message, a one-value
    * state log or equal extrema, and so the violation invariant. */
  lemma OpenOk(t: string, msg: string, val: string, lim: Option<string>, conv: Converters)
    requires msg != MsgNominal
    requires Open(t, msg, val, lim, conv).Ok?
    ensures ViolationOk(Open(t, msg, val, lim, conv).value)
    ensures var v := Open(t, msg, val, lim, conv).value;
      v.firstViolation == t && v.worstType == msg &&
      (msg == MsgOutOfState ==> v.extent == States([val], val)) &&
      (msg != MsgOutOfState ==>
        v.extent.Numeric? && v.extent.max == v.extent.initialValue == v.extent.min &&
        conv.number(val) == Some(v.extent.initialValue))
  {
    if msg == MsgOutOfState {
      NoWarningInOutOfState();
    }
  }

  /** A line on an open episode keeps the record well formed. */
  lemma ContinueWellFormed(r: Record, t: string, msg: string, val: string, lim: Option<string>, conv: Converters)
    requires r.violation.Some? && WellFormed(r)
    requires Continue(r, t, msg, val, lim, conv).Ok?
    ensures WellFormed(Continue(r, t, msg, val, lim, conv).value)
  {
  }

  /** A record after one line that reaches it is well formed. */
  lemma ApplyWellFormed(rec: Option<Record>, t: string, msg: string, val: string, lim: Option<string>, conv: Converters)
    requires rec.Some? ==> WellFormed(rec.value)
    requires Apply(rec, t, msg, val, lim, conv).Ok?
    ensures WellFormed(Apply(rec, t, msg, val, lim, conv).value)
  {
    if rec.Some? && rec.value.violation.Some? {
      ContinueWellFormed(rec.value, t, msg, val, lim, conv);
    } else if msg != MsgNominal {
      OpenOk(t, msg, val, lim, conv);
    }
  }

  lemma StepValid(s: Scan, words: seq<string>, conv: Converters)
    requires Valid(s)
    requires Step(s, words, conv).Ok?
    ensures Valid(Step(s, words, conv).value)
  {
    if |words| >= 5 && CurrentValue(words) != MissingValue {
      var t := conv.date(words[0]).value;
      ApplyWellFormed(Lookup(s.limlog, words[2]), t, words[3], CurrentValue(words), NextLim(words, s.lim), conv);
    }
  }

  /** Every record of a completed run is well formed. */
  lemma {:induction false} RunValid(s: Scan, lines: seq<seq<string>>, conv: Converters)
    requires Valid(s)
    requires Run(s, lines, conv).Ok?
    ensures Valid(Run(s, lines, conv).value)
    decreases |lines|
  {
    if lines != [] {
      StepValid(s, lines[0], conv);
      RunValid(Step(s, lines[0], conv).value, lines[1..], conv);
    }
  }

  // ---------------------------------------------------------------------------
  // Skip rule and frame

  /** A blank line, or one whose value is missing, leaves `limlog` as it was
    * (only the limit token may change). */
  lemma StepSkip(s: Scan, words: seq<string>, conv: Converters)
    requires |words| == 0 || (|words| >= 5 && CurrentValue(words) == MissingValue)
    requires |words| > 0 ==> conv.date(words[0]).Some?
    ensures Step(s, words, conv) == Ok(Scan(s.limlog, NextLim(words, s.lim)))
  {
  }

  /** A line changes no record but that of its own signal. */
  lemma StepFrame(s: Scan, words: seq<string>, conv: Converters, k: string)
    requires Step(s, words, conv).Ok?
    requires !Applies(words, k)
    ensures Lookup(Step(s, words, conv).value.limlog, k) == Lookup(s.limlog, k)
  {
  }

  /** Records are never removed, and their owner and description never change. */
  lemma StepKeepsRecords(s: Scan, words: seq<string>, conv: Converters)
    requires Step(s, words, conv).Ok?
    ensures var m := Step(s, words, conv).value.limlog;
      forall k :: k in s.limlog ==>
        k in m && m[k].owner == s.limlog[k].owner && m[k].description == s.limlog[k].description
  {
  }

  /** A signal no line reaches keeps its record (or its absence) through a run. */
  lemma {:induction false} RunFrame(s: Scan, lines: seq<seq<string>>, conv: Converters, k: string)
    requires Run(s, lines, conv).Ok?
    requires forall i :: 0 <= i < |lines| ==> !Applies(lines[i], k)
    ensures Lookup(Run(s, lines, conv).value.limlog, k) == Lookup(s.limlog, k)
    decreases |lines|
  {
    if lines != [] {
      StepFrame(s, lines[0], conv, k);
      RunFrame(Step(s, lines[0], conv).value, lines[1..], conv, k);
    }
  }

  /** Through a run, records are kept with their owner and description. */
  lemma {:induction false} RunKeepsRecords(s: Scan, lines: seq<seq<string>>, conv: Converters)
    requires Run(s, lines, conv).Ok?
    ensures var m := Run(s, lines, conv).value.limlog;
      forall k :: k in s.limlog ==>
        k in m && m[k].owner == s.limlog[k].owner && m[k].description == s.limlog[k].description
    decreases |lines|
  {
    if lines != [] {
      StepKeepsRecords(s, lines[0], conv);
      RunKeepsRecords(Step(s, lines[0], conv).value, lines[1..], conv);
    }
  }

  // ---------------------------------------------------------------------------
  // First violation

  /** A NOMINAL line on a record that has no violation yet changes nothing. */
  lemma StepNominalBeforeViolation(s: Scan, words: seq<string>, conv: Converters)
    requires |words| >= 5 && words[3] == MsgNominal && CurrentValue(words) != MissingValue
    requires conv.date(words[0]).Some?
    requires words[2] in s.limlog && s.limlog[words[2]].violation.None?
    ensures Step(s, words, conv) == Ok(Scan(s.limlog, NextLim(words, s.lim)))
  {
    assert s.limlog[words[2] := s.limlog[words[2]]] == s.limlog;
  }

  /** A NOMINAL line for an unseen signal creates a bare record with a comment. */
  lemma StepNominalCreates(s: Scan, words: seq<string>, conv: Converters)
    requires |words| >= 5 && words[3] == MsgNominal && CurrentValue(words) != MissingValue
    requires conv.date(words[0]).Some?
    requires words[2] !in s.limlog
    ensures Step(s, words, conv) ==
      Ok(Scan(s.limlog[words[2] := Record(NotKnown, NotKnown, 0, None, Some(NominalFirstComment), None)],
              NextLim(words, s.lim)))
  {
  }

  /** The first non-NOMINAL line of a signal opens its episode: it sets the first
    * violation time and worst type, and the kind-specific fields. */
  lemma StepOpensEpisode(s: Scan, words: seq<string>, conv: Converters, k: string)
    requires Applies(words, k) && words[3] != MsgNominal
    requires k !in s.limlog || s.limlog[k].violation.None?
    requires Step(s, words, conv).Ok?
    ensures var m := Step(s, words, conv).value.limlog;
      var lim := NextLim(words, s.lim);
      k in m && m[k].violation.Some? &&
      Some(m[k].violation.value.firstViolation) == conv.date(words[0]) &&
      m[k].violation.value.worstType == words[3] &&
      m[k].num == (if k in s.limlog then s.limlog[k].num else 0) &&
      lim.Some? &&
      (words[3] == MsgOutOfState ==>
        m[k].violation.value.extent == States([words[4]], words[4]) &&
        m[k].violation.value.limit == Raw(lim.value)) &&
      (words[3] != MsgOutOfState ==>
        m[k].violation.value.extent.Numeric? &&
        conv.number(words[4]) == Some(m[k].violation.value.extent.initialValue) &&
        m[k].violation.value.extent.max == m[k].violation.value.extent.initialValue &&
        m[k].violation.value.extent.min == m[k].violation.value.extent.initialValue &&
        m[k].violation.value.limit.Parsed? &&
        conv.number(lim.value) == Some(m[k].violation.value.limit.number))
  {
  }

  /** Once set, the first violation time is kept by every later line. */
  lemma StepKeepsFirstViolation(s: Scan, words: seq<string>, conv: Converters, k: string)
    requires k in s.limlog && s.limlog[k].violation.Some?
    requires Step(s, words, conv).Ok?
    ensures var m := Step(s, words, conv).value.limlog;
      k in m && m[k].violation.Some? &&
      m[k].violation.value.firstViolation == s.limlog[k].violation.value.firstViolation
  {
  }

  lemma {:induction false} RunKeepsFirstViolation(s: Scan, lines: seq<seq<string>>, conv: Converters, k: string)
    requires k in s.limlog && s.limlog[k].violation.Some?
    requires Run(s, lines, conv).Ok?
    ensures var m := Run(s, lines, conv).value.limlog;
      k in m && m[k].violation.Some? &&
      m[k].violation.value.firstViolation == s.limlog[k].violation.value.firstViolation
    decreases |lines|
  {
    if lines != [] {
      StepKeepsFirstViolation(s, lines[0], conv, k);
      RunKeepsFirstViolation(Step(s, lines[0], conv).value, lines[1..], conv, k);
    }
  }

  /** NOMINAL lines that reach signal `k`. */
  function NominalCount(lines: seq<seq<string>>, k: string): nat
  {
    if lines == [] then 0
    else (if Applies(lines[0], k) && lines[0][3] == MsgNominal then 1 else 0) + NominalCount(lines[1..], k)
  }

  /** Without a non-NOMINAL line for `k`, the signal's record never gets a violation. */
  lemma {:induction false} RunWithoutViolationLine(s: Scan, lines: seq<seq<string>>, conv: Converters, k: string)
    requires k !in s.limlog || s.limlog[k].violation.None?
    requires forall j :: 0 <= j < |lines| && Applies(lines[j], k) ==> lines[j][3] == MsgNominal
    requires Run(s, lines, conv).Ok?
    ensures var m := Run(s, lines, conv).value.limlog;
      k in m ==> m[k].violation.None?
    decreases |lines|
  {
    if lines != [] {
      RunWithoutViolationLine(Step(s, lines[0], conv).value, lines[1..], conv, k);
    }
  }

  /**
   * The first violation time of a signal is the time of its first non-NOMINAL
   * line, and its toggle count is the number of its NOMINAL lines after that one.
   */
  lemma {:induction false} RunFirstViolation(s: Scan, lines: seq<seq<string>>, conv: Converters, k: string, i: nat)
    requires Valid(s)
    requires k !in s.limlog || s.limlog[k].violation.None?
    requires i < |lines| && Applies(lines[i], k) && lines[i][3] != MsgNominal
    requires forall j :: 0 <= j < i && Applies(lines[j], k) ==> lines[j][3] == MsgNominal
    requires Run(s, lines, conv).Ok?
    ensures var m := Run(s, lines, conv).value.limlog;
      k in m && m[k].violation.Some? &&
      Some(m[k].violation.value.firstViolation) == conv.date(lines[i][0]) &&
      m[k].num == NominalCount(lines[i + 1..], k)
    decreases i
  {
    var s1 := Step(s, lines[0], conv).value;
    StepValid(s, lines[0], conv);
    if i == 0 {
      StepOpensEpisode(s, lines[0], conv, k);
      RunKeepsFirstViolation(s1, lines[1..], conv, k);
      RunToggleCount(s1, lines[1..], conv, k);
    } else {
      assert lines[1..][i - 1] == lines[i];
      assert lines[1..][i - 1 + 1..] == lines[i + 1..];
      RunFirstViolation(s1, lines[1..], conv, k, i - 1);
    }
  }

  // ---------------------------------------------------------------------------
  // Toggle count and end time

  /** Time of the last NOMINAL line that reaches signal `k`, if any. */
  function LastNominalTime(lines: seq<seq<string>>, k: string, conv: Converters): Option<string>
  {
    if lines == [] then None
    else
      match LastNominalTime(lines[1..], k, conv)
      case Some(t) => Some(t)
      case None =>
        if Applies(lines[0], k) && lines[0][3] == MsgNominal then conv.date(lines[0][0]) else None
  }

  /** Once an episode is open, every NOMINAL line counts one toggle and moves the end time. */
  lemma StepToggle(s: Scan, words: seq<string>, conv: Converters, k: string)
    requires k in s.limlog && s.limlog[k].violation.Some?
    requires Applies(words, k) && words[3] == MsgNominal
    requires conv.date(words[0]).Some?
    ensures Step(s, words, conv).Ok?
    ensures var m := Step(s, words, conv).value.limlog;
      k in m && m[k].num == s.limlog[k].num + 1 && m[k].endTime == conv.date(words[0]) &&
      m[k].violation == s.limlog[k].violation
  {
  }

  /** Over a run, an open episode's toggle count grows by exactly the number of
    * NOMINAL lines for the signal, and its end time is the last one's time. */
  lemma {:induction false} RunToggleCount(s: Scan, lines: seq<seq<string>>, conv: Converters, k: string)
    requires k in s.limlog && s.limlog[k].violation.Some?
    requires Run(s, lines, conv).Ok?
    ensures var m := Run(s, lines, conv).value.limlog;
      k in m && m[k].num == s.limlog[k].num + NominalCount(lines, k) &&
      m[k].endTime == (if LastNominalTime(lines, k, conv).Some? then LastNominalTime(lines, k, conv)
                       else s.limlog[k].endTime)
    decreases |lines|
  {
    if lines != [] {
      var s1 := Step(s, lines[0], conv).value;
      StepKeepsFirstViolation(s, lines[0], conv, k);
      RunToggleCount(s1, lines[1..], conv, k);
    }
  }

  // ---------------------------------------------------------------------------
  // Severity precedence

  /** A WARNING line on an open episode always overwrites worst type and limit. */
  lemma StepWarningOverwrites(s: Scan, words: seq<string>, conv: Converters, k: string)
    requires k in s.limlog && s.limlog[k].violation.Some?
    requires Applies(words, k) && words[3] != MsgNominal && Contains(words[3], Warning)
    requires Step(s, words, conv).Ok?
    ensures var m := Step(s, words, conv).value.limlog;
      var lim := NextLim(words, s.lim);
      k in m && m[k].violation.Some? && lim.Some? &&
      m[k].violation.value.worstType == words[3] &&
      m[k].violation.value.limit == Raw(lim.value)
  {
  }

  /** A CAUTION line never replaces a recorded WARNING, nor its limit. */
  lemma StepCautionKeepsWarning(s: Scan, words: seq<string>, conv: Converters, k: string)
    requires k in s.limlog && s.limlog[k].violation.Some?
    requires Contains(s.limlog[k].violation.value.worstType, Warning)
    requires Applies(words, k) && !Contains(words[3], Warning) && Contains(words[3], Caution)
    requires Step(s, words, conv).Ok?
    ensures var m := Step(s, words, conv).value.limlog;
      k in m && m[k].violation.Some? &&
      m[k].violation.value.worstType == s.limlog[k].violation.value.worstType &&
      m[k].violation.value.limit == s.limlog[k].violation.value.limit
  {
    ContainsFirstChar(MsgNominal, Caution);
  }

  /** A CAUTION line on an open episode whose worst type is not a WARNING
    * overwrites the worst type and the limit; the toggles and end time stay. */
  lemma StepCautionOverwrites(s: Scan, words: seq<string>, conv: Converters, k: string)
    requires k in s.limlog && s.limlog[k].violation.Some?
    requires !Contains(s.limlog[k].violation.value.worstType, Warning)
    requires Applies(words, k) && !Contains(words[3], Warning) && Contains(words[3], Caution)
    requires Step(s, words, conv).Ok?
    ensures var m := Step(s, words, conv).value.limlog;
      var lim := NextLim(words, s.lim);
      k in m && m[k].violation.Some? && lim.Some? &&
      m[k].violation.value.worstType == words[3] &&
      m[k].violation.value.limit == Raw(lim.value) &&
      m[k].num == s.limlog[k].num && m[k].endTime == s.limlog[k].endTime
  {
    ContainsFirstChar(MsgNominal, Caution);
  }

  /** An out-of-state-class line on an open episode always overwrites the worst
    * type and the limit, and appends its value to the state log. */
  lemma StepStateClassOverwrites(s: Scan, words: seq<string>, conv: Converters, k: string)
    requires k in s.limlog && s.limlog[k].violation.Some?
    requires Applies(words, k) && IsStateClass(words[3])
    requires Step(s, words, conv).Ok?
    ensures var m := Step(s, words, conv).value.limlog;
      var lim := NextLim(words, s.lim);
      var e := s.limlog[k].violation.value.extent;
      k in m && m[k].violation.Some? && lim.Some? && e.States? &&
      m[k].violation.value.worstType == words[3] &&
      m[k].violation.value.limit == Raw(lim.value) &&
      m[k].violation.value.extent == States(e.stateLog + [words[4]], e.initialToken) &&
      m[k].num == s.limlog[k].num && m[k].endTime == s.limlog[k].endTime
  {
  }

  /** Once a signal's worst type is a WARNING, it stays a WARNING for the rest of the run. */
  lemma {:induction false} RunWarningPersists(s: Scan, lines: seq<seq<string>>, conv: Converters, k: string)
    requires Valid(s)
    requires k in s.limlog && s.limlog[k].violation.Some?
    requires Contains(s.limlog[k].violation.value.worstType, Warning)
    requires Run(s, lines, conv).Ok?
    ensures var m := Run(s, lines, conv).value.limlog;
      k in m && m[k].violation.Some? && Contains(m[k].violation.value.worstType, Warning)
    decreases |lines|
  {
    if lines != [] {
      StepValid(s, lines[0], conv);
      RunWarningPersists(Step(s, lines[0], conv).value, lines[1..], conv, k);
    }
  }

  // ---------------------------------------------------------------------------
  // Extrema of numeric signals

  /** On a numeric record, the maximum never decreases, the minimum never
    * increases and the initial value stays. */
  lemma StepExtremaMonotone(s: Scan, words: seq<string>, conv: Converters, k: string)
    requires k in s.limlog && s.limlog[k].violation.Some? && s.limlog[k].violation.value.extent.Numeric?
    requires Step(s, words, conv).Ok?
    ensures var m := Step(s, words, conv).value.limlog;
      var e := s.limlog[k].violation.value.extent;
      k in m && m[k].violation.Some? && m[k].violation.value.extent.Numeric? &&
      m[k].violation.value.extent.max >= e.max && m[k].violation.value.extent.min <= e.min &&
      m[k].violation.value.extent.initialValue == e.initialValue
  {
  }

  lemma {:induction false} RunExtremaMonotone(s: Scan, lines: seq<seq<string>>, conv: Converters, k: string)
    requires k in s.limlog && s.limlog[k].violation.Some? && s.limlog[k].violation.value.extent.Numeric?
    requires Run(s, lines, conv).Ok?
    ensures var m := Run(s, lines, conv).value.limlog;
      var e := s.limlog[k].violation.value.extent;
      k in m && m[k].violation.Some? && m[k].violation.value.extent.Numeric? &&
      m[k].violation.value.extent.max >= e.max && m[k].violation.value.extent.min <= e.min &&
      m[k].violation.value.extent.initialValue == e.initialValue
    decreases |lines|
  {
    if lines != [] {
      StepExtremaMonotone(s, lines[0], conv, k);
      RunExtremaMonotone(Step(s, lines[0], conv).value, lines[1..], conv, k);
    }
  }

  /** After a non-NOMINAL line that leaves its signal numeric, the line's value
    * lies between the record's minimum and maximum. */
  lemma StepValueInBounds(s: Scan, words: seq<string>, conv: Converters, k: string)
    requires Applies(words, k) && words[3] != MsgNominal
    requires Step(s, words, conv).Ok?
    ensures var m := Step(s, words, conv).value.limlog;
      k in m && m[k].violation.Some? &&
      (m[k].violation.value.extent.Numeric? ==>
        conv.number(words[4]).Some? &&
        m[k].violation.value.extent.min <= conv.number(words[4]).value <= m[k].violation.value.extent.max)
  {
  }

  /** Every value a non-NOMINAL line reported for a numeric signal lies between
    * the signal's final minimum and maximum. */
  lemma {:induction false} RunObservedInBounds(s: Scan, lines: seq<seq<string>>, conv: Converters, k: string, i: nat)
    requires i < |lines| && Applies(lines[i], k) && lines[i][3] != MsgNominal
    requires Run(s, lines, conv).Ok?
    ensures var m := Run(s, lines, conv).value.limlog;
      k in m && m[k].violation.Some? &&
      (m[k].violation.value.extent.Numeric? ==>
        conv.number(lines[i][4]).Some? &&
        m[k].violation.value.extent.min <= conv.number(lines[i][4]).value <= m[k].violation.value.extent.max)
    decreases i
  {
    var s1 := Step(s, lines[0], conv).value;
    if i == 0 {
      StepValueInBounds(s, lines[0], conv, k);
      var e := s1.limlog[k].violation.value.extent;
      if e.Numeric? {
        RunExtremaMonotone(s1, lines[1..], conv, k);
      } else {
        RunStateLog(s1, lines[1..], conv, k);
      }
    } else {
      assert lines[1..][i - 1] == lines[i];
      RunObservedInBounds(s1, lines[1..], conv, k, i - 1);
    }
  }

  /** Line `i` is not NOMINAL, reaches signal `k` and reports the value `x`. */
  ghost predicate Reports(lines: seq<seq<string>>, k: string, conv: Converters, i: int, x: real)
  {
    0 <= i < |lines| && Applies(lines[i], k) && lines[i][3] != MsgNominal && conv.number(lines[i][4]) == Some(x)
  }

  /** Signal `k` has an open episode on a numeric record. */
  ghost predicate NumericOpen(s: Scan, k: string)
  {
    k in s.limlog && s.limlog[k].violation.Some? && s.limlog[k].violation.value.extent.Numeric?
  }

  /** After a line, a numeric record's maximum and minimum are each either the
    * line's own value or what they were before. */
  lemma StepExtremaAttained(s: Scan, words: seq<string>, conv: Converters, k: string)
    requires Step(s, words, conv).Ok?
    ensures var s' := Step(s, words, conv).value;
      NumericOpen(s', k) ==>
        var hi := s'.limlog[k].violation.value.extent.max;
        Reports([words], k, conv, 0, hi) || (NumericOpen(s, k) && hi == s.limlog[k].violation.value.extent.max)
    ensures var s' := Step(s, words, conv).value;
      NumericOpen(s', k) ==>
        var lo := s'.limlog[k].violation.value.extent.min;
        Reports([words], k, conv, 0, lo) || (NumericOpen(s, k) && lo == s.limlog[k].violation.value.extent.min)
  {
  }

  /** Over a run, a numeric record's maximum and minimum are each either a value
    * some line reported for the signal or what they were at the start. */
  lemma {:induction false} RunExtremaAttained(s: Scan, lines: seq<seq<string>>, conv: Converters, k: string)
    requires Run(s, lines, conv).Ok?
    ensures var s' := Run(s, lines, conv).value;
      NumericOpen(s', k) ==>
        var hi := s'.limlog[k].violation.value.extent.max;
        (exists i :: Reports(lines, k, conv, i, hi)) || (NumericOpen(s, k) && hi == s.limlog[k].violation.value.extent.max)
    ensures var s' := Run(s, lines, conv).value;
      NumericOpen(s', k) ==>
        var lo := s'.limlog[k].violation.value.extent.min;
        (exists i :: Reports(lines, k, conv, i, lo)) || (NumericOpen(s, k) && lo == s.limlog[k].violation.value.extent.min)
    decreases |lines|
  {
    if lines != [] {
      var s1 := Step(s, lines[0], conv).value;
      var s' := Run(s, lines, conv).value;
      assert s' == Run(s1, lines[1..], conv).value;
      StepExtremaAttained(s, lines[0], conv, k);
      RunExtremaAttained(s1, lines[1..], conv, k);
      if NumericOpen(s', k) {
        var e' := s'.limlog[k].violation.value.extent;
        forall x, i | Reports(lines[1..], k, conv, i, x)
          ensures Reports(lines, k, conv, i + 1, x)
        {
          assert lines[1..][i] == lines[i + 1];
        }
        if Reports([lines[0]], k, conv, 0, e'.max) {
          assert Reports(lines, k, conv, 0, e'.max);
        }
        if Reports([lines[0]], k, conv, 0, e'.min) {
          assert Reports(lines, k, conv, 0, e'.min);
        }
      }
    }
  }

  /**
   * The maximum and minimum of a signal that ends numeric are the largest and
   * smallest values its non-NOMINAL lines reported: each is reported by some
   * line, and every reported value lies between them.
   */
  lemma LimLogExtrema(lines: seq<seq<string>>, conv: Converters, k: string)
    requires LimLog(lines, conv).Ok?
    ensures var m := LimLog(lines, conv).value;
      k in m && m[k].violation.Some? && m[k].violation.value.extent.Numeric? ==>
        var e := m[k].violation.value.extent;
        (exists i :: Reports(lines, k, conv, i, e.max)) &&
        (exists i :: Reports(lines, k, conv, i, e.min)) &&
        forall i :: 0 <= i < |lines| && Applies(lines[i], k) && lines[i][3] != MsgNominal ==>
          conv.number(lines[i][4]).Some? && e.min <= conv.number(lines[i][4]).value <= e.max
  {
    RunExtremaAttained(Initial, lines, conv, k);
    forall i | 0 <= i < |lines| && Applies(lines[i], k) && lines[i][3] != MsgNominal
      ensures var m := LimLog(lines, conv).value;
        k in m && m[k].violation.Some? &&
        (m[k].violation.value.extent.Numeric? ==>
          conv.number(lines[i][4]).Some? &&
          m[k].violation.value.extent.min <= conv.number(lines[i][4]).value <= m[k].violation.value.extent.max)
    {
      RunObservedInBounds(Initial, lines, conv, k, i);
    }
  }

  // ---------------------------------------------------------------------------
  // State log of out-of-state signals

  /** Values of the out-of-state-class lines that reach signal `k`, in order. */
  function StateValues(lines: seq<seq<string>>, k: string): seq<string>
  {
    if lines == [] then []
    else (if Applies(lines[0], k) && IsStateClass(lines[0][3]) then [lines[0][4]] else []) + StateValues(lines[1..], k)
  }

  /** The state log only grows at its end, by the value of each out-of-state-class
    * line for the signal; the initial token stays. */
  lemma {:induction false} RunStateLog(s: Scan, lines: seq<seq<string>>, conv: Converters, k: string)
    requires k in s.limlog && s.limlog[k].violation.Some? && s.limlog[k].violation.value.extent.States?
    requires Run(s, lines, conv).Ok?
    ensures var m := Run(s, lines, conv).value.limlog;
      var e := s.limlog[k].violation.value.extent;
      k in m && m[k].violation.Some? &&
      m[k].violation.value.extent == States(e.stateLog + StateValues(lines, k), e.initialToken)
    decreases |lines|
  {
    if lines != [] {
      var s1 := Step(s, lines[0], conv).value;
      var e := s.limlog[k].violation.value.extent;
      var head := if Applies(lines[0], k) && IsStateClass(lines[0][3]) then [lines[0][4]] else [];
      assert s1.limlog[k].violation.value.extent == States(e.stateLog + head, e.initialToken);
      RunStateLog(s1, lines[1..], conv, k);
      AppendAssoc(e.stateLog, head, StateValues(lines[1..], k));
    }
  }

  // ---------------------------------------------------------------------------
  // Worked examples

  /** A first NOMINAL line creates a bare record: no violation, no toggles, a comment. */
  lemma NominalFirstExample(conv: Converters)
    requires conv.date("t1") == Some("d1")
    ensures LimLog([["t1", "0", "S1", "NOMINAL", "5", ">", "10"]], conv)
         == Ok(map["S1" := Record(NotKnown, NotKnown, 0, None, Some(NominalFirstComment), None)])
  {
  }

  /** A WARNING then a NOMINAL: one toggle, the end time is the NOMINAL line's. */
  lemma WarningThenNominalExample(conv: Converters)
    requires conv.date("t1") == Some("d1") && conv.date("t2") == Some("d2")
    requires conv.number("12") == Some(12.0) && conv.number("10") == Some(10.0)
    ensures LimLog([["t1", "0", "S1", "WARNING-HIGH", "12", ">", "10"],
                    ["t2", "0", "S1", "NOMINAL", "5", ">", "10"]], conv)
         == Ok(map["S1" := Record(NotKnown, NotKnown, 1, Some("d2"), None,
                                  Some(Violation("d1", "WARNING-HIGH", Parsed(10.0), Numeric(12.0, 12.0, 12.0))))])
  {
    var l1 := ["t1", "0", "S1", "WARNING-HIGH", "12", ">", "10"];
    var l2 := ["t2", "0", "S1", "NOMINAL", "5", ">", "10"];
    var r1 := Record(NotKnown, NotKnown, 0, None, None,
                     Some(Violation("d1", "WARNING-HIGH", Parsed(10.0), Numeric(12.0, 12.0, 12.0))));
    var s1 := Scan(map["S1" := r1], Some("10"));
    var s2 := Scan(map["S1" := r1.(num := 1, endTime := Some("d2"))], Some("10"));
    assert Step(Initial, l1, conv) == Ok(s1);
    assert Continue(r1, "d2", l2[3], l2[4], Some("10"), conv) == Ok(r1.(num := 1, endTime := Some("d2")));
    assert s1.limlog["S1" := r1.(num := 1, endTime := Some("d2"))] == s2.limlog;
    assert Step(s1, l2, conv) == Ok(s2);
    assert [l1, l2][1..] == [l2];
    assert Run(s1, [l2], conv) == Run(s2, [], conv);
  }

  /** CAUTION, WARNING, CAUTION: the WARNING stays the worst type, the extrema cover all three values. */
  lemma CautionWarningCautionExample(conv: Converters)
    requires conv.date("t1") == Some("d1") && conv.date("t2") == Some("d2") && conv.date("t3") == Some("d3")
    requires conv.number("11") == Some(11.0) && conv.number("13") == Some(13.0)
    requires conv.number("9") == Some(9.0) && conv.number("10") == Some(10.0)
    ensures LimLog([["t1", "0", "S1", "CAUTION-HIGH", "11", ">", "10"],
                    ["t2", "0", "S1", "WARNING-HIGH", "13", ">", "10"],
                    ["t3", "0", "S1", "CAUTION-HIGH", "9", ">", "10"]], conv)
         == Ok(map["S1" := Record(NotKnown, NotKnown, 0, None, None,
                                  Some(Violation("d1", "WARNING-HIGH", Raw("10"), Numeric(13.0, 9.0, 11.0))))])
  {
    var l1 := ["t1", "0", "S1", "CAUTION-HIGH", "11", ">", "10"];
    var l2 := ["t2", "0", "S1", "WARNING-HIGH", "13", ">", "10"];
    var l3 := ["t3", "0", "S1", "CAUTION-HIGH", "9", ">", "10"];
    var r1 := Record(NotKnown, NotKnown, 0, None, None,
                     Some(Violation("d1", "CAUTION-HIGH", Parsed(10.0), Numeric(11.0, 11.0, 11.0))));
    var r2 := r1.(violation := Some(Violation("d1", "WARNING-HIGH", Raw("10"), Numeric(13.0, 11.0, 11.0))));
    var r3 := r1.(violation := Some(Violation("d1", "WARNING-HIGH", Raw("10"), Numeric(13.0, 9.0, 11.0))));
    assert Open("d1", l1[3], l1[4], Some("10"), conv) == Ok(r1.violation.value);
    WarningAfterCaution(r1, conv);
    CautionAfterWarning(r2, conv);
    ThreeLineRun(l1, l2, l3, r1, r2, r3, conv);
  }

  /** The WARNING-HIGH line of the example above, on the record the CAUTION-HIGH line opened. */
  lemma WarningAfterCaution(r1: Record, conv: Converters)
    requires conv.number("13") == Some(13.0)
    requires r1 == Record(NotKnown, NotKnown, 0, None, None,
                          Some(Violation("d1", "CAUTION-HIGH", Parsed(10.0), Numeric(11.0, 11.0, 11.0))))
    ensures Continue(r1, "d2", "WARNING-HIGH", "13", Some("10"), conv)
         == Ok(r1.(violation := Some(Violation("d1", "WARNING-HIGH", Raw("10"), Numeric(13.0, 11.0, 11.0)))))
  {
    WarningHighIsWarning();
  }

  /** The last CAUTION-HIGH line of the example above, on the WARNING record. */
  lemma CautionAfterWarning(r2: Record, conv: Converters)
    requires conv.number("9") == Some(9.0)
    requires r2.violation == Some(Violation("d1", "WARNING-HIGH", Raw("10"), Numeric(13.0, 11.0, 11.0)))
    ensures Continue(r2, "d3", "CAUTION-HIGH", "9", Some("10"), conv)
         == Ok(r2.(violation := Some(Violation("d1", "WARNING-HIGH", Raw("10"), Numeric(13.0, 9.0, 11.0)))))
  {
    CautionHighIsNotWarning();
    WarningHighIsWarning();
    CautionHighIsCaution();
  }

  lemma WarningHighIsWarning()
    ensures Contains("WARNING-HIGH", Warning)
  {
    assert "WARNING-HIGH"[..7] == Warning;
  }

  lemma CautionHighIsNotWarning()
    ensures !Contains("CAUTION-HIGH", Warning)
  {
    ContainsFirstChar("CAUTION-HIGH", Warning);
  }

  lemma CautionHighIsCaution()
    ensures Contains("CAUTION-HIGH", Caution)
  {
    assert "CAUTION-HIGH"[..7] == Caution;
  }

  /** Three 7-token lines for one signal, each giving the record the next value. */
  lemma ThreeLineRun(l1: seq<string>, l2: seq<string>, l3: seq<string>, r1: Record, r2: Record, r3: Record, conv: Converters)
    requires |l1| == 7 && |l2| == 7 && |l3| == 7
    requires l1[2] == l2[2] == l3[2] && l1[3] != MsgNominal && l1[6] == l2[6] == l3[6]
    requires l1[4] != MissingValue && l2[4] != MissingValue && l3[4] != MissingValue
    requires conv.date(l1[0]).Some? && conv.date(l2[0]).Some? && conv.date(l3[0]).Some?
    requires r1.violation.Some? && r2.violation.Some?
    requires Open(conv.date(l1[0]).value, l1[3], l1[4], Some(l1[6]), conv) == Ok(r1.violation.value)
    requires r1 == Record(NotKnown, NotKnown, 0, None, None, r1.violation)
    requires Continue(r1, conv.date(l2[0]).value, l2[3], l2[4], Some(l1[6]), conv) == Ok(r2)
    requires Continue(r2, conv.date(l3[0]).value, l3[3], l3[4], Some(l1[6]), conv) == Ok(r3)
    ensures LimLog([l1, l2, l3], conv) == Ok(map[l1[2] := r3])
  {
    var k := l1[2];
    var s1 := Scan(map[k := r1], Some(l1[6]));
    var s2 := Scan(map[k := r2], Some(l1[6]));
    var s3 := Scan(map[k := r3], Some(l1[6]));
    assert Step(Initial, l1, conv) == Ok(s1);
    assert s1.limlog[k := r2] == s2.limlog;
    assert Step(s1, l2, conv) == Ok(s2);
    assert s2.limlog[k := r3] == s3.limlog;
    assert Step(s2, l3, conv) == Ok(s3);
    assert [l1, l2, l3][1..] == [l2, l3];
    assert [l2, l3][1..] == [l3];
    assert Run(s2, [l3], conv) == Run(s3, [], conv);
    assert Run(s1, [l2, l3], conv) == Run(s2, [l3], conv);
    assert Run(Initial, [l1, l2, l3], conv) == Run(s1, [l2, l3], conv);
  }

  /** A 6-token line has lost its value and creates no record. */
  lemma MissingValueExample(conv: Converters)
    requires conv.date("t1") == Some("d1")
    ensures LimLog([["t1", "0", "S1", "WARNING-HIGH", ">", "10"]], conv) == Ok(map[])
  {
  }

  /** A 5-token line does not reassign the limit token: an OUT-OF-STATE line of
    * that shape takes the limit of the previous line, here another signal's. */
  lemma LimitCarriesAcrossSignalsExample(conv: Converters)
    requires conv.date("t1") == Some("d1") && conv.date("t2") == Some("d2")
    ensures var r := LimLog([["t1", "0", "S1", "NOMINAL", "5", ">", "10"],
                             ["t2", "0", "S2", "OUT-OF-STATE", "ENAB"]], conv);
      r.Ok? && "S2" in r.value && r.value["S2"].violation.Some? &&
      r.value["S2"].violation.value.limit == Raw("10") &&
      r.value["S2"].violation.value.extent == States(["ENAB"], "ENAB")
  {
    var l1 := ["t1", "0", "S1", "NOMINAL", "5", ">", "10"];
    var l2 := ["t2", "0", "S2", "OUT-OF-STATE", "ENAB"];
    var s1 := Scan(map["S1" := Record(NotKnown, NotKnown, 0, None, Some(NominalFirstComment), None)], Some("10"));
    assert Step(Initial, l1, conv) == Ok(s1);
    assert [l1, l2][1..] == [l2];
    assert Run(Initial, [l1, l2], conv) == Run(s1, [l2], conv);
  }
}
