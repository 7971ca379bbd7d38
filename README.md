# GRETA limit-violation aggregator, in Dafny

This project models the core of `gretafun`: `process_limits_file`, which reads the
output of the GRETA limit monitor line by line and keeps one violation record per
telemetry signal (msid). It also models the keyword dispatch of `read_glimmon`, which
reads a G_LIMMON.dec limit specification into a dictionary.

A log line is split on whitespace:

    <timestamp> <unused> <msid> <message> [<value>] <operator> <limit>

Each line updates the record of its own msid. The record goes through a small state
machine:

- **Creation.** The first line for an msid creates its record. The owner and
  description are always "Not Known", because the metadata lookup always fails.
- **First violation.** A NOMINAL line on a record without a violation changes
  nothing. The first other line sets `firstViolation` and `worstType`. An
  `OUT-OF-STATE` line also starts the state log with its value. Any other message
  parses the value and the limit with `float()` and sets min, max and the initial
  value.
- **Open episode.** After that, a NOMINAL line adds one toggle and moves `endTime`.
  A WARNING line overwrites the worst type and the limit, and widens min/max.
  A CAUTION line widens min/max, but it overwrites the worst type and the limit
  only when the worst type is not already a WARNING. Any other message appends
  its value to the state log.
- **Skipped lines.** A line whose value is `none` is skipped. A 6-token line has
  lost its value, so it is always skipped.
- **Errors.** Mixing numeric and state lines on one signal raises KeyError on `max`
  or `statelog`. A WARNING or CAUTION line on a state record raises ValueError
  first if its value does not parse. A bad number, a line with one to four tokens,
  or a bad timestamp also raises. Any exception ends the whole run.

Files:

- `wrappers.dfy` holds `Option` and `Result`.
- `text.dfy` holds Python's substring test `sub in s` and Python 2's `int()` on a token.
- `limit_log.dfy` holds the record datatypes and the per-line transition `Step`.
  It also holds `Run`, which applies `Step` to the lines in order.
- `limit_log_props.dfy` holds the invariants and the properties of `Step` and `Run`.
- `limit_log_processor.dfy` holds the imperative form. It has a class `ViolationLog`,
  whose `limlog` map field is reassigned in place, and the loop `ProcessLimitsFile`.
  Both are proved equal to `Step` and `Run`.
- `glimmon.dfy` and `glimmon_props.dfy` hold the `read_glimmon` keyword dispatch
  and its properties.

The loop carries the limit token `lim` from one line to the next. Only 6- and
7-token lines assign it, and it is unbound until the first of them. So the state
between lines is `Scan(limlog, lim)`, not just the dictionary.

Some behaviour of the code is worth stating plainly, because the model keeps it:

- Lines with one to four tokens raise IndexError and end the run. Five-token lines
  are processed; that is how NOMINAL lines look.
- A `float()` failure ends the whole run, not just the line.
- Mixing numeric and state violations on one signal raises KeyError on `max` or
  `statelog`. A WARNING or CAUTION line on a state record raises ValueError first
  if its value does not parse.
- A 5-token line reuses the previous line's limit token, even one for another
  signal (`LimitCarriesAcrossSignalsExample`). So records are not independent
  per signal.
- `fetch` is never imported, so the owner/description lookup always fails into
  "Not Known".

## Model

| member | source | states |
|---|---|---|
| LimitLog.LimLog | gretafun/gretaparse.py:223-390 | The transition rules applied from an empty dictionary: the final dictionary or the first exception. It has no contract of its own; it is specified by the LimitLogProps rows and implemented by `ProcessLimitsFile`. |
| LimitLog.Run | gretafun/gretaparse.py:246-390 | The loop over the lines, carrying the dictionary and the limit token and stopping at the first exception. It has no contract of its own; its properties are the `LimitLogProps.Run*` rows. |
| LimitLog.Step | gretafun/gretaparse.py:246-388 | One iteration of the loop. Blank line: no change. Timestamp, then `words[2]`, `words[3]`, `words[4]` each raise in that order. The limit token is updated, a `none` value is skipped, and otherwise `Apply` runs on the msid's record. It has no contract of its own; its properties are the `LimitLogProps.Step*` rows. |
| LimitLog.Apply | gretafun/gretaparse.py:283-384 | The record after one line: creation, the no-violation branch and the open-episode branch. It has no contract of its own; see `ApplyWellFormed`. |
| LimitLog.Open | gretafun/gretaparse.py:342-379 | The first-violation fields, with the errors in source order: float(value), unbound limit token, float(limit). It has no contract of its own; see `OpenOk` and `StepOpensEpisode`. |
| LimitLog.Continue | gretafun/gretaparse.py:285-334 | The open-episode branch: NOMINAL, WARNING, CAUTION, or other. It has no contract of its own; see `ContinueWellFormed`, `StepToggle`, `StepWarningOverwrites`, `StepCautionKeepsWarning`, `StepCautionOverwrites`, `StepStateClassOverwrites`, `StepExtremaMonotone` and `StepExtremaAttained`. |
| LimitLog.NextLim | gretafun/gretaparse.py:270-277 | The limit token after a line: `words[6]` for 7 tokens, `words[5]` for 6, else the previous one. It has no contract of its own; see `LimitCarriesAcrossSignalsExample`. |
| LimitLog.CurrentValue | gretafun/gretaparse.py:253-277 | The value token: `none` for a 6-token line, else `words[4]`. It has no contract of its own; see `StepSkip`. |
| LimitLogProcessor.ProcessLimitsFile | gretafun/gretaparse.py:223-390 | Returns exactly the dictionary that the transition rules give for the lines in order, or the first exception. Every record of a returned dictionary is well formed. |
| LimitLogProcessor.ViolationLog.constructor | gretafun/gretaparse.py:244 | Starts with an empty dictionary and an unbound limit token. |
| LimitLogProcessor.ViolationLog.ProcessLine | gretafun/gretaparse.py:246-388 | The in-place update of one line gives the same dictionary and limit token as `Step`, or the same exception. On an exception, the dictionary is left as it was. |
| LimitLogProcessor.ViolationLog.OpenViolation | gretafun/gretaparse.py:366-379 | Builds the first-violation fields from the current limit token, with the same errors as the transition rules. |
| LimitLogProcessor.ViolationLog.ContinueEpisode | gretafun/gretaparse.py:285-334 | On a signal whose first violation is recorded, gives the same record as the transition rules, or the same exception. The rules are: NOMINAL counts a toggle; WARNING, CAUTION and any other message each follow their own branch. |
| LimitLogProps.ApplyWellFormed | gretafun/gretaparse.py:283-384 | A record stays well formed after any line that reaches it. Owner and description are "Not Known". A bare record has no toggles, no end time and the comment. For a numeric record, min <= initial value <= max. A state log starts with the initial token, and a state record's worst type is never a WARNING. |
| LimitLogProps.OpenOk | gretafun/gretaparse.py:342-379 | The first violation records the line's time and message. OUT-OF-STATE starts the extent as `States([value], value)`. Any other message sets min = max = initial = float(value). The result satisfies the violation invariant: the worst type is not NOMINAL, and a state record never holds a WARNING. |
| LimitLogProps.ContinueWellFormed | gretafun/gretaparse.py:285-334 | Every line on an open episode keeps the record well formed. |
| LimitLogProps.StepValid | gretafun/gretaparse.py:246-388 | One line keeps every record well formed. Once any record has a violation, the limit token is bound. |
| LimitLogProps.RunValid | gretafun/gretaparse.py:246-390 | A completed run keeps every record well formed. |
| LimitLogProps.StepSkip | gretafun/gretaparse.py:270-281 | A blank line leaves the dictionary unchanged. So does a line with a good timestamp whose value is `none`, which includes every 6-token line. Only the limit token may move. |
| LimitLogProps.StepFrame | gretafun/gretaparse.py:281-384 | A line changes, creates or removes no record except that of its own msid. |
| LimitLogProps.RunFrame | gretafun/gretaparse.py:246-390 | A signal that no line reaches keeps its record, or stays absent, through a whole run. |
| LimitLogProps.StepKeepsRecords | gretafun/gretaparse.py:361-364 | No line removes a record. Owner and description are written only when a record is created. |
| LimitLogProps.RunKeepsRecords | gretafun/gretaparse.py:361-364 | Over a whole run, records are never removed and their owner and description never change. |
| LimitLogProps.StepNominalBeforeViolation | gretafun/gretaparse.py:349-351 | A NOMINAL line on a record without a first violation changes nothing and raises nothing. |
| LimitLogProps.StepNominalCreates | gretafun/gretaparse.py:381-384 | A NOMINAL line for a new msid creates a bare record: no toggles, no violation, and the comment. |
| LimitLogProps.StepOpensEpisode | gretafun/gretaparse.py:340-379 | The first non-NOMINAL line sets the first violation to that line's time and the worst type to its message. It keeps the toggle count, which is 0 for a new record. OUT-OF-STATE starts the log as `[value]`, keeps the raw token as the initial value and stores the raw limit token. Any other message sets min = max = initial = float(value) and limit = float(limit). |
| LimitLogProps.StepKeepsFirstViolation | gretafun/gretaparse.py:285-335 | Once set, the first violation time is never overwritten by a line. |
| LimitLogProps.RunKeepsFirstViolation | gretafun/gretaparse.py:285-335 | Once set, the first violation time survives a whole run. |
| LimitLogProps.RunWithoutViolationLine | gretafun/gretaparse.py:340-351 | If every line for a signal is NOMINAL, its record never gets a violation. |
| LimitLogProps.RunFirstViolation | gretafun/gretaparse.py:285-384 | At the end of a run, a signal's first violation time is the time of its first non-NOMINAL line. Its toggle count is the number of its NOMINAL lines after that line, consecutive ones included. |
| LimitLogProps.StepToggle | gretafun/gretaparse.py:288-290 | On an open episode, a NOMINAL line adds exactly one toggle. It sets the end time to the line's time and leaves the violation fields alone. |
| LimitLogProps.RunToggleCount | gretafun/gretaparse.py:288-290 | Over a run, an open episode's count grows by exactly the number of NOMINAL lines for that signal. The end time is the time of the last such line, or unchanged if there is none. |
| LimitLogProps.StepWarningOverwrites | gretafun/gretaparse.py:304-310 | A WARNING line on an open episode always sets the worst type to its message and the limit to the raw limit token. |
| LimitLogProps.StepCautionKeepsWarning | gretafun/gretaparse.py:312-323 | A CAUTION line never changes the worst type or the limit once the worst type is a WARNING. |
| LimitLogProps.StepCautionOverwrites | gretafun/gretaparse.py:312-320 | A CAUTION line on an open episode whose worst type is not a WARNING sets the worst type to its message and the limit to the raw limit token. The toggle count and end time stay. |
| LimitLogProps.StepStateClassOverwrites | gretafun/gretaparse.py:328-334 | A line whose message is neither NOMINAL nor contains WARNING or CAUTION, on an open episode, needs a state record. It always sets the worst type to its message and the limit to the raw limit token, and appends its value to the state log. The toggle count and end time stay. |
| LimitLogProps.RunWarningPersists | gretafun/gretaparse.py:304-334 | Once a signal's worst type contains WARNING, it still contains WARNING at the end of any completed run. |
| LimitLogProps.StepExtremaMonotone | gretafun/gretaparse.py:305-326 | On a numeric record, no line lowers the max, raises the min or changes the initial value. The record stays numeric. |
| LimitLogProps.RunExtremaMonotone | gretafun/gretaparse.py:305-326 | Over a run, the max never decreases, the min never increases and the initial value stays the same. |
| LimitLogProps.StepValueInBounds | gretafun/gretaparse.py:304-326 | After a non-NOMINAL line that leaves its signal numeric, the line's value parses and lies in [min, max]. |
| LimitLogProps.RunObservedInBounds | gretafun/gretaparse.py:304-379 | Every value reported by a non-NOMINAL line for a signal that ends numeric lies in that signal's final [min, max]. |
| LimitLogProps.StepExtremaAttained | gretafun/gretaparse.py:304-379 | After a line, a numeric record's max is either the line's own reported value or the max it had before, and likewise for the min. |
| LimitLogProps.RunExtremaAttained | gretafun/gretaparse.py:304-379 | After a run, a numeric record's max is either a value some non-NOMINAL line reported for the signal or the max it had at the start, and likewise for the min. |
| LimitLogProps.LimLogExtrema | gretafun/gretaparse.py:223-390 | In the returned dictionary, a numeric signal's max and min are the largest and smallest values its non-NOMINAL lines reported. Each of them is reported by some line, and every reported value lies between them. |
| LimitLogProps.RunStateLog | gretafun/gretaparse.py:328-334 | A state log only grows at its end. It gains exactly the values of the later out-of-state-class lines for the signal, in order. Its initial token stays. |
| LimitLogProps.NominalFirstExample | gretafun/gretaparse.py:381-384 | A single NOMINAL line creates a bare record with the comment. |
| LimitLogProps.WarningThenNominalExample | gretafun/gretaparse.py:285-379 | WARNING-HIGH 12 then NOMINAL gives: first violation t1, end time t2, one toggle, max 12. |
| LimitLogProps.CautionWarningCautionExample | gretafun/gretaparse.py:304-379 | CAUTION-HIGH 11, WARNING-HIGH 13, CAUTION-HIGH 9 keep WARNING-HIGH as the worst type, with max 13 and min 9. |
| LimitLogProps.MissingValueExample | gretafun/gretaparse.py:274-281 | A 6-token line alone creates no record. |
| LimitLogProps.LimitCarriesAcrossSignalsExample | gretafun/gretaparse.py:270-374 | A 5-token OUT-OF-STATE line reuses the limit token of the previous line, even one for another signal. |
| Text.Contains | gretafun/gretaparse.py:304 | Python's `sub in s` on strings, also used at lines 312 and 318. It has no contract of its own; its meaning is `Text.ContainsIsWindow`. |
| Text.ParseInt | gretafun/gretaparse.py:55 | Python 2's `int()` on a whitespace-free token, as at lines 55, 87, 93, 96 and 99. It has no contract of its own; see `Text.IntRoundTrip`. |
| Text.ContainsIsWindow | gretafun/gretaparse.py:304 | Python's `sub in s` holds exactly when some window of `s` spells `sub` (both directions). |
| Text.IntRoundTrip | gretafun/gretaparse.py:55 | Python 2's `int()` on a token reads back every integer that `str()` writes. |
| Glimmon.Run | gretafun/gretaparse.py:40-99 | The reader's loop over the lines, stopping at the first exception. It has no contract of its own; its properties are the `GlimmonProps.Run*` rows. |
| Glimmon.Step | gretafun/gretaparse.py:46-99 | One line of the reader: the MLOAD, MLIMIT, MLMTOL, MLIMSW, MLMENABLE, MLMDEFTOL and MLMTHROW branches; other lines are ignored. It has no contract of its own; see `StepLoad`, `StepNotLoad` and `StepMLimit`. |
| Glimmon.MLimit | gretafun/gretaparse.py:54-84 | The MLIMIT branch. `int(words[2])` comes before the lookup of the current name. It has no contract of its own; see `StepMLimit` and `AddLimitSet`. |
| Glimmon.SetOptions | gretafun/gretaparse.py:65-84 | SWITCHSTATE, then PPENG, then EXPST. It has no contract of its own; see `SetOptionsWrites`. |
| Glimmon.SwitchOption | gretafun/gretaparse.py:65-67 | The SWITCHSTATE option keeps the set numbers of the entry. |
| Glimmon.PpengOption | gretafun/gretaparse.py:69-79 | The PPENG option keeps the set numbers of the entry. |
| Glimmon.ExpstOption | gretafun/gretaparse.py:81-84 | The EXPST option keeps the set numbers of the entry. |
| Glimmon.IntAt | gretafun/gretaparse.py:55 | Python 2's `int(words[j])`: IndexError past the end, ValueError on a token that is not an integer. It has no contract of its own; see `Text.IntRoundTrip`. |
| Glimmon.IndexOf | gretafun/gretaparse.py:66 | `words.index(w)` is the first position holding `w`. |
| Glimmon.AddOptions | gretafun/gretaparse.py:65-84 | The SWITCHSTATE, PPENG and EXPST steps, in source order, give the same entry as the keyword rules, or the same exception. |
| Glimmon.AddLimitSet | gretafun/gretaparse.py:54-84 | The MLIMIT branch gives the same dictionary as the keyword rules and keeps the current name, or raises the same exception. |
| Glimmon.ReadGlimmon | gretafun/gretaparse.py:40-99 | The loop with its `name` cursor builds exactly the dictionary that the keyword rules give for the lines in order, or raises the first exception. |
| GlimmonProps.StepLoad | gretafun/gretaparse.py:50-52 | `MLOAD n` replaces n's entry with an empty one and makes n current. Every other entry and both top-level values stay. |
| GlimmonProps.SetOptionsKeepsKeys | gretafun/gretaparse.py:62-84 | The DEFAULT, SWITCHSTATE, PPENG and EXPST options of an MLIMIT line never touch the set keys. |
| GlimmonProps.SetOptionsWrites | gretafun/gretaparse.py:65-84 | SWITCHSTATE and EXPST store the token after their first occurrence. PPENG stores the four numbers after its first occurrence, and all four must parse. The type is 'expected_state' when EXPST is present, even after PPENG's 'limit'; else 'limit' with PPENG; else unchanged. Other sets and all other entry fields stay. |
| GlimmonProps.ThresholdsAfterOk | gretafun/gretaparse.py:71-79 | The PPENG thresholds exist only when the four tokens after PPENG exist and parse, and they are those four numbers in order. |
| GlimmonProps.SwitchOptionWrites | gretafun/gretaparse.py:65-67 | SWITCHSTATE writes only the set's switch state, with the token after its first occurrence. |
| GlimmonProps.PpengOptionWrites | gretafun/gretaparse.py:69-79 | PPENG writes only the type 'limit' and the set's four thresholds. |
| GlimmonProps.ExpstOptionWrites | gretafun/gretaparse.py:81-84 | EXPST writes only the type 'expected_state' and the set's expected state. |
| GlimmonProps.StepNotLoad | gretafun/gretaparse.py:54-99 | Any line except an MLOAD keeps the current name. Only an MLIMIT line adds to that name's set keys, appending its set number. |
| GlimmonProps.StepMLimit | gretafun/gretaparse.py:54-60 | A completed MLIMIT line needs a loaded name. It appends `int(words[2])` to that name's set keys and creates that limit set. |
| GlimmonProps.RunUntouched | gretafun/gretaparse.py:40-99 | A name that is not current and never loaded again keeps its entry through a run. |
| GlimmonProps.RunLoadsElsewhere | gretafun/gretaparse.py:50-52 | A run that starts by loading a different name leaves n's entry exactly as it was, unless n is loaded again. |
| GlimmonProps.RunSplit | gretafun/gretaparse.py:46-99 | Reading lines up to position j and then the rest gives the same result as reading them all. |
| GlimmonProps.RunSetKeysNoLoad | gretafun/gretaparse.py:54-60 | Without an MLOAD, the current name stays. Its set keys grow by the MLIMIT set numbers, in file order. |
| GlimmonProps.RunSetKeysUntilLoad | gretafun/gretaparse.py:50-60 | From a loaded name, its set keys grow by the MLIMIT set numbers before the next MLOAD, in file order. |
| GlimmonProps.RunSetKeys | gretafun/gretaparse.py:50-60 | At the end of a run, a name's set keys are the MLIMIT set numbers between its last MLOAD and the next MLOAD (or the end of the file), in file order. |
| GlimmonProps.RunKeepsNames | gretafun/gretaparse.py:50-52 | Loaded names are never removed. |
| GlimmonProps.RunNeverUnknownName | gretafun/gretaparse.py:56 | The lookup `glimmon[name]` never raises KeyError: the current name always has an entry. |

## Left out

- File I/O is not modelled: opening, reading and closing the files
  (gretafun/gretaparse.py:33-34, 240-242). The model takes the lines already split
  on whitespace, as a sequence of token lists.
- The skip-message `print` (gretafun/gretaparse.py:387-388) is output only. The model
  skips the line without it.
- Timestamp conversion `DateTime(words[0], 'greta').date` belongs to a foreign library.
  It is the parameter `Converters.date`; `None` stands for a conversion that raises.
- `float()` is floating-point parsing. It is the parameter `Converters.number`, and
  values are `real`. `np.max`/`np.min` are plain comparisons. NaN, `inf`/`-inf`
  (which `float()` accepts) and rounding are not modelled.
- The metadata lookup (gretafun/gretaparse.py:255-262) calls `fetch`, which is never
  imported. The bare `except` always catches the NameError, so the model uses the
  constant "Not Known".
- `opr` is assigned (gretafun/gretaparse.py:271, 276) but never read, so it is not modelled.
- ViolationLog.ProcessLine: on an exception, the source may already have written some
  fields of the record. The model leaves the dictionary unchanged instead. No caller
  sees the difference: the exception escapes `process_limits_file`, and `limlog` is
  local to it.
- `read_glimmon`: the Version, Database and Revision comment lines
  (gretafun/gretaparse.py:101-111) are regular-expression matching, so the model
  ignores them like any other unrecognised line.
- `read_glimmon`: in the source, MLOAD names share one dictionary with the top-level
  keys. The model keeps them apart, so an MLOAD named `mlmdeftol` or `mlmthrow` is not
  modelled as overwriting, or being overwritten by, the top-level value.
- `read_glimmon`: on an exception the source may have set the PPENG 'type' already.
  The model sets it after the four thresholds parse. No caller sees the difference,
  because the exception ends the call.
- Text.ParseInt accepts an optional sign and ASCII digits. That is what Python 2's
  `int()` accepts for a token that `split()` produced; non-ASCII digits are not modelled.
- `parse_comments` and `parse_decplot` are not part of this model. Both are regular
  expressions over whole file bodies, and `parse_comments` also depends on `DateTime`.
- setup.py is packaging only.
