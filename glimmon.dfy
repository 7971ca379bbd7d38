/**
 * The keyword dispatch of `read_glimmon`: a line-by-line reader of a GRETA
 * limit-monitor specification (G_LIMMON.dec). An `MLOAD <name>` line makes
 * `<name>` the current signal and gives it a fresh, empty entry; MLIMIT,
 * MLMTOL, MLIMSW and MLMENABLE lines attach to the current signal; MLMDEFTOL
 * and MLMTHROW set top-level values. Every other line is ignored.
 */
module Glimmon {
  import opened Wrappers
  import opened Text

  /** The four PPENG thresholds of a limit set. */
  datatype Thresholds = Thresholds(warningLow: real, cautionLow: real, cautionHigh: real, warningHigh: real)

  /** One numbered limit set of a signal. */
  datatype LimitSet = LimitSet(switchState: Option<string>, thresholds: Option<Thresholds>, expectedState: Option<string>)

  const EmptySet := LimitSet(None, None, None)

  /** The entry's 'type': 'limit' or 'expected_state'. */
  datatype Kind = LimitKind | ExpectedStateKind

  /**
   * The entry of one MLOAD name. `setKeys == []` stands for the absent
   * 'setkeys' key: the source only ever creates that list with one element.
   */
  datatype Entry = Entry(
    sets: map<int, LimitSet>,
    setKeys: seq<int>,
    defaultSet: Option<int>,
    kind: Option<Kind>,
    mlmtol: Option<int>,
    mlimsw: Option<string>,
    mlmenable: Option<int>)

  const EmptyEntry := Entry(map[], [], None, None, None, None, None)

  /** The specification dictionary: one entry per MLOAD name, plus two top-level values. */
  datatype Spec = Spec(entries: map<string, Entry>, mlmdeftol: Option<int>, mlmthrow: Option<int>)

  /** The reader's state between lines: the dictionary and the current name. */
  datatype Reader = Reader(spec: Spec, name: Option<string>)

  const Start := Reader(Spec(map[], None, None), None)

  /** What ends a run. */
  datatype Error =
    | MissingToken(index: nat)     // IndexError on words[index]
    | NotAnInteger(token: string)  // int() raised ValueError
    | NotANumber(token: string)    // float() raised ValueError
    | NoCurrentName                // `name` read before any MLOAD line
    | UnknownName(name: string)    // KeyError on glimmon[name]

  /** Python's `ws.index(w)`: the first position of `w`. */
  function IndexOf(ws: seq<string>, w: string): (i: nat)
    requires w in ws
    ensures i < |ws| && ws[i] == w
    ensures forall j :: 0 <= j < i ==> ws[j] != w
  {
    if ws[0] == w then 0 else 1 + IndexOf(ws[1..], w)
  }

  /** `int(words[j])`. */
  function IntAt(words: seq<string>, j: nat): Result<int, Error>
  {
    if j >= |words| then Err(MissingToken(j))
    else match ParseInt(words[j])
      case None => Err(NotAnInteger(words[j]))
      case Some(n) => Ok(n)
  }

  /** `float(words[j])`. */
  function NumberAt(words: seq<string>, j: nat, number: string -> Option<real>): Result<real, Error>
  {
    if j >= |words| then Err(MissingToken(j))
    else match number(words[j])
      case None => Err(NotANumber(words[j]))
      case Some(x) => Ok(x)
  }

  /** `glimmon[name]` for the current name. */
  function CurrentEntry(rd: Reader): Result<Entry, Error>
  {
    if rd.name.None? then Err(NoCurrentName)
    else if rd.name.value !in rd.spec.entries then Err(UnknownName(rd.name.value))
    else Ok(rd.spec.entries[rd.name.value])
  }

  function WithEntry(rd: Reader, e: Entry): Reader
    requires rd.name.Some?
  {
    rd.(spec := rd.spec.(entries := rd.spec.entries[rd.name.value := e]))
  }

  /** The four PPENG thresholds that follow position `i`. */
  function ThresholdsAfter(words: seq<string>, i: nat, number: string -> Option<real>): Result<Thresholds, Error>
  {
    match NumberAt(words, i + 1, number)
    case Err(e) => Err(e)
    case Ok(wl) =>
      match NumberAt(words, i + 2, number)
      case Err(e) => Err(e)
      case Ok(cl) =>
        match NumberAt(words, i + 3, number)
        case Err(e) => Err(e)
        case Ok(ch) =>
          match NumberAt(words, i + 4, number)
          case Err(e) => Err(e)
          case Ok(wh) => Ok(Thresholds(wl, cl, ch, wh))
  }

  /** The SWITCHSTATE part of an MLIMIT line: the token after it, on set `setnum`. */
  function SwitchOption(e: Entry, setnum: int, words: seq<string>): (r: Result<Entry, Error>)
    requires setnum in e.sets
    ensures r.Ok? ==> r.value.sets.Keys == e.sets.Keys
  {
    if "SWITCHSTATE" in words then
      var i := IndexOf(words, "SWITCHSTATE");
      if i + 1 < |words| then Ok(e.(sets := e.sets[setnum := e.sets[setnum].(switchState := Some(words[i + 1]))]))
      else Err(MissingToken(i + 1))
    else Ok(e)
  }

  /** The PPENG part: type 'limit' and the four thresholds after it. */
  function PpengOption(e: Entry, setnum: int, words: seq<string>, number: string -> Option<real>): (r: Result<Entry, Error>)
    requires setnum in e.sets
    ensures r.Ok? ==> r.value.sets.Keys == e.sets.Keys
  {
    if "PPENG" in words then
      match ThresholdsAfter(words, IndexOf(words, "PPENG"), number)
      case Err(err) => Err(err)
      case Ok(th) => Ok(e.(kind := Some(LimitKind), sets := e.sets[setnum := e.sets[setnum].(thresholds := Some(th))]))
    else Ok(e)
  }

  /** The EXPST part: type 'expected_state' and the token after it. */
  function ExpstOption(e: Entry, setnum: int, words: seq<string>): (r: Result<Entry, Error>)
    requires setnum in e.sets
    ensures r.Ok? ==> r.value.sets.Keys == e.sets.Keys
  {
    if "EXPST" in words then
      var i := IndexOf(words, "EXPST");
      if i + 1 < |words| then
        Ok(e.(kind := Some(ExpectedStateKind), sets := e.sets[setnum := e.sets[setnum].(expectedState := Some(words[i + 1]))]))
      else Err(MissingToken(i + 1))
    else Ok(e)
  }

  /** The SWITCHSTATE, PPENG and EXPST parts of an MLIMIT line, in that order, on set `setnum`. */
  function SetOptions(e: Entry, setnum: int, words: seq<string>, number: string -> Option<real>): Result<Entry, Error>
    requires setnum in e.sets
  {
    match SwitchOption(e, setnum, words)
    case Err(err) => Err(err)
    case Ok(e1) =>
      match PpengOption(e1, setnum, words, number)
      case Err(err) => Err(err)
      case Ok(e2) => ExpstOption(e2, setnum, words)
  }

  /** An MLIMIT line: a fresh set `setnum` on the current signal, appended to its set keys. */
  function MLimit(rd: Reader, words: seq<string>, number: string -> Option<real>): Result<Reader, Error>
  {
    match IntAt(words, 2)
    case Err(err) => Err(err)
    case Ok(setnum) =>
      match CurrentEntry(rd)
      case Err(err) => Err(err)
      case Ok(e0) =>
        var e1 := e0.(sets := e0.sets[setnum := EmptySet], setKeys := e0.setKeys + [setnum]);
        var e2 := if "DEFAULT" in words then e1.(defaultSet := Some(setnum)) else e1;
        match SetOptions(e2, setnum, words, number)
        case Err(err) => Err(err)
        case Ok(e3) => Ok(WithEntry(rd, e3))
  }

  /** One iteration of the reader's loop. */
  function Step(rd: Reader, words: seq<string>, number: string -> Option<real>): Result<Reader, Error>
  {
    if |words| == 0 then Ok(rd)
    else if words[0] == "MLOAD" then
      if |words| < 2 then Err(MissingToken(1))
      else Ok(Reader(rd.spec.(entries := rd.spec.entries[words[1] := EmptyEntry]), Some(words[1])))
    else if words[0] == "MLIMIT" then MLimit(rd, words, number)
    else if words[0] == "MLMTOL" then
      match CurrentEntry(rd)
      case Err(err) => Err(err)
      case Ok(e) =>
        match IntAt(words, 1)
        case Err(err) => Err(err)
        case Ok(n) => Ok(WithEntry(rd, e.(mlmtol := Some(n))))
    else if words[0] == "MLIMSW" then
      match CurrentEntry(rd)
      case Err(err) => Err(err)
      case Ok(e) =>
        if |words| < 2 then Err(MissingToken(1))
        else Ok(WithEntry(rd, e.(mlimsw := Some(words[1]))))
    else if words[0] == "MLMENABLE" then
      match CurrentEntry(rd)
      case Err(err) => Err(err)
      case Ok(e) =>
        match IntAt(words, 1)
        case Err(err) => Err(err)
        case Ok(n) => Ok(WithEntry(rd, e.(mlmenable := Some(n))))
    else if words[0] == "MLMDEFTOL" then
      match IntAt(words, 1)
      case Err(err) => Err(err)
      case Ok(n) => Ok(rd.(spec := rd.spec.(mlmdeftol := Some(n))))
    else if words[0] == "MLMTHROW" then
      match IntAt(words, 1)
      case Err(err) => Err(err)
      case Ok(n) => Ok(rd.(spec := rd.spec.(mlmthrow := Some(n))))
    else Ok(rd)
  }

  function Run(rd: Reader, lines: seq<seq<string>>, number: string -> Option<real>): Result<Reader, Error>
    decreases |lines|
  {
    if lines == [] then Ok(rd)
    else
      match Step(rd, lines[0], number)
      case Err(err) => Err(err)
      case Ok(rd') => Run(rd', lines[1..], number)
  }

  /** The SWITCHSTATE, PPENG and EXPST parts of an MLIMIT line, on set `setnum`. */
  method AddOptions(entry: Entry, setnum: int, words: seq<string>, number: string -> Option<real>)
    returns (r: Result<Entry, Error>)
    requires setnum in entry.sets
    ensures r == SetOptions(entry, setnum, words, number)
  {
    var e := entry;
    if "SWITCHSTATE" in words {
      var ind := IndexOf(words, "SWITCHSTATE");
      if ind + 1 >= |words| {
        return Err(MissingToken(ind + 1));
      }
      e := e.(sets := e.sets[setnum := e.sets[setnum].(switchState := Some(words[ind + 1]))]);
    }
    if "PPENG" in words {
      var ind := IndexOf(words, "PPENG");
      var th := ThresholdsAfter(words, ind, number);
      if th.Err? {
        return Err(th.error);
      }
      e := e.(kind := Some(LimitKind));
      e := e.(sets := e.sets[setnum := e.sets[setnum].(thresholds := Some(th.value))]);
    }
    if "EXPST" in words {
      var ind := IndexOf(words, "EXPST");
      if ind + 1 >= |words| {
        return Err(MissingToken(ind + 1));
      }
      e := e.(kind := Some(ExpectedStateKind));
      e := e.(sets := e.sets[setnum := e.sets[setnum].(expectedState := Some(words[ind + 1]))]);
    }
    return Ok(e);
  }

  /** The MLIMIT branch of the reader: a fresh set on the current signal, with its options. */
  method AddLimitSet(glimmon: Spec, name: Option<string>, words: seq<string>, number: string -> Option<real>)
    returns (r: Result<Spec, Error>)
    ensures match MLimit(Reader(glimmon, name), words, number)
            case Ok(rd) => r == Ok(rd.spec) && rd.name == name
            case Err(e) => r == Err(e)
  {
    var setnum := IntAt(words, 2);
    if setnum.Err? {
      return Err(setnum.error);
    }
    var current := CurrentEntry(Reader(glimmon, name));
    if current.Err? {
      return Err(current.error);
    }
    var entry := current.value;
    entry := entry.(sets := entry.sets[setnum.value := EmptySet]);
    entry := entry.(setKeys := entry.setKeys + [setnum.value]);
    if "DEFAULT" in words {
      entry := entry.(defaultSet := Some(setnum.value));
    }
    var options := AddOptions(entry, setnum.value, words, number);
    if options.Err? {
      return Err(options.error);
    }
    return Ok(glimmon.(entries := glimmon.entries[name.value := options.value]));
  }

  /**
   * `read_glimmon` over the whitespace-split lines of the file: the dictionary
   * it builds, or the first exception.
   */
  method ReadGlimmon(lines: seq<seq<string>>, number: string -> Option<real>) returns (r: Result<Spec, Error>)
    ensures r.Ok? <==> Run(Start, lines, number).Ok?
    ensures r.Ok? ==> r.value == Run(Start, lines, number).value.spec
    ensures r.Err? ==> r.error == Run(Start, lines, number).error
  {
    var glimmon := Spec(map[], None, None);
    var name: Option<string> := None;
    var i := 0;
    while i < |lines|
      invariant 0 <= i <= |lines|
      invariant Run(Start, lines, number) == Run(Reader(glimmon, name), lines[i..], number)
    {
      assert lines[i..][1..] == lines[i + 1..];
      var words := lines[i];
      ghost var before := Reader(glimmon, name);
      if |words| > 0 {
        if words[0] == "MLOAD" {
          if |words| < 2 {
            return Err(MissingToken(1));
          }
          name := Some(words[1]);
          glimmon := glimmon.(entries := glimmon.entries[words[1] := EmptyEntry]);
        } else if words[0] == "MLIMIT" {
          var next := AddLimitSet(glimmon, name, words, number);
          if next.Err? {
            return Err(next.error);
          }
          glimmon := next.value;
        } else if words[0] == "MLMTOL" {
          var current := CurrentEntry(Reader(glimmon, name));
          if current.Err? {
            return Err(current.error);
          }
          var n := IntAt(words, 1);
          if n.Err? {
            return Err(n.error);
          }
          glimmon := glimmon.(entries := glimmon.entries[name.value := current.value.(mlmtol := Some(n.value))]);
        } else if words[0] == "MLIMSW" {
          var current := CurrentEntry(Reader(glimmon, name));
          if current.Err? {
            return Err(current.error);
          }
          if |words| < 2 {
            return Err(MissingToken(1));
          }
          glimmon := glimmon.(entries := glimmon.entries[name.value := current.value.(mlimsw := Some(words[1]))]);
        } else if words[0] == "MLMENABLE" {
          var current := CurrentEntry(Reader(glimmon, name));
          if current.Err? {
            return Err(current.error);
          }
          var n := IntAt(words, 1);
          if n.Err? {
            return Err(n.error);
          }
          glimmon := glimmon.(entries := glimmon.entries[name.value := current.value.(mlmenable := Some(n.value))]);
        } else if words[0] == "MLMDEFTOL" {
          var n := IntAt(words, 1);
          if n.Err? {
            return Err(n.error);
          }
          glimmon := glimmon.(mlmdeftol := Some(n.value));
        } else if words[0] == "MLMTHROW" {
          var n := IntAt(words, 1);
          if n.Err? {
            return Err(n.error);
          }
          glimmon := glimmon.(mlmthrow := Some(n.value));
        }
      }
      assert Step(before, words, number) == Ok(Reader(glimmon, name));
      i := i + 1;
    }
    return Ok(glimmon);
  }
}
