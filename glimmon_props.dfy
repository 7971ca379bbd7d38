/**
 * What `read_glimmon`'s keyword dispatch promises: an MLOAD resets its
 * name's entry and moves the cursor; MLIMIT set numbers are listed in file
 * order under the most recent MLOAD name; other names are left alone; and
 * the lookup of the current name never fails once a name is loaded.
 */
module GlimmonProps {
  import opened Wrappers
  import opened Text
  import opened Glimmon

  predicate IsLoad(words: seq<string>)
  {
    |words| > 0 && words[0] == "MLOAD"
  }

  predicate IsLoadOf(words: seq<string>, n: string)
  {
    |words| >= 2 && words[0] == "MLOAD" && words[1] == n
  }

  function LookupEntry(m: map<string, Entry>, n: string): Option<Entry>
  {
    if n in m then Some(m[n]) else None
  }

  /** The set numbers of the MLIMIT lines in `lines`, in order. */
  function SetNumbers(lines: seq<seq<string>>): seq<int>
  {
    if lines == [] then []
    else SetNumber(lines[0]) + SetNumbers(lines[1..])
  }

  function SetNumber(words: seq<string>): seq<int>
  {
    if |words| > 0 && words[0] == "MLIMIT" && IntAt(words, 2).Ok? then [IntAt(words, 2).value] else []
  }

  /** The current name, once set, always has an entry. */
  ghost predicate CursorValid(rd: Reader)
  {
    rd.name.Some? ==> rd.name.value in rd.spec.entries
  }

  /** `MLOAD n` makes `n` current and gives it an empty entry; nothing else changes. */
  lemma StepLoad(rd: Reader, words: seq<string>, number: string -> Option<real>)
    requires |words| >= 2 && words[0] == "MLOAD"
    ensures Step(rd, words, number).Ok?
    ensures var r := Step(rd, words, number).value;
      r.name == Some(words[1]) && words[1] in r.spec.entries && r.spec.entries[words[1]] == EmptyEntry &&
      r.spec.mlmdeftol == rd.spec.mlmdeftol && r.spec.mlmthrow == rd.spec.mlmthrow &&
      forall m :: m != words[1] ==> LookupEntry(r.spec.entries, m) == LookupEntry(rd.spec.entries, m)
  {
  }

  /** The SWITCHSTATE, PPENG and EXPST options leave the set keys alone. */
  lemma SetOptionsKeepsKeys(e: Entry, setnum: int, words: seq<string>, number: string -> Option<real>)
    requires setnum in e.sets
    requires SetOptions(e, setnum, words, number).Ok?
    ensures SetOptions(e, setnum, words, number).value.setKeys == e.setKeys
  {
  }

  /** Everything outside set `setnum` and the type is as in `e`. */
  ghost predicate OptionsFrame(e: Entry, r: Entry, setnum: int)
  {
    setnum in e.sets && setnum in r.sets && r.sets.Keys == e.sets.Keys &&
    (forall m :: m in e.sets && m != setnum ==> r.sets[m] == e.sets[m]) &&
    r.setKeys == e.setKeys && r.defaultSet == e.defaultSet &&
    r.mlmtol == e.mlmtol && r.mlimsw == e.mlimsw && r.mlmenable == e.mlmenable
  }

  /** `ThresholdsAfter` succeeds only when the four tokens after `i` parse. */
  lemma ThresholdsAfterOk(words: seq<string>, i: nat, number: string -> Option<real>)
    requires ThresholdsAfter(words, i, number).Ok?
    ensures i + 4 < |words|
    ensures number(words[i + 1]).Some? && number(words[i + 2]).Some? &&
            number(words[i + 3]).Some? && number(words[i + 4]).Some?
    ensures ThresholdsAfter(words, i, number).value ==
      Thresholds(number(words[i + 1]).value, number(words[i + 2]).value,
                 number(words[i + 3]).value, number(words[i + 4]).value)
  {
  }

  lemma SwitchOptionWrites(e: Entry, setnum: int, words: seq<string>)
    requires setnum in e.sets
    requires SwitchOption(e, setnum, words).Ok?
    ensures var r := SwitchOption(e, setnum, words).value;
      OptionsFrame(e, r, setnum) && r.kind == e.kind &&
      r.sets[setnum].thresholds == e.sets[setnum].thresholds &&
      r.sets[setnum].expectedState == e.sets[setnum].expectedState &&
      ("SWITCHSTATE" in words ==>
        var i := IndexOf(words, "SWITCHSTATE");
        i + 1 < |words| && r.sets[setnum].switchState == Some(words[i + 1])) &&
      ("SWITCHSTATE" !in words ==> r.sets[setnum].switchState == e.sets[setnum].switchState)
  {
  }

  lemma PpengOptionWrites(e: Entry, setnum: int, words: seq<string>, number: string -> Option<real>)
    requires setnum in e.sets
    requires PpengOption(e, setnum, words, number).Ok?
    ensures var r := PpengOption(e, setnum, words, number).value;
      OptionsFrame(e, r, setnum) &&
      r.sets[setnum].switchState == e.sets[setnum].switchState &&
      r.sets[setnum].expectedState == e.sets[setnum].expectedState &&
      ("PPENG" in words ==>
        var i := IndexOf(words, "PPENG");
        i + 4 < |words| &&
        number(words[i + 1]).Some? && number(words[i + 2]).Some? &&
        number(words[i + 3]).Some? && number(words[i + 4]).Some? &&
        r.kind == Some(LimitKind) &&
        r.sets[setnum].thresholds == Some(Thresholds(number(words[i + 1]).value, number(words[i + 2]).value,
                                                     number(words[i + 3]).value, number(words[i + 4]).value))) &&
      ("PPENG" !in words ==> r == e)
  {
    if "PPENG" in words {
      ThresholdsAfterOk(words, IndexOf(words, "PPENG"), number);
    }
  }

  lemma ExpstOptionWrites(e: Entry, setnum: int, words: seq<string>)
    requires setnum in e.sets
    requires ExpstOption(e, setnum, words).Ok?
    ensures var r := ExpstOption(e, setnum, words).value;
      OptionsFrame(e, r, setnum) &&
      r.sets[setnum].switchState == e.sets[setnum].switchState &&
      r.sets[setnum].thresholds == e.sets[setnum].thresholds &&
      ("EXPST" in words ==>
        var i := IndexOf(words, "EXPST");
        i + 1 < |words| && r.sets[setnum].expectedState == Some(words[i + 1]) &&
        r.kind == Some(ExpectedStateKind)) &&
      ("EXPST" !in words ==> r == e)
  {
  }

  /**
   * What the options of an MLIMIT line write on set `setnum`. SWITCHSTATE and EXPST
   * store the token after their first occurrence. PPENG stores the four numbers
   * after its first occurrence. The type is 'expected_state' when EXPST is
   * present, even after PPENG's 'limit'. Nothing else in the entry changes.
   */
  lemma SetOptionsWrites(e: Entry, setnum: int, words: seq<string>, number: string -> Option<real>)
    requires setnum in e.sets
    requires SetOptions(e, setnum, words, number).Ok?
    ensures var r := SetOptions(e, setnum, words, number).value;
      OptionsFrame(e, r, setnum) &&
      ("SWITCHSTATE" in words ==>
        var i := IndexOf(words, "SWITCHSTATE");
        i + 1 < |words| && r.sets[setnum].switchState == Some(words[i + 1])) &&
      ("SWITCHSTATE" !in words ==> r.sets[setnum].switchState == e.sets[setnum].switchState) &&
      ("PPENG" in words ==>
        var i := IndexOf(words, "PPENG");
        i + 4 < |words| &&
        number(words[i + 1]).Some? && number(words[i + 2]).Some? &&
        number(words[i + 3]).Some? && number(words[i + 4]).Some? &&
        r.sets[setnum].thresholds == Some(Thresholds(number(words[i + 1]).value, number(words[i + 2]).value,
                                                     number(words[i + 3]).value, number(words[i + 4]).value))) &&
      ("PPENG" !in words ==> r.sets[setnum].thresholds == e.sets[setnum].thresholds) &&
      ("EXPST" in words ==>
        var i := IndexOf(words, "EXPST");
        i + 1 < |words| && r.sets[setnum].expectedState == Some(words[i + 1]) &&
        r.kind == Some(ExpectedStateKind)) &&
      ("EXPST" !in words ==> r.sets[setnum].expectedState == e.sets[setnum].expectedState) &&
      ("EXPST" !in words && "PPENG" in words ==> r.kind == Some(LimitKind)) &&
      ("EXPST" !in words && "PPENG" !in words ==> r.kind == e.kind)
  {
    var e1 := SwitchOption(e, setnum, words).value;
    SwitchOptionWrites(e, setnum, words);
    var e2 := PpengOption(e1, setnum, words, number).value;
    PpengOptionWrites(e1, setnum, words, number);
    ExpstOptionWrites(e2, setnum, words);
  }

  /** Any line but an MLOAD keeps the cursor and appends an MLIMIT line's set
    * number to the current entry's set keys. */
  lemma StepNotLoad(rd: Reader, words: seq<string>, number: string -> Option<real>, n: string)
    requires !IsLoad(words)
    requires rd.name == Some(n) && n in rd.spec.entries
    requires Step(rd, words, number).Ok?
    ensures var r := Step(rd, words, number).value;
      r.name == rd.name && n in r.spec.entries &&
      r.spec.entries[n].setKeys == rd.spec.entries[n].setKeys + SetNumber(words)
  {
    if |words| > 0 && words[0] == "MLIMIT" {
      var setnum := IntAt(words, 2).value;
      var e0 := rd.spec.entries[n];
      var e1 := e0.(sets := e0.sets[setnum := EmptySet], setKeys := e0.setKeys + [setnum]);
      var e2 := if "DEFAULT" in words then e1.(defaultSet := Some(setnum)) else e1;
      SetOptionsKeepsKeys(e2, setnum, words, number);
    }
  }

  /** An MLIMIT line on a loaded name appends its set number, in file order. */
  lemma StepMLimit(rd: Reader, words: seq<string>, number: string -> Option<real>)
    requires |words| > 0 && words[0] == "MLIMIT"
    requires Step(rd, words, number).Ok?
    ensures rd.name.Some? && rd.name.value in rd.spec.entries && IntAt(words, 2).Ok?
    ensures var r := Step(rd, words, number).value;
      var n := rd.name.value;
      r.name == rd.name && n in r.spec.entries &&
      r.spec.entries[n].setKeys == rd.spec.entries[n].setKeys + [IntAt(words, 2).value] &&
      IntAt(words, 2).value in r.spec.entries[n].sets
  {
    StepNotLoad(rd, words, number, rd.name.value);
  }

  /** A name that is not current and is never loaded keeps its entry through a run. */
  lemma {:induction false} RunUntouched(rd: Reader, lines: seq<seq<string>>, number: string -> Option<real>, m: string)
    requires rd.name != Some(m)
    requires forall i :: 0 <= i < |lines| ==> !IsLoadOf(lines[i], m)
    requires Run(rd, lines, number).Ok?
    ensures var r := Run(rd, lines, number).value;
      r.name != Some(m) && LookupEntry(r.spec.entries, m) == LookupEntry(rd.spec.entries, m)
    decreases |lines|
  {
    if lines != [] {
      RunUntouched(Step(rd, lines[0], number).value, lines[1..], number, m);
    }
  }

  /** A run that starts by loading another name leaves the entry of `n` alone. */
  lemma RunLoadsElsewhere(rd: Reader, lines: seq<seq<string>>, number: string -> Option<real>, n: string)
    requires n in rd.spec.entries
    requires lines != [] ==> IsLoad(lines[0])
    requires forall x :: 0 <= x < |lines| ==> !IsLoadOf(lines[x], n)
    requires Run(rd, lines, number).Ok?
    ensures var r := Run(rd, lines, number).value;
      n in r.spec.entries && r.spec.entries[n] == rd.spec.entries[n]
  {
    if lines != [] {
      var rd1 := Step(rd, lines[0], number).value;
      assert !IsLoadOf(lines[0], n);
      RunUntouched(rd1, lines[1..], number, n);
    }
  }

  /** The first line of a run that is not an MLOAD keeps the cursor on `n`. */
  lemma RunNotLoad(rd: Reader, lines: seq<seq<string>>, number: string -> Option<real>, n: string) returns (rd1: Reader)
    requires rd.name == Some(n) && n in rd.spec.entries
    requires lines != [] && !IsLoad(lines[0])
    requires Run(rd, lines, number).Ok?
    ensures rd1.name == Some(n) && n in rd1.spec.entries
    ensures rd1.spec.entries[n].setKeys == rd.spec.entries[n].setKeys + SetNumber(lines[0])
    ensures Run(rd1, lines[1..], number) == Run(rd, lines, number)
  {
    rd1 := Step(rd, lines[0], number).value;
    StepNotLoad(rd, lines[0], number, n);
  }

  /** A run is its prefix followed by its suffix. */
  lemma {:induction false} RunSplit(rd: Reader, lines: seq<seq<string>>, number: string -> Option<real>, j: nat)
    requires j <= |lines|
    requires Run(rd, lines, number).Ok?
    ensures Run(rd, lines[..j], number).Ok?
    ensures Run(Run(rd, lines[..j], number).value, lines[j..], number) == Run(rd, lines, number)
    decreases j
  {
    if j == 0 {
      assert lines[..0] == [] && lines[0..] == lines;
    } else {
      var rd1 := Step(rd, lines[0], number).value;
      assert lines[..j][0] == lines[0];
      assert lines[..j][1..] == lines[1..][..j - 1];
      assert lines[1..][j - 1..] == lines[j..];
      RunSplit(rd1, lines[1..], number, j - 1);
    }
  }

  /** Without an MLOAD, the cursor stays on `n` and its set keys grow by the
    * MLIMIT set numbers, in order. */
  lemma {:induction false} RunSetKeysNoLoad(rd: Reader, lines: seq<seq<string>>, number: string -> Option<real>, n: string)
    requires rd.name == Some(n) && n in rd.spec.entries
    requires forall x :: 0 <= x < |lines| ==> !IsLoad(lines[x])
    requires Run(rd, lines, number).Ok?
    ensures var r := Run(rd, lines, number).value;
      r.name == Some(n) && n in r.spec.entries &&
      r.spec.entries[n].setKeys == rd.spec.entries[n].setKeys + SetNumbers(lines)
    decreases |lines|
  {
    if lines != [] {
      var rd1 := RunNotLoad(rd, lines, number, n);
      RunSetKeysNoLoad(rd1, lines[1..], number, n);
      AppendAssoc(rd.spec.entries[n].setKeys, SetNumber(lines[0]), SetNumbers(lines[1..]));
    }
  }

  /** From a loaded name `n`, its set keys grow by the set numbers of the MLIMIT
    * lines before the next MLOAD, and stay put if `n` is not loaded again. */
  lemma RunSetKeysUntilLoad(rd: Reader, lines: seq<seq<string>>, number: string -> Option<real>, n: string, j: nat)
    requires rd.name == Some(n) && n in rd.spec.entries
    requires j <= |lines|
    requires forall x :: 0 <= x < j ==> !IsLoad(lines[x])
    requires j < |lines| ==> IsLoad(lines[j])
    requires forall x :: j <= x < |lines| ==> !IsLoadOf(lines[x], n)
    requires Run(rd, lines, number).Ok?
    ensures var r := Run(rd, lines, number).value;
      n in r.spec.entries && r.spec.entries[n].setKeys == rd.spec.entries[n].setKeys + SetNumbers(lines[..j])
  {
    RunSplit(rd, lines, number, j);
    var mid := Run(rd, lines[..j], number).value;
    RunSetKeysNoLoad(rd, lines[..j], number, n);
    RunLoadsElsewhere(mid, lines[j..], number, n);
  }

  /**
   * The set keys of `n` at the end of a run are the set numbers of the MLIMIT
   * lines between the last `MLOAD n` (at `i`) and the next MLOAD (at `j`, or the
   * end of the file), in file order.
   */
  lemma {:induction false} RunSetKeys(rd: Reader, lines: seq<seq<string>>, number: string -> Option<real>, n: string, i: nat, j: nat)
    requires i < j <= |lines|
    requires IsLoadOf(lines[i], n)
    requires forall x :: i < x < j ==> !IsLoad(lines[x])
    requires j < |lines| ==> IsLoad(lines[j])
    requires forall x :: j <= x < |lines| ==> !IsLoadOf(lines[x], n)
    requires Run(rd, lines, number).Ok?
    ensures var r := Run(rd, lines, number).value;
      n in r.spec.entries && r.spec.entries[n].setKeys == SetNumbers(lines[i + 1..j])
    decreases i
  {
    var rd1 := Step(rd, lines[0], number).value;
    if i == 0 {
      assert lines[1..][..j - 1] == lines[1..j];
      RunSetKeysUntilLoad(rd1, lines[1..], number, n, j - 1);
    } else {
      assert lines[1..][i - 1 + 1..j - 1] == lines[i + 1..j];
      RunSetKeys(rd1, lines[1..], number, n, i - 1, j - 1);
    }
  }

  /** Names are never removed from the dictionary. */
  lemma {:induction false} RunKeepsNames(rd: Reader, lines: seq<seq<string>>, number: string -> Option<real>)
    requires Run(rd, lines, number).Ok?
    ensures rd.spec.entries.Keys <= Run(rd, lines, number).value.spec.entries.Keys
    decreases |lines|
  {
    if lines != [] {
      RunKeepsNames(Step(rd, lines[0], number).value, lines[1..], number);
    }
  }

  /** The lookup `glimmon[name]` never raises KeyError: a run that starts with a
    * valid cursor can only fail for a missing token, a bad number or a missing MLOAD. */
  lemma {:induction false} RunNeverUnknownName(rd: Reader, lines: seq<seq<string>>, number: string -> Option<real>)
    requires CursorValid(rd)
    ensures Run(rd, lines, number).Err? ==> !Run(rd, lines, number).error.UnknownName?
    ensures Run(rd, lines, number).Ok? ==> CursorValid(Run(rd, lines, number).value)
    decreases |lines|
  {
    if lines != [] && Step(rd, lines[0], number).Ok? {
      RunNeverUnknownName(Step(rd, lines[0], number).value, lines[1..], number);
    }
  }
}
