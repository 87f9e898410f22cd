/**
 * The command-line flag package (lib/flag/flag.go): registered flags, the
 * one-argument-at-a-time parser and its loop, usage-name extraction and the
 * name-ordered listing of flags.
 *
 * Go strings are byte strings; here a `char` stands for one byte. Every
 * character the parser compares against (`-`, `=`, a backquote) is ASCII, and
 * in UTF-8 no byte of a multi-byte character equals an ASCII byte, so the
 * positions found are the same.
 */
module Flag {
  import opened Wrappers

  // ---------------------------------------------------------------------------
  // Values

  /** What a conversion can report: the package's `errParse` and `errRange`, or
      any other error of a user-supplied value. */
  datatype ValueError = ErrParse | ErrRange | Other(message: string)

  /** The effect of `Value.Set(s)`: the text `String()` gives afterwards, and the
      error, if any. As in Go, a failed conversion still stores a value (the
      zero value, or the clamped one for an out-of-range number). */
  datatype Conversion = Conversion(text: string, err: Option<ValueError>)

  /** The value types whose conversions (`strconv`, `time.ParseDuration`,
      `UnmarshalText`, a user function) are kept abstract. `CustomType` is a
      user-defined Value whose Set replaces what it holds (one that builds on
      its earlier contents, such as a list that appends, is not represented);
      `isBoolFlag` says whether it reports IsBoolFlag. */
  datatype ConvertedType =
    | IntType | Int64Type | UintType | Uint64Type | Float64Type | DurationType
    | TextType | FuncType | CustomType(isBoolFlag: bool)

  /** A conversion sees only Set's argument, not what the value held before. */
  datatype Kind =
    | BoolKind
    | StringKind
    | Converted(typ: ConvertedType, convert: string -> Conversion)

  /** `strconv.ParseBool`: the first character of an accepted text decides
      the value. */
  function ParseBool(s: string): (r: Option<bool>)
    ensures r.Some? ==> |s| > 0 && s[0] in "01tTfF"
    ensures r.Some? ==> (r.value <==> s[0] in "1tT")
  {
    if s in {"1", "t", "T", "TRUE", "true", "True"} then Some(true)
    else if s in {"0", "f", "F", "FALSE", "false", "False"} then Some(false)
    else None
  }

  /** `strconv.FormatBool`, which ParseBool reads back. */
  function FormatBool(b: bool): (t: string)
    ensures ParseBool(t) == Some(b)
  {
    if b then "true" else "false"
  }

  /** A flag's value: the variable behind Go's Value interface, updated in
      place by Set; `text` is what String() returns. */
  class Value {
    const kind: Kind
    var text: string

    /** A bool value's text is always what FormatBool gives. */
    constructor (kind: Kind, text: string)
      requires kind.BoolKind? ==> text == "true" || text == "false"
      ensures this.kind == kind && this.text == text
    {
      this.kind := kind;
      this.text := text;
    }

    function String(): (s: string)
      reads this
      ensures s == text
    {
      text
    }

    /** The `boolFlag` test: a value that reports IsBoolFlag takes no argument. */
    predicate IsBoolFlag(): (b: bool)
      ensures kind.BoolKind? ==> b
      ensures kind.StringKind? ==> !b
    {
      kind.BoolKind? || (kind.Converted? && kind.typ.CustomType? && kind.typ.isBoolFlag)
    }

    /** What Set(s) does: a bool parses with ParseBool (and stores false when
        that fails), a string takes `s` as it is, the others convert abstractly. */
    function Apply(s: string): (c: Conversion)
      ensures kind.BoolKind? ==> c.text == "true" || c.text == "false"
      ensures kind.StringKind? ==> c.err.None?
    {
      match kind
      case BoolKind =>
        (match ParseBool(s)
         case Some(b) => Conversion(FormatBool(b), None)
         case None => Conversion(FormatBool(false), Some(ErrParse)))
      case StringKind => Conversion(s, None)
      case Converted(_, convert) => convert(s)
    }

    method Set(s: string) returns (err: Option<ValueError>)
      modifies this
      ensures text == Apply(s).text && err == Apply(s).err
    {
      var c := Apply(s);
      text := c.text;
      err := c.err;
    }
  }

  /** A bool value accepts exactly what ParseBool accepts, stores the parsed
      value (false when parsing fails) and reports a failure as errParse. */
  lemma ApplyBool(v: Value, s: string)
    requires v.kind.BoolKind?
    ensures v.Apply(s).err.None? <==> ParseBool(s).Some?
    ensures v.Apply(s).text == FormatBool(ParseBool(s) == Some(true))
    ensures v.Apply(s).err.Some? ==> v.Apply(s).err == Some(ErrParse)
  {
  }

  /** A string value stores its argument as it is and never fails. */
  lemma ApplyString(v: Value, s: string)
    requires v.kind.StringKind?
    ensures v.Apply(s) == Conversion(s, None)
  {
  }

  /** A registered flag. The Value is shared, like Go's pointer. */
  datatype Flag = Flag(name: string, usage: string, value: Value, defValue: string)

  // ---------------------------------------------------------------------------
  // Errors and outcomes

  /** The errors the parser and `Set` return (each `failf` message, by kind). */
  datatype FlagError =
    | Help                                                      // errHelp
    | BadSyntax(arg: string)                                    // "Bad flag syntax"
    | NotDefined(name: string)                                  // "Flag provided but not defined"
    | InvalidBooleanValue(value: string, name: string, cause: ValueError)
    | InvalidBooleanFlag(name: string, cause: ValueError)
    | NeedsArgument(name: string)                               // "Flag needs an argument"
    | InvalidValue(value: string, name: string, cause: ValueError)
    | NoSuchFlag(name: string)                                  // Set on an unknown name
    | ValueFailed(cause: ValueError)                            // Set passes the Value's error on

  /** The panics of Var. */
  datatype DefineError =
    | BeginsWithDash(name: string)
    | ContainsEquals(name: string)
    | Redefined(setName: string, name: string)

  datatype ErrorHandling = ContinueOnError | ExitOnError | PanicOnError

  /** How Parse ends: normally, with an error returned, with `os.Exit(code)`, or
      with a panic. */
  datatype ParseResult = Completed | Failed(err: FlagError) | Exited(code: int) | Panicked(err: FlagError)

  function Outcome(h: ErrorHandling, err: Option<FlagError>): (r: ParseResult)
    ensures err.None? <==> r == Completed
    ensures err.Some? && h == ContinueOnError ==> r == Failed(err.value)
    ensures err.Some? && h == ExitOnError ==> r == Exited(if err.value == Help then 0 else 2)
    ensures err.Some? && h == PanicOnError ==> r == Panicked(err.value)
  {
    match err
    case None => Completed
    case Some(e) =>
      match h
      case ContinueOnError => Failed(e)
      case ExitOnError => Exited(if e == Help then 0 else 2)
      case PanicOnError => Panicked(e)
  }

  // ---------------------------------------------------------------------------
  // Scanning helpers

  /** The first index at or after `from` that holds `c`, or |s| if none does. */
  function IndexOf(s: string, c: char, from: nat): (k: nat)
    requires from <= |s|
    ensures from <= k <= |s|
    ensures k < |s| ==> s[k] == c
    ensures forall j :: from <= j < k ==> s[j] != c
    decreases |s| - from
  {
    if from == |s| || s[from] == c then from else IndexOf(s, c, from + 1)
  }

  /** A flag argument's text after its leading dashes, split at `=`. */
  datatype Split = Split(name: string, hasValue: bool, value: string)

  /** `-name=value` splits at the first `=` after the name's first character. */
  function SplitName(name: string): (r: Split)
    requires |name| >= 1
    ensures 1 <= |r.name| <= |name| && r.name[0] == name[0]
  {
    var k := IndexOf(name, '=', 1);
    if k < |name| then Split(name[..k], true, name[k + 1..])
    else Split(name, false, "")
  }

  /** The split is at the first `=`: the name keeps everything before it, the
      value (possibly empty, possibly holding further `=`) everything after;
      without an `=` the whole text is the name. */
  lemma SplitNameSplits(name: string)
    requires |name| >= 1
    ensures var r := SplitName(name);
            (r.hasValue ==> name == r.name + "=" + r.value) &&
            (!r.hasValue ==> r.name == name && r.value == "") &&
            (forall k :: 1 <= k < |r.name| ==> r.name[k] != '=') &&
            (!r.hasValue <==> forall k :: 1 <= k < |name| ==> name[k] != '=')
  {
    var k := IndexOf(name, '=', 1);
    if k < |name| {
      assert name == name[..k] + "=" + name[k + 1..];
    }
  }

  // ---------------------------------------------------------------------------
  // The registry invariants

  /** Every registered flag is filed under its own name. */
  predicate NamesMatch(formal: map<string, Flag>) {
    forall n :: n in formal ==> formal[n].name == n
  }

  /** Every flag that was set is the registered flag of that name. */
  predicate SetFlagsAreFormal(formal: map<string, Flag>, actual: map<string, Flag>) {
    forall n :: n in actual ==> n in formal && actual[n] == formal[n]
  }

  // ---------------------------------------------------------------------------
  // One parsing step

  /** A call `target.Set(input)` made by a step. */
  datatype Assignment = Assignment(target: Value, input: string)

  /** What parseOne returns and leaves behind: whether a flag was seen, the
      error, the remaining arguments, the set flags and the Set call made. */
  datatype StepResult = StepResult(
    seen: bool,
    err: Option<FlagError>,
    rest: seq<string>,
    actual: map<string, Flag>,
    setCall: Option<Assignment>)

  /** The number of leading dashes of a flag argument. */
  function Dashes(s: string): nat
    requires |s| >= 2
  {
    if s[1] == '-' then 2 else 1
  }

  /** parseOne as a function of the registered flags, the set flags and the
      remaining arguments. */
  function Step(formal: map<string, Flag>, actual: map<string, Flag>, args: seq<string>): (r: StepResult)
    ensures r.seen ==> r.err.None? && |r.rest| < |args|
    ensures IsSuffix(r.rest, args)
    ensures !r.seen ==> r.actual == actual
  {
    if |args| == 0 || |args[0]| < 2 || args[0][0] != '-' then
      StepResult(false, None, args, actual, None)
    else
      var s := args[0];
      if s == "--" then
        StepResult(false, None, args[1..], actual, None)
      else
        var name := s[Dashes(s)..];
        if |name| == 0 || name[0] == '-' || name[0] == '=' then
          StepResult(false, Some(BadSyntax(s)), args, actual, None)
        else
          var r := StepFlag(formal, actual, SplitName(name), args[1..]);
          SuffixTrans(args, args[1..], r.rest);
          r
  }

  /** The rest of parseOne, once the first argument has passed the syntax
      checks and been split; `rest` holds the arguments after it. */
  function StepFlag(formal: map<string, Flag>, actual: map<string, Flag>, split: Split, rest: seq<string>): (r: StepResult)
    ensures r.seen <==> r.err.None?
    ensures r.rest == rest || (|rest| > 0 && r.rest == rest[1..])
    ensures !r.seen ==> r.actual == actual
  {
    if split.name !in formal then
      var e := if split.name == "help" || split.name == "h" then Help else NotDefined(split.name);
      StepResult(false, Some(e), rest, actual, None)
    else
      var flag := formal[split.name];
      if flag.value.IsBoolFlag() then
        var input := if split.hasValue then split.value else "true";
        var c := flag.value.Apply(input);
        if c.err.Some? then
          var e := if split.hasValue then InvalidBooleanValue(split.value, split.name, c.err.value)
                   else InvalidBooleanFlag(split.name, c.err.value);
          StepResult(false, Some(e), rest, actual, Some(Assignment(flag.value, input)))
        else
          StepResult(true, None, rest, actual[split.name := flag], Some(Assignment(flag.value, input)))
      else if !split.hasValue && |rest| == 0 then
        StepResult(false, Some(NeedsArgument(split.name)), rest, actual, None)
      else
        var input := if split.hasValue then split.value else rest[0];
        var rest' := if split.hasValue then rest else rest[1..];
        var c := flag.value.Apply(input);
        if c.err.Some? then
          StepResult(false, Some(InvalidValue(input, split.name, c.err.value)), rest', actual,
                     Some(Assignment(flag.value, input)))
        else
          StepResult(true, None, rest', actual[split.name := flag], Some(Assignment(flag.value, input)))
  }

  // ---------------------------------------------------------------------------
  // Properties of one step

  /** A name `Var` accepts and that parseOne reads back whole: not empty, not
      starting with `-` or `=`, without `=`. */
  predicate WellFormedName(name: string) {
    |name| > 0 && name[0] != '-' && name[0] != '=' && '=' !in name
  }

  /** The argument `-name`, `--name`, `-name=value` or `--name=value`. */
  function FlagArg(double: bool, name: string, value: Option<string>): string {
    (if double then "--" else "-") + name + (match value case None => "" case Some(v) => "=" + v)
  }

  /** parseOne reads the name and the `=value` of such an argument back. */
  lemma FlagArgSplits(double: bool, name: string, value: Option<string>)
    requires WellFormedName(name)
    ensures var s := FlagArg(double, name, value);
            |s| >= 2 && s[0] == '-' && s != "--" &&
            |s[Dashes(s)..]| > 0 && s[Dashes(s)..][0] == name[0] &&
            SplitName(s[Dashes(s)..]) == Split(name, value.Some?, match value case None => "" case Some(v) => v)
  {
    var s := FlagArg(double, name, value);
    var dashes := if double then "--" else "-";
    var tail := name + (match value case None => "" case Some(v) => "=" + v);
    assert s == dashes + tail;
    assert s[|dashes|..] == tail;
    assert s[|dashes|] == name[0];
    assert Dashes(s) == |dashes|;
    NameThenValueSplits(name, value);
  }

  lemma NameThenValueSplits(name: string, value: Option<string>)
    requires WellFormedName(name)
    ensures var tail := name + (match value case None => "" case Some(v) => "=" + v);
            SplitName(tail) == Split(name, value.Some?, match value case None => "" case Some(v) => v)
  {
    var tail := name + (match value case None => "" case Some(v) => "=" + v);
    var k := IndexOf(tail, '=', 1);
    assert forall j :: 1 <= j < |name| ==> tail[j] == name[j];
    if value.Some? {
      assert tail[|name|] == '=';
      assert k == |name|;
      assert tail[..k] == name;
      assert tail[k + 1..] == value.value;
    } else {
      assert tail == name;
    }
  }

  /** `rest` is what is left of `args` after some arguments were taken. */
  predicate IsSuffix(rest: seq<string>, args: seq<string>) {
    |rest| <= |args| && rest == args[|args| - |rest|..]
  }

  lemma SuffixTrans(args: seq<string>, mid: seq<string>, rest: seq<string>)
    requires IsSuffix(mid, args) && IsSuffix(rest, mid)
    ensures IsSuffix(rest, args)
  {
    assert rest == args[|args| - |mid|..][|mid| - |rest|..];
  }

  /** A step sets only a registered flag, under its own name, and calls Set
      only on a registered flag's value; so it keeps every set flag a
      registered one. */
  lemma StepKeepsRegistry(formal: map<string, Flag>, actual: map<string, Flag>, args: seq<string>)
    ensures var r := Step(formal, actual, args);
            (r.seen ==> exists n :: n in formal && r.actual == actual[n := formal[n]]) &&
            (r.setCall.Some? ==> exists n :: n in formal && r.setCall.value.target == formal[n].value) &&
            (SetFlagsAreFormal(formal, actual) ==> SetFlagsAreFormal(formal, r.actual))
  {
    if |args| > 0 && |args[0]| >= 2 && args[0][0] == '-' && args[0] != "--" {
      var name := args[0][Dashes(args[0])..];
      if !(|name| == 0 || name[0] == '-' || name[0] == '=') {
        StepFlagKeepsRegistry(formal, actual, SplitName(name), args[1..]);
      }
    }
  }

  lemma StepFlagKeepsRegistry(formal: map<string, Flag>, actual: map<string, Flag>, split: Split, rest: seq<string>)
    ensures var r := StepFlag(formal, actual, split, rest);
            (r.seen ==> split.name in formal && r.actual == actual[split.name := formal[split.name]]) &&
            (r.setCall.Some? ==> split.name in formal && r.setCall.value.target == formal[split.name].value)
  {
  }

  /** `rest`, a suffix of `args`, is empty, starts with a non-flag, or is
      what followed a `--`. */
  predicate CleanStop(args: seq<string>, rest: seq<string>)
    requires |rest| <= |args|
  {
    |rest| == 0 || |rest[0]| < 2 || rest[0][0] != '-' ||
    (|rest| < |args| && args[|args| - |rest| - 1] == "--")
  }

  /** A clean stop stays one when earlier arguments are put back in front. */
  lemma CleanStopSuffix(args: seq<string>, mid: seq<string>, rest: seq<string>)
    requires IsSuffix(mid, args) && IsSuffix(rest, mid) && CleanStop(mid, rest)
    ensures CleanStop(args, rest)
  {
    if |rest| < |mid| && mid[|mid| - |rest| - 1] == "--" {
      assert mid[|mid| - |rest| - 1] == args[|args| - |rest| - 1];
    }
  }

  /** A step that stops without an error has called no Set, and either left
      the arguments as they were, at a non-flag, or consumed a `--`. */
  lemma StepStopsCleanly(formal: map<string, Flag>, actual: map<string, Flag>, args: seq<string>)
    ensures var r := Step(formal, actual, args);
            !r.seen && r.err.None? ==>
              r.setCall.None? &&
              ((r.rest == args && (|args| == 0 || |args[0]| < 2 || args[0][0] != '-')) ||
               (|args| > 0 && args[0] == "--" && r.rest == args[1..])) &&
              CleanStop(args, r.rest)
  {
    var r := Step(formal, actual, args);
    if |args| > 0 && |args[0]| >= 2 && args[0][0] == '-' && args[0] != "--" {
      var name := args[0][Dashes(args[0])..];
      if !(|name| == 0 || name[0] == '-' || name[0] == '=') {
        assert r == StepFlag(formal, actual, SplitName(name), args[1..]);
        assert r.seen || r.err.Some?;
      }
    }
  }

  /** Stops, consuming nothing, when no argument is left, the first is shorter
      than two characters or does not start with `-`. */
  lemma StepStopsAtNonFlag(formal: map<string, Flag>, actual: map<string, Flag>, args: seq<string>)
    requires |args| == 0 || |args[0]| < 2 || args[0][0] != '-'
    ensures Step(formal, actual, args) == StepResult(false, None, args, actual, None)
  {
  }

  /** `--` is consumed and ends the flags without an error. */
  lemma StepTerminator(formal: map<string, Flag>, actual: map<string, Flag>, args: seq<string>)
    requires |args| > 0 && args[0] == "--"
    ensures Step(formal, actual, args) == StepResult(false, None, args[1..], actual, None)
  {
  }

  /** An empty name, or one that starts with `-` or `=` after the dashes, is an
      error and the argument stays in place. */
  lemma StepBadSyntax(formal: map<string, Flag>, actual: map<string, Flag>, args: seq<string>)
    requires |args| > 0 && |args[0]| >= 2 && args[0][0] == '-' && args[0] != "--"
    requires var name := args[0][Dashes(args[0])..];
             |name| == 0 || name[0] == '-' || name[0] == '='
    ensures Step(formal, actual, args) == StepResult(false, Some(BadSyntax(args[0])), args, actual, None)
  {
  }

  /** A name that is not registered is an error (errHelp for `help` and `h`);
      its argument is consumed, nothing is set. */
  lemma StepUndefined(formal: map<string, Flag>, actual: map<string, Flag>, args: seq<string>,
                      double: bool, name: string, value: Option<string>)
    requires WellFormedName(name) && name !in formal
    requires |args| > 0 && args[0] == FlagArg(double, name, value)
    ensures Step(formal, actual, args) ==
            StepResult(false, Some(if name == "help" || name == "h" then Help else NotDefined(name)),
                       args[1..], actual, None)
  {
    FlagArgSplits(double, name, value);
  }

  /** `-name=value`: the value after the first `=` is given to Set, whatever
      the flag's type, and no further argument is consumed. */
  lemma StepWithValue(formal: map<string, Flag>, actual: map<string, Flag>, args: seq<string>,
                      double: bool, name: string, value: string)
    requires WellFormedName(name) && name in formal
    requires |args| > 0 && args[0] == FlagArg(double, name, Some(value))
    ensures var r := Step(formal, actual, args);
            var v := formal[name].value;
            r.setCall == Some(Assignment(v, value)) && r.rest == args[1..] &&
            (r.seen <==> v.Apply(value).err.None?) &&
            r.actual == (if r.seen then actual[name := formal[name]] else actual)
  {
    FlagArgSplits(double, name, Some(value));
  }

  /** A bare bool flag is Set("true") and consumes no further argument. */
  lemma StepBareBoolFlag(formal: map<string, Flag>, actual: map<string, Flag>, args: seq<string>,
                         double: bool, name: string)
    requires WellFormedName(name) && name in formal && formal[name].value.IsBoolFlag()
    requires |args| > 0 && args[0] == FlagArg(double, name, None)
    ensures var r := Step(formal, actual, args);
            var v := formal[name].value;
            r.setCall == Some(Assignment(v, "true")) && r.rest == args[1..] &&
            (r.seen <==> v.Apply("true").err.None?) &&
            r.actual == (if r.seen then actual[name := formal[name]] else actual)
  {
    FlagArgSplits(double, name, None);
  }

  /** A bare flag of any other type takes exactly the next argument as its
      value. */
  lemma StepBareFlagTakesNext(formal: map<string, Flag>, actual: map<string, Flag>, args: seq<string>,
                              double: bool, name: string)
    requires WellFormedName(name) && name in formal && !formal[name].value.IsBoolFlag()
    requires |args| >= 2 && args[0] == FlagArg(double, name, None)
    ensures var r := Step(formal, actual, args);
            var v := formal[name].value;
            r.setCall == Some(Assignment(v, args[1])) && r.rest == args[2..] &&
            (r.seen <==> v.Apply(args[1]).err.None?) &&
            r.actual == (if r.seen then actual[name := formal[name]] else actual)
  {
    FlagArgSplits(double, name, None);
  }

  /** ... and fails when it is the last argument. */
  lemma StepNeedsArgument(formal: map<string, Flag>, actual: map<string, Flag>, args: seq<string>,
                          double: bool, name: string)
    requires WellFormedName(name) && name in formal && !formal[name].value.IsBoolFlag()
    requires args == [FlagArg(double, name, None)]
    ensures Step(formal, actual, args) == StepResult(false, Some(NeedsArgument(name)), [], actual, None)
  {
    FlagArgSplits(double, name, None);
    assert args[1..] == [];
    assert Step(formal, actual, args) == StepFlag(formal, actual, Split(name, false, ""), []);
  }

  // ---------------------------------------------------------------------------
  // The parsing loop

  /** What Parse's loop ends with: the error of its last step, the remaining
      arguments, the set flags and, in order, every Set call its steps made. */
  datatype LoopResult = LoopResult(
    err: Option<FlagError>,
    rest: seq<string>,
    actual: map<string, Flag>,
    calls: seq<Assignment>)

  function CallsOf(call: Option<Assignment>): seq<Assignment> {
    match call
    case None => []
    case Some(a) => [a]
  }

  /** Parse's loop: steps are repeated while they see a flag; the first step
      that does not gives the result. */
  function ParseLoop(formal: map<string, Flag>, actual: map<string, Flag>, args: seq<string>): (r: LoopResult)
    ensures IsSuffix(r.rest, args)
    ensures SetFlagsAreFormal(formal, actual) ==> SetFlagsAreFormal(formal, r.actual)
    decreases |args|
  {
    var st := Step(formal, actual, args);
    StepKeepsRegistry(formal, actual, args);
    if st.seen then
      var r := ParseLoop(formal, st.actual, st.rest);
      SuffixTrans(args, st.rest, r.rest);
      LoopResult(r.err, r.rest, r.actual, CallsOf(st.setCall) + r.calls)
    else LoopResult(st.err, st.rest, st.actual, CallsOf(st.setCall))
  }

  /** The text a value ends with after the Set calls `calls`, starting from
      `initial`: what the last call on it stores, since a Set of any Value
      modelled here replaces the whole value; `initial` when no call is on it. */
  function TextAfterCalls(v: Value, calls: seq<Assignment>, initial: string): string
    decreases |calls|
  {
    if |calls| == 0 then initial
    else if calls[|calls| - 1].target == v then v.Apply(calls[|calls| - 1].input).text
    else TextAfterCalls(v, calls[..|calls| - 1], initial)
  }

  /** One more step's Set call on top of earlier ones. */
  lemma TextAfterOneMoreCall(v: Value, done: seq<Assignment>, call: Option<Assignment>, initial: string)
    ensures TextAfterCalls(v, done + CallsOf(call), initial) ==
            if call.Some? && call.value.target == v then v.Apply(call.value.input).text
            else TextAfterCalls(v, done, initial)
  {
    if call.Some? {
      assert (done + [call.value])[..|done|] == done;
    } else {
      assert done + [] == done;
    }
  }

  /** A loop that ends without an error leaves no argument, a non-flag
      argument, or the arguments that followed a `--`. */
  lemma {:induction false} ParseLoopStopsCleanly(formal: map<string, Flag>, actual: map<string, Flag>, args: seq<string>)
    ensures var r := ParseLoop(formal, actual, args);
            r.err.None? ==> CleanStop(args, r.rest)
    decreases |args|
  {
    var st := Step(formal, actual, args);
    StepStopsCleanly(formal, actual, args);
    if st.seen {
      var r := ParseLoop(formal, st.actual, st.rest);
      ParseLoopStopsCleanly(formal, st.actual, st.rest);
      if r.err.None? {
        CleanStopSuffix(args, st.rest, r.rest);
      }
    }
  }

  // ---------------------------------------------------------------------------
  // The flag set

  /** The texts of `values` after a step that made the Set call `call`: the
      target holds what its Set stores, every other value is untouched. */
  twostate predicate TextsAfter(values: set<Value>, call: Option<Assignment>)
    reads values
  {
    forall v :: v in values ==>
      v.text == (if call.Some? && v == call.value.target then v.Apply(call.value.input).text else old(v.text))
  }

  /** A snapshot of the texts of some values. */
  function Texts(values: set<Value>): (t: map<Value, string>)
    reads values
    ensures t.Keys == values
    ensures forall v :: v in values ==> t[v] == v.text
  {
    map v | v in values :: v.text
  }

  /** Putting a step's calls between the earlier and the later ones. */
  lemma AppendAssociates<T>(a: seq<T>, b: seq<T>, c: seq<T>)
    ensures a + (b + c) == (a + b) + c
  {
  }

  /** The texts after one more step, given the texts before it. */
  lemma TextsAfterOneMoreStep(initial: map<Value, string>, before: map<Value, string>, after: map<Value, string>,
                              done: seq<Assignment>, call: Option<Assignment>)
    requires before.Keys == initial.Keys && after.Keys == initial.Keys
    requires forall v :: v in initial ==> before[v] == TextAfterCalls(v, done, initial[v])
    requires forall v :: v in initial ==>
               after[v] == (if call.Some? && v == call.value.target then v.Apply(call.value.input).text else before[v])
    ensures forall v :: v in initial ==> after[v] == TextAfterCalls(v, done + CallsOf(call), initial[v])
  {
    forall v | v in initial
      ensures after[v] == TextAfterCalls(v, done + CallsOf(call), initial[v])
    {
      TextAfterOneMoreCall(v, done, call, initial[v]);
    }
  }

  class FlagSet {
    var name: string
    var errorHandling: ErrorHandling
    var parsed: bool
    var actual: map<string, Flag>
    var formal: map<string, Flag>
    var args: seq<string>

    ghost predicate Valid()
      reads this`formal, this`actual
    {
      NamesMatch(formal) && SetFlagsAreFormal(formal, actual)
    }

    /** The Values of the registered flags: what a Set may change. */
    ghost function Values(): set<Value>
      reads this`formal
    {
      set n | n in formal :: formal[n].value
    }

    /** NewFlagSet: no flags, no arguments, not parsed. */
    constructor (name: string, errorHandling: ErrorHandling)
      ensures Valid()
      ensures this.name == name && this.errorHandling == errorHandling
      ensures !parsed && formal == map[] && actual == map[] && args == []
    {
      this.name := name;
      this.errorHandling := errorHandling;
      parsed := false;
      formal := map[];
      actual := map[];
      args := [];
    }

    method Init(name: string, errorHandling: ErrorHandling)
      modifies this`name, this`errorHandling
      ensures this.name == name && this.errorHandling == errorHandling
    {
      this.name := name;
      this.errorHandling := errorHandling;
    }

    /** The registered flag of that name, or nil. */
    function Lookup(name: string): (r: Option<Flag>)
      requires NamesMatch(formal)
      reads this`formal
      ensures r.Some? <==> name in formal
      ensures r.Some? ==> r.value == formal[name] && r.value.name == name
    {
      if name in formal then Some(formal[name]) else None
    }

    /** The number of flags that have been set. */
    function NFlag(): (n: nat)
      reads this`actual
      ensures n == |actual.Keys|
    {
      |actual|
    }

    /** The i'th remaining argument, or "" when there is none. */
    function Arg(i: int): (s: string)
      reads this`args
      ensures 0 <= i < |args| ==> s == args[i]
      ensures (i < 0 || i >= |args|) ==> s == ""
    {
      if i < 0 || i >= |args| then "" else args[i]
    }

    /** The number of remaining arguments. */
    function NArg(): (n: nat)
      reads this`args
      ensures n == |args|
    {
      |args|
    }

    /** The remaining arguments. */
    function Args(): (r: seq<string>)
      reads this`args
      ensures |r| == NArg() && forall i :: 0 <= i < |r| ==> r[i] == Arg(i)
    {
      args
    }

    /** Whether Parse has been called. */
    function Parsed(): (b: bool)
      reads this`parsed
      ensures b == parsed
    {
      parsed
    }

    /** Var registers a flag; a name that begins with `-`, contains `=` or is
        already registered is refused (Go panics), in that order of checks. */
    method Var(value: Value, name: string, usage: string) returns (err: Option<DefineError>)
      requires Valid()
      modifies this`formal
      ensures Valid()
      ensures
        if |name| > 0 && name[0] == '-' then
          err == Some(BeginsWithDash(name)) && formal == old(formal)
        else if '=' in name then
          err == Some(ContainsEquals(name)) && formal == old(formal)
        else if name in old(formal) then
          err == Some(Redefined(this.name, name)) && formal == old(formal)
        else
          err == None && formal == old(formal)[name := Flag(name, usage, value, value.String())]
    {
      if |name| > 0 && name[0] == '-' {
        return Some(BeginsWithDash(name));
      } else if '=' in name {
        return Some(ContainsEquals(name));
      }
      var flag := Flag(name, usage, value, value.String());
      if name in formal {
        return Some(Redefined(this.name, name));
      }
      formal := formal[name := flag];
      err := None;
    }

    /** Set assigns a registered flag's value and, when that succeeds, records
        the flag as set. */
    method Set(name: string, value: string) returns (err: Option<FlagError>)
      requires Valid()
      modifies this`actual, if name in formal then {formal[name].value} else {}
      ensures Valid()
      ensures formal == old(formal)
      ensures name !in formal ==> err == Some(NoSuchFlag(name)) && actual == old(actual)
      ensures name in formal ==>
                var v := formal[name].value;
                var c := v.Apply(value);
                v.text == c.text &&
                (c.err.Some? ==> err == Some(ValueFailed(c.err.value)) && actual == old(actual)) &&
                (c.err.None? ==> err == None && actual == old(actual)[name := formal[name]])
    {
      if name !in formal {
        return Some(NoSuchFlag(name));
      }
      var flag := formal[name];
      var e := flag.value.Set(value);
      if e.Some? {
        return Some(ValueFailed(e.value));
      }
      actual := actual[name := flag];
      err := None;
    }

    /** parseOne: examines the first remaining argument. */
    method ParseOne() returns (seen: bool, err: Option<FlagError>)
      requires Valid()
      modifies this`args, this`actual, Values()
      ensures Valid() && formal == old(formal)
      ensures var st := Step(old(formal), old(actual), old(args));
              seen == st.seen && err == st.err && args == st.rest && actual == st.actual
      ensures TextsAfter(old(Values()), Step(old(formal), old(actual), old(args)).setCall)
    {
      if |args| == 0 {
        return false, None;
      }
      var s := args[0];
      if |s| < 2 || s[0] != '-' {
        return false, None;
      }
      var numMinuses := 1;
      if s[1] == '-' {
        numMinuses := numMinuses + 1;
        if |s| == 2 {
          args := args[1..];
          return false, None;
        }
      }
      var name := s[numMinuses..];
      if |name| == 0 || name[0] == '-' || name[0] == '=' {
        return false, Some(BadSyntax(s));
      }

      args := args[1..];
      assert numMinuses == Dashes(s);
      var flagName, hasValue, value := SplitArgument(name);
      seen, err := ParseNamed(flagName, hasValue, value);
    }

    /** The scan for the first `=` after the name's first character. */
    static method SplitArgument(name: string) returns (flagName: string, hasValue: bool, value: string)
      requires |name| > 0
      ensures Split(flagName, hasValue, value) == SplitName(name)
    {
      flagName, hasValue, value := name, false, "";
      var i := 1;
      while i < |name|
        invariant 1 <= i <= |name|
        invariant forall k :: 1 <= k < i ==> name[k] != '='
      {
        if name[i] == '=' {
          return name[0..i], true, name[i + 1..];
        }
        i := i + 1;
      }
    }

    /** The rest of parseOne, once the argument has been split and consumed. */
    method ParseNamed(name: string, hasValue: bool, value: string) returns (seen: bool, err: Option<FlagError>)
      requires Valid()
      modifies this`args, this`actual, Values()
      ensures Valid() && formal == old(formal)
      ensures var st := StepFlag(old(formal), old(actual), Split(name, hasValue, value), old(args));
              seen == st.seen && err == st.err && args == st.rest && actual == st.actual
      ensures TextsAfter(old(Values()), StepFlag(old(formal), old(actual), Split(name, hasValue, value), old(args)).setCall)
    {
      if name !in formal {
        if name == "help" || name == "h" {
          return false, Some(Help);
        }
        return false, Some(NotDefined(name));
      }
      var flag := formal[name];
      assert flag.value in Values();
      if flag.value.IsBoolFlag() {
        if hasValue {
          var e := flag.value.Set(value);
          if e.Some? {
            return false, Some(InvalidBooleanValue(value, name, e.value));
          }
        } else {
          var e := flag.value.Set("true");
          if e.Some? {
            return false, Some(InvalidBooleanFlag(name, e.value));
          }
        }
      } else {
        var input := value;
        if !hasValue {
          if |args| == 0 {
            return false, Some(NeedsArgument(name));
          }
          input, args := args[0], args[1..];
        }
        var e := flag.value.Set(input);
        if e.Some? {
          return false, Some(InvalidValue(input, name, e.value));
        }
      }
      actual := actual[name := flag];
      return true, None;
    }

    /** Parse's loop: parseOne until it sees no flag. */
    method ParseAll() returns (err: Option<FlagError>)
      requires Valid()
      modifies this`args, this`actual, Values()
      ensures Valid() && formal == old(formal)
      ensures var pl := ParseLoop(old(formal), old(actual), old(args));
              err == pl.err && args == pl.rest && actual == pl.actual
      ensures var pl := ParseLoop(old(formal), old(actual), old(args));
              forall v :: v in old(Values()) ==> v.text == TextAfterCalls(v, pl.calls, old(v.text))
    {
      ghost var goal := ParseLoop(formal, actual, args);
      ghost var initial := Texts(Values());
      ghost var done: seq<Assignment> := [];
      var seen := true;
      err := None;
      while seen
        invariant Valid() && formal == old(formal)
        invariant seen ==>
                    var cur := ParseLoop(formal, actual, args);
                    cur.err == goal.err && cur.rest == goal.rest && cur.actual == goal.actual &&
                    done + cur.calls == goal.calls
        invariant !seen ==> goal == LoopResult(err, args, actual, done)
        invariant forall v :: v in initial ==> v.text == TextAfterCalls(v, done, initial[v])
        decreases seen, |args|
      {
        ghost var st := Step(formal, actual, args);
        ghost var before := Texts(initial.Keys);
        seen, err := ParseOne();
        TextsAfterOneMoreStep(initial, before, Texts(initial.Keys), done, st.setCall);
        if seen {
          AppendAssociates(done, CallsOf(st.setCall), ParseLoop(formal, actual, args).calls);
        }
        done := done + CallsOf(st.setCall);
      }
    }

    /** Parse: marks the set parsed, takes the arguments and runs parseOne until
        it stops; the error handling mode decides what an error does. */
    method Parse(arguments: seq<string>) returns (r: ParseResult)
      requires Valid()
      modifies this`parsed, this`args, this`actual, Values()
      ensures Valid() && parsed && formal == old(formal)
      ensures var pl := ParseLoop(old(formal), old(actual), arguments);
              args == pl.rest && actual == pl.actual && r == Outcome(errorHandling, pl.err)
      ensures var pl := ParseLoop(old(formal), old(actual), arguments);
              forall v :: v in old(Values()) ==> v.text == TextAfterCalls(v, pl.calls, old(v.text))
    {
      parsed := true;
      args := arguments;
      var err := ParseAll();
      if err.None? {
        return Completed;
      }
      match errorHandling
      case ContinueOnError => r := Failed(err.value);
      case ExitOnError => r := Exited(if err.value == Help then 0 else 2);
      case PanicOnError => r := Panicked(err.value);
    }
  }

  // ---------------------------------------------------------------------------
  // Usage names

  /** The placeholder name used when the usage text has no backquoted name. */
  function FallbackName(v: Value): (name: string)
    ensures forall k :: 0 <= k < |name| ==> 'a' <= name[k] <= 'z'
  {
    if v.IsBoolFlag() then ""
    else match v.kind
      case Converted(DurationType, _) => "duration"
      case Converted(Float64Type, _) => "float"
      case Converted(IntType, _) => "int"
      case Converted(Int64Type, _) => "int"
      case StringKind => "string"
      case Converted(UintType, _) => "uint"
      case Converted(Uint64Type, _) => "uint"
      case _ => "value"
  }

  /** UnquoteUsage: the first backquoted word of the usage text names the
      flag's argument and loses its backquotes; without a closed pair, the name
      comes from the value's type and the usage is returned as it is. */
  method UnquoteUsage(flag: Flag) returns (name: string, usage: string)
    ensures var u := flag.usage;
            var i := IndexOf(u, '`', 0);
            if i < |u| && IndexOf(u, '`', i + 1) < |u| then
              var j := IndexOf(u, '`', i + 1);
              name == u[i + 1..j] && usage == u[..i] + name + u[j + 1..]
            else
              name == FallbackName(flag.value) && usage == u
    ensures forall k :: 0 <= k < |name| ==> name[k] != '`'
  {
    usage := flag.usage;
    var i := 0;
    while i < |usage|
      invariant 0 <= i <= |usage| && usage == flag.usage
      invariant forall k :: 0 <= k < i ==> usage[k] != '`'
    {
      if usage[i] == '`' {
        var j := i + 1;
        while j < |usage|
          invariant i + 1 <= j <= |usage|
          invariant forall k :: i + 1 <= k < j ==> usage[k] != '`'
        {
          if usage[j] == '`' {
            assert IndexOf(usage, '`', 0) == i && IndexOf(usage, '`', i + 1) == j;
            name := usage[i + 1..j];
            usage := usage[..i] + name + usage[j + 1..];
            return name, usage;
          }
          j := j + 1;
        }
        assert IndexOf(usage, '`', i + 1) == |usage|;
        break;
      }
      i := i + 1;
    }
    name := FallbackName(flag.value);
  }

  // ---------------------------------------------------------------------------
  // Name order and sortFlags

  /** Go's `<` on strings: lexicographic, a proper prefix first. */
  predicate Less(a: string, b: string)
    decreases |a|
  {
    if |a| == 0 then |b| > 0
    else if |b| == 0 then false
    else a[0] < b[0] || (a[0] == b[0] && Less(a[1..], b[1..]))
  }

  lemma {:induction false} LessIrreflexive(a: string)
    ensures !Less(a, a)
    decreases |a|
  {
    if |a| > 0 {
      LessIrreflexive(a[1..]);
    }
  }

  lemma {:induction false} LessTransitive(a: string, b: string, c: string)
    requires Less(a, b) && Less(b, c)
    ensures Less(a, c)
    decreases |a|
  {
    if |a| > 0 && a[0] == b[0] && b[0] == c[0] {
      LessTransitive(a[1..], b[1..], c[1..]);
    }
  }

  lemma {:induction false} LessTotal(a: string, b: string)
    requires a != b
    ensures Less(a, b) || Less(b, a)
    decreases |a|
  {
    if |a| > 0 && |b| > 0 && a[0] == b[0] {
      assert a == [a[0]] + a[1..] && b == [b[0]] + b[1..];
      LessTotal(a[1..], b[1..]);
    }
  }

  /** The least name of a non-empty set. */
  method LeastName(names: set<string>) returns (m: string)
    requires names != {}
    ensures m in names
    ensures forall x :: x in names && x != m ==> Less(m, x)
  {
    var todo := names;
    m :| m in todo;
    todo := todo - {m};
    while todo != {}
      invariant todo <= names && m in names && m !in todo
      invariant forall x :: x in names - todo && x != m ==> Less(m, x)
      decreases |todo|
    {
      var x :| x in todo;
      if Less(x, m) {
        forall y | y in names - todo && y != m
          ensures Less(x, y)
        {
          LessTransitive(x, m, y);
        }
        m := x;
      } else {
        LessTotal(x, m);
      }
      todo := todo - {x};
    }
  }

  /** The names of a set, each once, in increasing order (selection of the
      least remaining name). */
  method SortedNames(names: set<string>) returns (order: seq<string>)
    ensures |order| == |names|
    ensures forall k :: 0 <= k < |order| ==> order[k] in names
    ensures forall n :: n in names ==> n in order
    ensures forall k, m :: 0 <= k < m < |order| ==> Less(order[k], order[m])
  {
    var rest := names;
    order := [];
    while rest != {}
      invariant rest <= names && |order| + |rest| == |names|
      invariant forall k :: 0 <= k < |order| ==> order[k] in names && order[k] !in rest
      invariant forall n :: n in names ==> n in rest || n in order
      invariant forall k, m :: 0 <= k < m < |order| ==> Less(order[k], order[m])
      invariant forall k, x :: 0 <= k < |order| && x in rest ==> Less(order[k], x)
      decreases |rest|
    {
      var m := LeastName(rest);
      order := order + [m];
      rest := rest - {m};
    }
  }

  /** sortFlags: every flag of the map once, in increasing name order. The
      array is filled by index in name order. */
  method SortFlags(flags: map<string, Flag>) returns (result: seq<Flag>)
    requires NamesMatch(flags)
    ensures |result| == |flags|
    ensures forall i, j :: 0 <= i < j < |result| ==> Less(result[i].name, result[j].name)
    ensures forall i :: 0 <= i < |result| ==> result[i].name in flags && flags[result[i].name] == result[i]
    ensures forall n :: n in flags ==> flags[n] in result
  {
    var order := SortedNames(flags.Keys);
    if |order| == 0 {
      return [];
    }
    var f0 := flags[order[0]];
    var a := new Flag[|order|](_ => f0);
    for i := 0 to |order|
      invariant forall k :: 0 <= k < i ==> a[k] == flags[order[k]]
    {
      a[i] := flags[order[i]];
    }
    result := a[..];
    assert forall k :: 0 <= k < |order| ==> result[k].name == order[k];
    forall n | n in flags
      ensures flags[n] in result
    {
      var k :| 0 <= k < |order| && order[k] == n;
      assert result[k] == flags[n];
    }
  }
}
