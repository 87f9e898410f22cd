# compressembed core, modelled in Dafny

compressembed is a command-line tool. It compresses an input file into a binary
artifact, using a random base64 key as the preset dictionary, and generates a
Go source file that embeds and decompresses that artifact. This project models
two parts of it:

- **The vendored command-line flag package (`lib/flag/flag.go`)**, module `Flag` in `flag.dfy`.
  - A `FlagSet` class holds:
    - the registered flags (`formal`);
    - the flags that have been set (`actual`);
    - the arguments not yet consumed (`args`);
    - the `parsed` mark and the error-handling mode.
  - Each flag's value is a `Value` object that `Set` updates in place. It is shared between `formal` and `actual`, as Go's pointers are.
  - `parseOne` is written twice:
    - `Step`, a function of the registered flags, the set flags and the remaining arguments;
    - `FlagSet.ParseOne`, an imperative method proved against `Step`.
  - `Parse` is proved against the recursive function `ParseLoop`. Its contract also states the text every value ends with after the successive `Set` calls.
  - `Var`, `Set`, `Lookup`, `Arg`, `NArg`, `NFlag`, `UnquoteUsage` and `sortFlags` are methods or functions with contracts.
- **The pipeline of `lib/lib.go`**, module `Lib` in `lib.dfy`.
  - `StrGen` draws identifier characters from the 63-character charset. The randomness is a supplied sequence of draws.
  - The identifier check `^[a-zA-Z_][a-zA-Z0-9_]*$` is written as character classes and related to an automaton for the pattern.
  - `KeyGen` turns 32 supplied bytes into unpadded standard base64.
  - `Run` is a method over a `FileSystem` object that holds a map from path to contents.
- **Base64 (`base64.dfy`)**, the `RawStdEncoding` the pipeline relies on.
  - It uses the alphabet of table 1 in section 4 of RFC 4648, without the padding that section 3.2 allows an encoding to omit.
  - Decoding works as Go's decoder does: it skips `\r` and `\n` and rejects `=`, any other character outside the alphabet, and a final group of one character.
  - With these definitions the KeyGen round trip can be proved.

`wrappers.dfy` holds the `Option` type.

### Where the design notes and the code disagree

In each case below the model follows the code.

- **A nil `Compress` result.** The design notes recommend treating it as a fatal error. `Run` writes it as an empty artifact (lib/lib.go:78). See `Lib.Artifact` and `Lib.Run`.
- **A malformed key.** The design notes say a malformed key is detected before any destructive action. The code creates, and so truncates, the output file (lib/lib.go:70) before it decodes the key (lib/lib.go:74-77). A bad key therefore empties an existing artifact. `Lib.Run` states this: the output path then holds no bytes.
- **Reading before validating.** The design notes put validation first. The code reads the input (lib/lib.go:61-64) before it checks the variable name (lib/lib.go:66-68). A missing input is therefore reported even when the name is invalid. Neither failure touches a file.
- **Identifier sampling.** The design notes prefer drawing the first character from a digit-free alphabet. The code draws the whole string from the full charset and starts over when its first character is a digit (lib/lib.go:43-48). `Lib.Generate` and `Lib.StrGen` model that rejection sampling.

The run configuration is the datatype `Lib.Config` (lib/lib.go:17-26). It has the same eight fields, and `Run` and the template take it as it is.

## Model

| member | source | states |
|---|---|---|
| Base64.EncodeSextet | lib/lib.go:34 | each 6-bit value maps to an alphabet character that decodes back to it |
| Base64.DecodeSextet | lib/lib.go:74 | defined exactly on the 64 alphabet characters (never `=`, `\r`, `\n`), with a value below 64 |
| Base64.Encode | lib/lib.go:34 | unpadded encoding: (4n+2)/3 characters for n bytes, all from the alphabet |
| Base64.DecodeQuanta | lib/lib.go:74 | the decoder proper, four characters at a time; a final group of one character is rejected |
| Base64.RemoveNewlines | lib/lib.go:74 | the decoder's view of the text: no longer than it, with no `\r` or `\n` left |
| Base64.Decode | lib/lib.go:74 | a successful decode yields 3/4 (rounded down) of the characters left once line breaks are removed |
| Base64.DecodeLength | lib/lib.go:74 | the same length law for the text once line breaks are removed |
| Base64.RemoveNewlinesOfAlphabet | lib/lib.go:74 | an encoder's output has no line breaks to remove |
| Base64.DecodeOneQuantum | lib/lib.go:34 | four characters that encode three bytes decode back to those bytes in front of whatever the rest decodes to |
| Base64.DecodeQuantaEncode | lib/lib.go:34 | decoding an encoding gives back the bytes, by induction over groups of three |
| Base64.RoundTrip | lib/lib.go:74 | `Decode(Encode(b)) == Some(b)` for every byte sequence |
| Base64.DecodeRejectsPadding | lib/lib.go:74 | any `=` in the key makes decoding fail (the unpadded encoding) |
| Base64.QuantaRejectBadChar | lib/lib.go:74 | any character outside the alphabet makes decoding fail |
| Lib.IsValidVariableName | lib/lib.go:51-54 | an accepted name is non-empty, does not start with a digit and has only identifier characters |
| Lib.IsValidVariableNameMatchesPattern | lib/lib.go:51-54 | the character-class predicate holds exactly when the automaton for `^[a-zA-Z_][a-zA-Z0-9_]*$` accepts |
| Lib.InNameAccepts | lib/lib.go:52 | after the first character the pattern accepts exactly when every remaining character is in `[a-zA-Z0-9_]` |
| Lib.DeadStaysDead | lib/lib.go:52 | once a character breaks the pattern no suffix can match |
| Lib.VariableNameExamples | lib/lib.go:51-54 | `""`, `"1bad"` and `"a-b"` are rejected and `"payload"` is accepted |
| Lib.CharsetClasses | lib/lib.go:38 | the charset has 63 characters, all allowed in identifiers, and exactly the last ten (index 53 on) are digits |
| Lib.CharsetAt | lib/lib.go:41 | a draw picks a charset character allowed in identifiers |
| Lib.Sample | lib/lib.go:39-42 | one attempt has one charset character per draw |
| Lib.Generate | lib/lib.go:37-49 | a generated string has the requested length, only charset characters, no leading digit, and passes IsValidVariableName |
| Lib.StrGen | lib/lib.go:37-49 | the buffer loop and the retry give Generate's result; when the first attempt's first character is not a digit, that attempt is returned |
| Lib.KeyGen | lib/lib.go:31-35 | 32 bytes become 43 characters without `=` that decode back to exactly those bytes |
| Lib.Artifact | lib/lib.go:78 | the bytes written are the compressed bytes, or none when Compress returns nil |
| Lib.FileSystem.ReadFile | lib/lib.go:61-64 | reading fails exactly for a path that is not a readable file (`files` holds the readable ones) and otherwise returns its contents |
| Lib.FileSystem.Create | lib/lib.go:70-73 | creating truncates or creates the file, unless the path cannot be created, in which case nothing changes |
| Lib.FileSystem.Write | lib/lib.go:78 | a write appends to the open file |
| Lib.Run | lib/lib.go:60-95 | the files after each failure point and after success: no file changes before the output is created; a bad key leaves an empty output; success writes the artifact and the rendered source; no path other than the two configured ones ever changes |
| Flag.ParseBool | lib/flag/flag.go:44 | `strconv.ParseBool`: an accepted text starts with one of `01tTfF`, and that first character decides the value |
| Flag.FormatBool | lib/flag/flag.go:54 | `strconv.FormatBool`, whose output ParseBool reads back to the same bool |
| Flag.Value.constructor | lib/flag/flag.go:54 | a new value holds the given kind and text; a bool value's text must be `true` or `false`, as boolValue.String() gives |
| Flag.Value.String | lib/flag/flag.go:240-243 | String() is the value's current text |
| Flag.Value.IsBoolFlag | lib/flag/flag.go:56-61 | the boolFlag test: a bool value reports it and a string value does not |
| Flag.Value.Apply | lib/flag/flag.go:240-243 | what Set does to a value: a bool's text is always `true` or `false`, and a string's Set never fails |
| Flag.Value.Set | lib/flag/flag.go:43-50 | the value's text and the error afterwards are those of its conversion; a failed conversion still stores a value |
| Flag.ApplyBool | lib/flag/flag.go:43-50 | a bool value accepts exactly what ParseBool accepts, stores false when parsing fails, and reports `errParse` |
| Flag.ApplyString | lib/flag/flag.go:150-153 | a string value stores its argument unchanged and never fails |
| Flag.Outcome | lib/flag/flag.go:785-800 | no error completes the parse; `ContinueOnError` returns the error, `ExitOnError` exits with 0 for errHelp and 2 otherwise, `PanicOnError` panics with the error |
| Flag.SplitName | lib/flag/flag.go:726-735 | the name part is non-empty and keeps the first character |
| Flag.SplitNameSplits | lib/flag/flag.go:726-735 | the split is at the first `=` at index 1 or later: name, `=` and value concatenate back to the text, the name holds no `=`, and the value may be empty or contain further `=`; there is no value exactly when there is no such `=` |
| Flag.FlagSet.SplitArgument | lib/flag/flag.go:726-735 | the scanning loop computes SplitName |
| Flag.Step | lib/flag/flag.go:704-775 | a step that sees a flag has no error and consumes at least one argument; the remaining arguments are a suffix of the old ones; a step that sees none leaves the set flags as they were |
| Flag.StepFlag | lib/flag/flag.go:737-775 | after the name is split, a flag is seen exactly when there is no error; at most one further argument is consumed; a failure sets nothing |
| Flag.FlagArgSplits | lib/flag/flag.go:712-735 | for `-name`, `--name`, `-name=value` and `--name=value` with a well-formed name, the step reads back that name and that value |
| Flag.NameThenValueSplits | lib/flag/flag.go:726-735 | a well-formed name followed by `=value` splits into that name and that value |
| Flag.StepKeepsRegistry | lib/flag/flag.go:737-774 | a step sets only a registered flag under its own name, calls Set only on a registered value, and so keeps every set flag a registered one |
| Flag.StepFlagKeepsRegistry | lib/flag/flag.go:737-774 | the same, for the part of the step after the split |
| Flag.StepStopsCleanly | lib/flag/flag.go:705-719 | a step that stops without an error made no Set call and either consumed nothing at a non-flag or consumed a `--` |
| Flag.StepStopsAtNonFlag | lib/flag/flag.go:705-711 | no argument, one shorter than two characters, or one not starting with `-`: not seen, no error, nothing consumed |
| Flag.StepTerminator | lib/flag/flag.go:713-718 | `--` is consumed and the step stops without an error |
| Flag.StepBadSyntax | lib/flag/flag.go:720-723 | an empty name, or one starting with `-` or `=`, is a syntax error and the argument is not consumed |
| Flag.StepUndefined | lib/flag/flag.go:737-744 | an unregistered name consumes its argument and gives errHelp for `help` and `h` and "not defined" otherwise; nothing is set |
| Flag.StepWithValue | lib/flag/flag.go:746-769 | `-name=value` calls Set with the value whatever the flag's type, consumes one argument, and records the flag exactly when Set succeeds |
| Flag.StepBareBoolFlag | lib/flag/flag.go:752-755 | a bare bool flag is `Set("true")` and consumes no further argument |
| Flag.StepBareFlagTakesNext | lib/flag/flag.go:758-768 | a bare flag of any other type takes exactly the next argument as its value |
| Flag.StepNeedsArgument | lib/flag/flag.go:758-765 | a bare non-bool flag with no argument after it fails with "needs an argument" |
| Flag.ParseLoop | lib/flag/flag.go:780-787 | the loop leaves a suffix of the arguments and keeps every set flag a registered one |
| Flag.ParseLoopStopsCleanly | lib/flag/flag.go:780-787 | a parse that ends without an error stops at the end, at a non-flag, or right after `--` |
| Flag.FlagSet.constructor | lib/flag/flag.go:826-833 | NewFlagSet: the given name and mode, no flags, no arguments, not parsed |
| Flag.FlagSet.Init | lib/flag/flag.go:835-838 | sets the name and the error-handling mode |
| Flag.FlagSet.Lookup | lib/flag/flag.go:329-331 | the registered flag of that name, or nil when there is none |
| Flag.FlagSet.NFlag | lib/flag/flag.go:472 | the number of flags that have been set |
| Flag.FlagSet.Arg | lib/flag/flag.go:476-481 | the i'th remaining argument, or `""` for an index out of range |
| Flag.FlagSet.NArg | lib/flag/flag.go:487 | the number of remaining arguments |
| Flag.FlagSet.Args | lib/flag/flag.go:491 | the remaining arguments: NArg of them, the i'th being Arg(i) |
| Flag.FlagSet.Parsed | lib/flag/flag.go:803-805 | whether Parse has been called |
| Flag.FlagSet.Var | lib/flag/flag.go:655-678 | checked in order, a name beginning with `-`, a name containing `=` or an existing name is refused and nothing changes; otherwise exactly one entry is added, with DefValue the value's String() |
| Flag.FlagSet.Set | lib/flag/flag.go:337-351 | an unknown name is an error; otherwise the value is Set, and the flag is recorded as set exactly when that succeeds |
| Flag.FlagSet.ParseOne | lib/flag/flag.go:704-775 | the method's result and new state are Step's, and only the value it calls Set on changes its text |
| Flag.FlagSet.ParseNamed | lib/flag/flag.go:737-775 | the part of parseOne after the split: the result and new state are StepFlag's |
| Flag.FlagSet.ParseAll | lib/flag/flag.go:780-799 | the loop ends with ParseLoop's error, remaining arguments and set flags; each value holds the text of the last Set call on it, since every Value modelled here replaces its contents on Set |
| Flag.FlagSet.Parse | lib/flag/flag.go:777-801 | Parse marks the set parsed and ends as ParseLoop and the error-handling mode say, with the same final texts |
| Flag.FallbackName | lib/flag/flag.go:394-410 | the type-named placeholder is made of lower-case letters (so it holds no backquote) |
| Flag.UnquoteUsage | lib/flag/flag.go:378-412 | with a pair of backquotes, the name is the text between the first two and the usage loses just those two; otherwise the name is the type placeholder and the usage is unchanged |
| Flag.LessIrreflexive | lib/flag/flag.go:285 | no name sorts before itself |
| Flag.LessTransitive | lib/flag/flag.go:285 | Go's string order is transitive |
| Flag.LessTotal | lib/flag/flag.go:285 | of two different names one sorts first |
| Flag.LeastName | lib/flag/flag.go:284-286 | a member of the set that sorts before every other member |
| Flag.SortedNames | lib/flag/flag.go:284-286 | every name once, in strictly increasing order |
| Flag.SortFlags | lib/flag/flag.go:277-288 | every flag of the map once, in strictly increasing name order |

## Left out

- **Compress.** lib/compress.go (zlib with a preset dictionary) is a parameter of `Run` that returns `Option`, where None stands for Go's nil. Proving its round trip would need a model of DEFLATE.
- Flag.Value.Set: covers only Values whose Set replaces what they hold. Go's Value is an open interface (lib/flag/flag.go:240-243). `Var` and `TextVar` accept user types whose Set builds on the current contents, for example a repeated flag that collects its arguments in a list. Such accumulating Values are not represented, because the conversion sees only Set's argument. So the "last Set call decides the text" clause of `Flag.FlagSet.ParseAll` and `Flag.FlagSet.Parse` holds only for the Values modelled here.
- **Value conversions.** The integer, unsigned, float, duration, text and func conversions of flag.go are an abstract conversion function inside `Kind`. They rely on `strconv`, `time`, floating point and reflection. Only bool and string conversions are concrete.
- **Output and usage text.** PrintDefaults, defaultUsage, Usage, the printing inside sprintf and failf, Output and SetOutput are left out. The errors are kept as `FlagError` values without their message text.
- **Process control.** `os.Exit` and `panic` in `Parse` and the panics of `Var` become the `Exited` and `Panicked` outcomes and a `DefineError` result.
- **Other FlagSet operations.** CommandLine, the package-level wrapper functions, VisitAll, Visit, Name, ErrorHandling, isZeroValue and the typed `*Var` constructors are left out, because they are not part of this core.
- **Other ErrorHandling values.** With a mode that is none of the three constants, Go's `Parse` goes back to parseOne after an error, because the switch at lib/flag/flag.go:788-798 has no default.
  - After a bad-syntax error the argument was not consumed (lib/flag/flag.go:720-723), so Go's loop retries it forever.
  - The model's `ErrorHandling` has only the three constants.
  - `Flag.FlagSet.Parse`'s termination (`decreases seen, |args|` in ParseAll) depends on that exclusion.
- **Randomness.** `crypto/rand` and `math/rand` become supplied bytes and draws.
  - `Lib.StrGen`: returns None when the supplied draws run out before an attempt is kept. Go retries without bound.
  - `Lib.StrGen`: requires `length >= 1`, since Go's `b[0]` panics for 0.
- **Templates and the real file system.** The template is a value that says whether it parses and what executing it writes. This covers what a partly failed execution leaves in the source file. `html/template` and template.tmpl are not part of this model. Files are whole byte sequences in a map. Close, and a write error on the artifact (ignored in Go), are not modelled.
- Lib.Run: does not distinguish a path that cannot be created because of permissions from one that is missing a directory. Both are in the file system's `uncreatable` set.
- **Other files.** FileNameWithoutExtension is unused by `Run` and depends on OS path rules. main.go only wires flags and defaults.
- **Byte strings.** Go strings are byte strings, and here each `char` stands for one byte. Every character the parser compares with is ASCII, so the positions it finds are the same.
- **sortFlags order.** `Flag.SortFlags` fills its array in name order rather than copying in map order and then sorting. Go's map order is unspecified, and the result it promises is the same.
