/**
 * The asset compiler's pipeline (lib/lib.go): random identifiers for the
 * generated symbols, the dictionary key, the identifier check and `Run`, which
 * reads the input, writes the compressed artifact and renders the generated
 * source over an abstract file system.
 */
module Lib {
  import opened Wrappers
  import Base64

  type byte = Base64.byte

  /** The value threaded through one run (Go's `Config`). */
  datatype Config = Config(
    pkg: string,
    funcName: string,
    key: string,
    input: string,
    output: string,
    tmpVar: string,
    varName: string,
    src: string)

  // ---------------------------------------------------------------------------
  // Identifiers

  /** The 63 characters StrGen samples from, "aAbB...zZ_0123456789", written
      in pieces so that the verifier can reason about each piece. */
  const Charset: string :=
    "aAbBcCdDeEfFg" + "GhHiIjJkKlLmM" + "nNoOpPqQrRsSt" + "TuUvVwWxXyYzZ" + "_" + "0123456789"

  /** One value of `rand.Intn(len(charset))`. */
  type Draw = x: int | 0 <= x < 63

  predicate IsLetter(c: char) { ('a' <= c <= 'z') || ('A' <= c <= 'Z') }

  predicate IsDigit(c: char) { '0' <= c <= '9' }

  predicate AllLetters(s: string) { forall k :: 0 <= k < |s| ==> IsLetter(s[k]) }

  /** The class `[a-zA-Z_]` of the identifier pattern. */
  predicate IsIdentStart(c: char) { IsLetter(c) || c == '_' }

  /** The class `[a-zA-Z0-9_]` of the identifier pattern. */
  predicate IsIdentChar(c: char) { IsLetter(c) || IsDigit(c) || c == '_' }

  /** `^[a-zA-Z_][a-zA-Z0-9_]*$`, written out as character classes: a
      non-empty name of identifier characters that does not start with a digit. */
  predicate IsValidVariableName(s: string): (b: bool)
    ensures b ==> |s| > 0 && !IsDigit(s[0])
    ensures b ==> forall k :: 0 <= k < |s| ==> IsIdentChar(s[k])
  {
    |s| > 0 && IsIdentStart(s[0]) && forall k :: 1 <= k < |s| ==> IsIdentChar(s[k])
  }

  /** The states of the two-state automaton of the identifier pattern. */
  datatype MatchState = Start | InName | Dead

  function Advance(q: MatchState, c: char): MatchState {
    match q
    case Start => if IsIdentStart(c) then InName else Dead
    case InName => if IsIdentChar(c) then InName else Dead
    case Dead => Dead
  }

  function RunAutomaton(q: MatchState, s: string): MatchState
    decreases |s|
  {
    if |s| == 0 then q else RunAutomaton(Advance(q, s[0]), s[1..])
  }

  /** The pattern as the regular-expression engine runs it: the automaton,
      started at the first character, ends in the accepting state. */
  predicate PatternMatches(s: string) {
    RunAutomaton(Start, s) == InName
  }

  lemma {:induction false} DeadStaysDead(s: string)
    ensures RunAutomaton(Dead, s) == Dead
    decreases |s|
  {
    if |s| > 0 {
      DeadStaysDead(s[1..]);
    }
  }

  lemma {:induction false} InNameAccepts(s: string)
    ensures RunAutomaton(InName, s) == InName <==> forall k :: 0 <= k < |s| ==> IsIdentChar(s[k])
    decreases |s|
  {
    if |s| > 0 {
      InNameAccepts(s[1..]);
      if !IsIdentChar(s[0]) {
        DeadStaysDead(s[1..]);
      }
      assert forall k :: 1 <= k < |s| ==> s[k] == s[1..][k - 1];
    }
  }

  /** IsValidVariableName holds exactly for the strings the pattern matches. */
  lemma IsValidVariableNameMatchesPattern(s: string)
    ensures IsValidVariableName(s) <==> PatternMatches(s)
  {
    if |s| > 0 {
      if IsIdentStart(s[0]) {
        InNameAccepts(s[1..]);
        assert forall k :: 1 <= k < |s| ==> s[k] == s[1..][k - 1];
      } else {
        DeadStaysDead(s[1..]);
      }
    }
  }

  /** The names the identifier check turns away and lets through. */
  lemma VariableNameExamples()
    ensures !IsValidVariableName("")
    ensures !IsValidVariableName("1bad")
    ensures !IsValidVariableName("a-b")
    ensures IsValidVariableName("payload")
  {
    assert "a-b"[1] == '-';
  }

  /** Every charset character may appear in an identifier; exactly the last
      ten, from index 53 on, are digits. */
  lemma CharsetClasses(i: Draw)
    ensures |Charset| == 63
    ensures IsIdentChar(Charset[i])
    ensures IsDigit(Charset[i]) <==> i >= 53
  {
    var l1, l2, l3, l4, digits := "aAbBcCdDeEfFg", "GhHiIjJkKlLmM", "nNoOpPqQrRsSt", "TuUvVwWxXyYzZ", "0123456789";
    if i < 13 {
      assert AllLetters(l1) && Charset[i] == l1[i];
    } else if i < 26 {
      assert AllLetters(l2) && Charset[i] == l2[i - 13];
    } else if i < 39 {
      assert AllLetters(l3) && Charset[i] == l3[i - 26];
    } else if i < 52 {
      assert AllLetters(l4) && Charset[i] == l4[i - 39];
    } else if i > 52 {
      assert forall k :: 0 <= k < 10 ==> IsDigit(digits[k]);
      assert Charset[i] == digits[i - 53];
    }
  }

  /** One sample: the characters the draws pick out of the charset. */
  function Sample(draws: seq<Draw>): (b: string)
    ensures |b| == |draws|
    ensures forall k :: 0 <= k < |b| ==> b[k] in Charset && IsIdentChar(b[k])
  {
    seq(|draws|, k requires 0 <= k < |draws| => CharsetAt(draws[k]))
  }

  function CharsetAt(i: Draw): (c: char)
    ensures c in Charset && IsIdentChar(c)
  {
    CharsetClasses(i);
    Charset[i]
  }

  /**
   * Rejection sampling: each attempt uses the next `length` draws; an attempt
   * whose first character is a digit is discarded. None means the supplied
   * draws ran out before an attempt was kept.
   */
  function Generate(length: nat, draws: seq<Draw>): (r: Option<string>)
    requires length >= 1
    ensures r.Some? ==> |r.value| == length
    ensures r.Some? ==> forall k :: 0 <= k < length ==> r.value[k] in Charset
    ensures r.Some? ==> !IsDigit(r.value[0]) && IsValidVariableName(r.value)
    decreases |draws|
  {
    if |draws| < length then None
    else
      var b := Sample(draws[..length]);
      if IsDigit(b[0]) then Generate(length, draws[length..]) else Some(b)
  }

  /** StrGen: fills a buffer of `length` sampled characters and starts over
      when the first one is a digit. */
  method StrGen(length: nat, draws: seq<Draw>) returns (r: Option<string>)
    requires length >= 1
    ensures r == Generate(length, draws)
    ensures |draws| >= length && !IsDigit(Charset[draws[0]]) ==> r == Some(Sample(draws[..length]))
    decreases |draws|
  {
    if |draws| < length {
      return None;
    }
    var b := new char[length];
    for i := 0 to length
      invariant forall k :: 0 <= k < i ==> b[k] == Charset[draws[k]]
    {
      b[i] := Charset[draws[i]];
    }
    assert b[..] == Sample(draws[..length]);
    if !IsDigit(b[0]) {
      return Some(b[..]);
    }
    r := StrGen(length, draws[length..]);
  }

  // ---------------------------------------------------------------------------
  // Dictionary key

  /** KeyGen: 32 random bytes in unpadded standard base64. */
  function KeyGen(random: seq<byte>): (key: string)
    requires |random| == 32
    ensures |key| == 43
    ensures forall k :: 0 <= k < |key| ==> key[k] != '='
    ensures Base64.Decode(key) == Some(random)
  {
    Base64.RoundTrip(random);
    Base64.Encode(random)
  }

  // ---------------------------------------------------------------------------
  // The run pipeline

  /** What `Execute` leaves in the source file, and whether it succeeded. */
  datatype Execution = Execution(output: seq<byte>, ok: bool)

  /** The embedded template: whether it parses, and what executing it against
      a configuration writes. */
  datatype Template = Template(parses: bool, execute: Config -> Execution)

  /** The `log.Fatal` stops of Run. */
  datatype RunError =
    | MissingInput
    | InvalidVariableName
    | CannotCreate(path: string)
    | InvalidKey
    | CannotParse
    | CannotWrite

  datatype RunResult = Done | Fatal(reason: RunError)

  /** What `out.Write(Compress(data, key))` leaves in the artifact: a nil result
      writes nothing. */
  function Artifact(compressed: Option<seq<byte>>): (bytes: seq<byte>)
    ensures compressed.None? ==> bytes == []
    ensures compressed.Some? ==> bytes == compressed.value
  {
    match compressed
    case None => []
    case Some(c) => c
  }

  /** A file system of whole files: `files` holds the files that can be read
      (a directory or an unreadable file is not in it). Creating a path in
      `uncreatable` fails. */
  class FileSystem {
    var files: map<string, seq<byte>>
    const uncreatable: set<string>

    constructor (files: map<string, seq<byte>>, uncreatable: set<string>)
      ensures this.files == files && this.uncreatable == uncreatable
    {
      this.files := files;
      this.uncreatable := uncreatable;
    }

    /** `os.ReadFile`: fails exactly for a path that is not a readable file. */
    method ReadFile(path: string) returns (r: Option<seq<byte>>)
      ensures r.Some? <==> path in files
      ensures r.Some? ==> r.value == files[path]
    {
      r := if path in files then Some(files[path]) else None;
    }

    /** `os.Create`: truncates or creates the file. */
    method Create(path: string) returns (ok: bool)
      modifies this
      ensures ok == (path !in uncreatable)
      ensures files == if ok then old(files)[path := []] else old(files)
    {
      ok := path !in uncreatable;
      if ok {
        files := files[path := []];
      }
    }

    /** A write on an open handle appends to the file. */
    method Write(path: string, data: seq<byte>)
      requires path in files
      modifies this
      ensures files == old(files)[path := old(files)[path] + data]
    {
      files := files[path := files[path] + data];
    }
  }

  /**
   * Run: read the input, check the variable name, create the artifact, decode
   * the key, write the compressed bytes, create the source file, parse and
   * execute the template. The first failure stops the run and leaves every
   * file written so far in place.
   */
  method Run(cfg: Config, fs: FileSystem,
             compress: (seq<byte>, seq<byte>) -> Option<seq<byte>>,
             tmpl: Template) returns (r: RunResult)
    modifies fs
    ensures
      if cfg.input !in old(fs.files) then
        r == Fatal(MissingInput) && fs.files == old(fs.files)
      else if !IsValidVariableName(cfg.varName) then
        r == Fatal(InvalidVariableName) && fs.files == old(fs.files)
      else if cfg.output in fs.uncreatable then
        r == Fatal(CannotCreate(cfg.output)) && fs.files == old(fs.files)
      else if Base64.Decode(cfg.key).None? then
        r == Fatal(InvalidKey) && fs.files == old(fs.files)[cfg.output := []]
      else
        var artifact := Artifact(compress(old(fs.files)[cfg.input], Base64.Decode(cfg.key).value));
        var written := old(fs.files)[cfg.output := artifact];
        if cfg.src in fs.uncreatable then
          r == Fatal(CannotCreate(cfg.src)) && fs.files == written
        else if !tmpl.parses then
          r == Fatal(CannotParse) && fs.files == written[cfg.src := []]
        else
          var e := tmpl.execute(cfg);
          r == (if e.ok then Done else Fatal(CannotWrite)) && fs.files == written[cfg.src := e.output]
    // the checks before the artifact is created touch no file
    ensures r in {Fatal(MissingInput), Fatal(InvalidVariableName)} ==> fs.files == old(fs.files)
    // a run that stops anywhere changes at most the two configured paths
    ensures forall p :: p != cfg.output && p != cfg.src ==>
              (p in fs.files <==> p in old(fs.files)) &&
              (p in fs.files ==> fs.files[p] == old(fs.files)[p])
    // a successful run leaves both configured paths in place
    ensures r == Done ==> cfg.output in fs.files && cfg.src in fs.files
  {
    var data := fs.ReadFile(cfg.input);
    if data.None? {
      return Fatal(MissingInput);
    }
    if !IsValidVariableName(cfg.varName) {
      return Fatal(InvalidVariableName);
    }
    var created := fs.Create(cfg.output);
    if !created {
      return Fatal(CannotCreate(cfg.output));
    }
    var key := Base64.Decode(cfg.key);
    if key.None? {
      return Fatal(InvalidKey);
    }
    var artifact := Artifact(compress(data.value, key.value));
    fs.Write(cfg.output, artifact);
    assert [] + artifact == artifact;
    assert fs.files == old(fs.files)[cfg.output := artifact];
    ghost var written := fs.files;

    created := fs.Create(cfg.src);
    if !created {
      return Fatal(CannotCreate(cfg.src));
    }
    assert fs.files == written[cfg.src := []];
    if !tmpl.parses {
      return Fatal(CannotParse);
    }
    var e := tmpl.execute(cfg);
    fs.Write(cfg.src, e.output);
    assert [] + e.output == e.output;
    if !e.ok {
      return Fatal(CannotWrite);
    }
    r := Done;
  }
}
