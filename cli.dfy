/** lib/libcall/cli.rb: the options a command line sets and the scanner that
    splits it into flags, the library, the function and `TYPE VALUE`
    argument pairs. Output rendering, help and version text, library lookup
    and the call itself are not part of this model. */
module Cli {
  import opened Wrappers
  import opened TypeMap
  import opened Values
  import opened Numerals
  import opened Parser

  /** The `@options` hash. */
  datatype Options = Options(
    dryRun: bool,
    json: bool,
    verbose: bool,
    returnType: Sym,
    lib: Option<string>,
    libName: Option<string>,
    libPaths: seq<string>)

  /** The options before any flag is seen. */
  const DEFAULTS: Options := Options(false, false, false, Void, None, None, [])

  /** What `handle_option!` does with one token: consume that many tokens
      (zero: not an option), leave for the help or version output, or
      raise. */
  datatype Flag = Consumed(n: nat) | Help | Version | FlagError(error: Error)

  /** A flag outcome together with the options it leaves. */
  datatype Handled = Handled(flag: Flag, opts: Options)

  /** Whether a text has no line break (what `.` matches in a Ruby regular
      expression). */
  predicate SingleLine(s: string)
  {
    forall k :: 0 <= k < |s| ==> s[k] != '\n'
  }

  /** The value glued to a short flag, as `/\A-X(.+)\z/` captures it: the
      rest of a token that starts with `-X`, when that rest is a non-empty
      single line. */
  function AttachedValue(tok: string, letter: char): (r: Option<string>)
    ensures r.Some? <==> |tok| >= 3 && tok[..2] == ['-', letter] && SingleLine(tok[2..])
    ensures r.Some? ==> tok == ['-', letter] + r.value && |r.value| >= 1
  {
    if |tok| >= 3 && tok[0] == '-' && tok[1] == letter && SingleLine(tok[2..]) then Some(tok[2..])
    else None
  }

  /** The flags that take the next token as their value. */
  predicate TakesValue(tok: string)
  {
    tok in {"-l", "--lib", "-L", "--lib-path", "-r", "--ret"}
  }

  /** The flags that stand alone. */
  predicate Switch(tok: string)
  {
    tok in {"--dry-run", "--json", "--verbose"}
  }

  /** The flags that leave for the help or version output. */
  predicate Terminal(tok: string)
  {
    tok in {"-h", "--help", "-v", "--version"}
  }

  /** `handle_option!(tok, argv, i)` applied to the options `opts`. */
  function HandleOptionSpec(opts: Options, argv: seq<string>, i: nat): (r: Handled)
    requires i < |argv|
    ensures r.flag.Consumed? && r.flag.n == 0 ==> r.opts == opts
    ensures !r.flag.Consumed? ==> r.opts == opts
    ensures r.flag.Consumed? ==> r.flag.n <= 2 && i + r.flag.n <= |argv|
    ensures r.opts.libPaths == opts.libPaths ||
            (argv[i] in {"-L", "--lib-path"} && i + 1 < |argv| && r.opts.libPaths == opts.libPaths + [argv[i + 1]])
  {
    var tok := argv[i];
    if tok == "--dry-run" then Handled(Consumed(1), opts.(dryRun := true))
    else if tok == "--json" then Handled(Consumed(1), opts.(json := true))
    else if tok == "--verbose" then Handled(Consumed(1), opts.(verbose := true))
    else if tok == "-h" || tok == "--help" then Handled(Help, opts)
    else if tok == "-v" || tok == "--version" then Handled(Version, opts)
    else if tok == "-l" || tok == "--lib" then
      if i + 1 >= |argv| then Handled(FlagError(MissingOptionValue("-l/--lib")), opts)
      else Handled(Consumed(2), opts.(libName := Some(argv[i + 1])))
    else if AttachedValue(tok, 'l').Some? then
      Handled(Consumed(1), opts.(libName := AttachedValue(tok, 'l')))
    else if tok == "-L" || tok == "--lib-path" then
      if i + 1 >= |argv| then Handled(FlagError(MissingOptionValue("-L/--lib-path")), opts)
      else Handled(Consumed(2), opts.(libPaths := opts.libPaths + [argv[i + 1]]))
    else if tok == "-r" || tok == "--ret" then
      if i + 1 >= |argv| then Handled(FlagError(MissingOptionValue("-r/--ret")), opts)
      else ReturnTypeFlag(opts, argv[i + 1], 2)
    else if AttachedValue(tok, 'r').Some? then
      ReturnTypeFlag(opts, AttachedValue(tok, 'r').value, 1)
    else Handled(Consumed(0), opts)
  }

  /** Setting the return type from a flag's value, raising for an unknown
      type name. */
  function ReturnTypeFlag(opts: Options, name: string, n: nat): (r: Handled)
    ensures r.flag.Consumed? <==> ParseReturnType(Some(name)).Ok?
    ensures r.flag.Consumed? ==> r.flag.n == n && r.opts == opts.(returnType := ParseReturnType(Some(name)).value)
    ensures !r.flag.Consumed? ==> r == Handled(FlagError(UnknownReturnType(name)), opts)
  {
    match ParseReturnType(Some(name))
    case Ok(s) => Handled(Consumed(n), opts.(returnType := s))
    case Err(e) => Handled(FlagError(e), opts)
  }

  /** How many tokens each kind of flag takes, and that a token which is no
      flag is left alone: a flag with a separate value takes two tokens
      (or raises when there is no next token, or, for the return type, when
      the type is unknown), a switch or a flag with its value attached takes
      one, the help and version flags end the scan, and every other token
      consumes nothing and changes no option. */
  lemma FlagArity(opts: Options, argv: seq<string>, i: nat)
    requires i < |argv|
    ensures var r := HandleOptionSpec(opts, argv, i);
            var tok := argv[i];
            (Switch(tok) ==> r.flag == Consumed(1)) &&
            (Terminal(tok) ==> r.flag.Help? || r.flag.Version?) &&
            (TakesValue(tok) && i + 1 >= |argv| ==> r.flag.FlagError? && r.flag.error.MissingOptionValue?) &&
            (TakesValue(tok) && i + 1 < |argv| && tok !in {"-r", "--ret"} ==> r.flag == Consumed(2)) &&
            (tok in {"-r", "--ret"} && i + 1 < |argv| ==>
               (r.flag == Consumed(2) <==> ParseReturnType(Some(argv[i + 1])).Ok?)) &&
            (!Switch(tok) && !Terminal(tok) && !TakesValue(tok) && AttachedValue(tok, 'l').Some? ==>
               r == Handled(Consumed(1), opts.(libName := AttachedValue(tok, 'l')))) &&
            (!Switch(tok) && !Terminal(tok) && !TakesValue(tok) &&
             AttachedValue(tok, 'l').None? && AttachedValue(tok, 'r').Some? ==>
               (r.flag == Consumed(1) <==> ParseReturnType(AttachedValue(tok, 'r')).Ok?)) &&
            (!Switch(tok) && !Terminal(tok) && !TakesValue(tok) &&
             AttachedValue(tok, 'l').None? && AttachedValue(tok, 'r').None? ==>
               r == Handled(Consumed(0), opts))
  {
  }

  /** What each flag sets: a switch turns its option on, `-l`/`--lib` names
      the library, `-L`/`--lib-path` appends a search path and `-r`/`--ret`
      sets the return type, each from the next token; a glued `-rX` sets the
      return type from `X`. */
  lemma FlagEffects(opts: Options, argv: seq<string>, i: nat)
    requires i < |argv|
    ensures var r := HandleOptionSpec(opts, argv, i);
            (argv[i] == "--dry-run" ==> r.opts == opts.(dryRun := true)) &&
            (argv[i] == "--json" ==> r.opts == opts.(json := true)) &&
            (argv[i] == "--verbose" ==> r.opts == opts.(verbose := true))
    ensures var r := HandleOptionSpec(opts, argv, i);
            i + 1 < |argv| ==>
              (argv[i] in {"-l", "--lib"} ==> r.opts == opts.(libName := Some(argv[i + 1]))) &&
              (argv[i] in {"-L", "--lib-path"} ==> r.opts == opts.(libPaths := opts.libPaths + [argv[i + 1]])) &&
              (argv[i] in {"-r", "--ret"} && ParseReturnType(Some(argv[i + 1])).Ok? ==>
                 r.opts == opts.(returnType := ParseReturnType(Some(argv[i + 1])).value))
    ensures var r := HandleOptionSpec(opts, argv, i);
            var tok := argv[i];
            !Switch(tok) && !Terminal(tok) && !TakesValue(tok) &&
            AttachedValue(tok, 'l').None? && AttachedValue(tok, 'r').Some? &&
            ParseReturnType(AttachedValue(tok, 'r')).Ok? ==>
              r.opts == opts.(returnType := ParseReturnType(AttachedValue(tok, 'r')).value)
  {
  }

  /** The last library name and return type given win: whatever an earlier
      token (at any position of any argument vector) did to the options, a
      later `-l`/`--lib` or `-r`/`--ret` with its value replaces the library
      name or return type, and so does a glued `-lX` or `-rX`. */
  lemma LastFlagWins(opts: Options, earlier: seq<string>, i: nat, argv: seq<string>, j: nat)
    requires i < |earlier| && j < |argv|
    ensures var first := HandleOptionSpec(opts, earlier, i).opts;
            j + 1 < |argv| && argv[j] in {"-l", "--lib"} ==>
              HandleOptionSpec(first, argv, j).opts.libName == Some(argv[j + 1])
    ensures var first := HandleOptionSpec(opts, earlier, i).opts;
            j + 1 < |argv| && argv[j] in {"-r", "--ret"} && ParseReturnType(Some(argv[j + 1])).Ok? ==>
              HandleOptionSpec(first, argv, j).opts.returnType == ParseReturnType(Some(argv[j + 1])).value
    ensures var first := HandleOptionSpec(opts, earlier, i).opts;
            !Switch(argv[j]) && !Terminal(argv[j]) && !TakesValue(argv[j]) && AttachedValue(argv[j], 'l').Some? ==>
              HandleOptionSpec(first, argv, j).opts.libName == AttachedValue(argv[j], 'l')
    ensures var first := HandleOptionSpec(opts, earlier, i).opts;
            var tok := argv[j];
            !Switch(tok) && !Terminal(tok) && !TakesValue(tok) &&
            AttachedValue(tok, 'l').None? && AttachedValue(tok, 'r').Some? &&
            ParseReturnType(AttachedValue(tok, 'r')).Ok? ==>
              HandleOptionSpec(first, argv, j).opts.returnType == ParseReturnType(AttachedValue(tok, 'r')).value
  {
    var first := HandleOptionSpec(opts, earlier, i).opts;
    FlagEffects(first, argv, j);
    FlagArity(first, argv, j);
  }

  /** The scanner's variables between two tokens: the position, whether
      `--` was seen, the library and function found so far and the pairs
      collected, with the options as they stand. */
  datatype State = State(
    i: nat,
    positionalOnly: bool,
    libPath: Option<string>,
    funcName: Option<string>,
    pairs: seq<Pair>,
    opts: Options)

  /** The scanner's state before the first token. */
  function Start(opts: Options): State
  {
    State(0, false, None, None, [], opts)
  }

  /** How a scan ends: with the three results, with the help or version
      output, or with an error. */
  datatype Scan =
    | Done(libPath: Option<string>, funcName: Option<string>, pairs: seq<Pair>)
    | ShowHelp
    | ShowVersion
    | Failed(error: Error)

  /** A scan's outcome with the options it leaves. */
  datatype Scanned = Scanned(outcome: Scan, opts: Options)

  /** One step of the scanner: a further state or the end of the scan. */
  datatype Next = Continue(st: State) | Stop(result: Scanned)

  /** The first position from `j` on that does not hold `--` (or the end). */
  function SkipDashes(argv: seq<string>, j: nat): (r: nat)
    requires j <= |argv|
    ensures j <= r <= |argv|
    ensures forall k :: j <= k < r ==> argv[k] == "--"
    ensures r < |argv| ==> argv[r] != "--"
    decreases |argv| - j
  {
    if j < |argv| && argv[j] == "--" then SkipDashes(argv, j + 1) else j
  }

  /** Arguments are well formed: each is a plain type with a value or an
      output pointer paired with nil. */
  predicate PairsWellFormed(pairs: seq<Pair>)
  {
    forall k :: 0 <= k < |pairs| ==>
      (pairs[k].desc.Plain? && pairs[k].value != NilV) ||
      (pairs[k].desc.Out? && pairs[k].value == NilV)
  }

  /** One turn of the `scan_argv!` loop at token `argv[st.i]`: `--` starts
      positional-only mode, a flag is handled unless in that mode, and any
      other token is positional. */
  function Step(argv: seq<string>, st: State): (r: Next)
    requires st.i < |argv|
    ensures r.Continue? ==> st.i < r.st.i <= |argv|
    ensures r.Continue? ==> st.pairs <= r.st.pairs && |r.st.pairs| <= |st.pairs| + 1
    ensures r.Continue? && PairsWellFormed(st.pairs) ==> PairsWellFormed(r.st.pairs)
    ensures r.Continue? && st.positionalOnly ==> r.st.positionalOnly && r.st.opts == st.opts
    ensures r.Stop? && st.positionalOnly ==> r.result.outcome.Failed? && r.result.opts == st.opts
    ensures st.opts.libPaths <= (if r.Continue? then r.st.opts.libPaths else r.result.opts.libPaths)
    ensures r.Continue? && st.libPath.Some? ==> r.st.libPath == st.libPath
    ensures r.Continue? && st.funcName.Some? ==> r.st.funcName == st.funcName
  {
    if argv[st.i] == "--" then Continue(st.(positionalOnly := true, i := st.i + 1))
    else if st.positionalOnly then Positional(argv, st)
    else
      var h := HandleOptionSpec(st.opts, argv, st.i);
      match h.flag
      case Help => Stop(Scanned(ShowHelp, h.opts))
      case Version => Stop(Scanned(ShowVersion, h.opts))
      case FlagError(e) => Stop(Scanned(Failed(e), h.opts))
      case Consumed(n) =>
        if n > 0 then Continue(st.(opts := h.opts, i := st.i + n)) else Positional(argv, st)
  }

  /** A token that is not a flag: the library path while neither it nor a
      library name is known, then the function name, then a `TYPE VALUE`
      pair. */
  function Positional(argv: seq<string>, st: State): (r: Next)
    requires st.i < |argv|
    ensures r.Continue? ==> st.i < r.st.i <= |argv| && r.st.opts == st.opts
    ensures r.Continue? ==> st.pairs <= r.st.pairs && |r.st.pairs| <= |st.pairs| + 1
    ensures r.Continue? && PairsWellFormed(st.pairs) ==> PairsWellFormed(r.st.pairs)
    ensures r.Continue? && st.positionalOnly ==> r.st.positionalOnly
    ensures r.Stop? ==> r.result.outcome.Failed? && r.result.opts == st.opts
    ensures r.Continue? && st.libPath.Some? ==> r.st.libPath == st.libPath
    ensures r.Continue? && st.funcName.Some? ==> r.st.funcName == st.funcName
  {
    var tok := argv[st.i];
    if st.libPath.None? && st.opts.libName.None? then
      Continue(st.(libPath := Some(tok), i := st.i + 1))
    else if st.funcName.None? then
      Continue(st.(funcName := Some(tok), i := st.i + 1))
    else TypedArgument(argv, st)
  }

  /** A `TYPE` token and, unless it names an output, its value after any
      `--` tokens. */
  function TypedArgument(argv: seq<string>, st: State): (r: Next)
    requires st.i < |argv|
    ensures r.Continue? ==> st.i < r.st.i <= |argv| && r.st.opts == st.opts
    ensures r.Continue? ==> r.st.libPath == st.libPath && r.st.funcName == st.funcName
    ensures r.Continue? ==> exists p :: r.st.pairs == st.pairs + [p] &&
                                        ((p.desc.Plain? && p.value != NilV) || (p.desc.Out? && p.value == NilV))
    ensures r.Continue? && st.positionalOnly ==> r.st.positionalOnly
    ensures r.Continue? ==> (r.st.pairs[|st.pairs|].desc.Out? <==> r.st.i == st.i + 1)
    ensures r.Stop? ==> r.result.outcome.Failed? && r.result.opts == st.opts
    // the TYPE token is parsed, and an unknown type raises
    ensures ParseType(argv[st.i]).Err? ==> r == Stop(Scanned(Failed(ParseType(argv[st.i]).error), st.opts))
    ensures r.Continue? ==> ParseType(argv[st.i]) == Ok(r.st.pairs[|st.pairs|].desc)
    // an output type is paired with nil and takes no value token
    ensures ParseType(argv[st.i]).Ok? && (ParseType(argv[st.i]).value.Out? || ParseType(argv[st.i]).value.OutArray?) ==>
              r == Continue(st.(pairs := st.pairs + [Pair(ParseType(argv[st.i]).value, NilV)], i := st.i + 1))
    // any other type takes the next token that is not `--` as its value
    ensures ParseType(argv[st.i]).Ok? && !ParseType(argv[st.i]).value.Out? && !ParseType(argv[st.i]).value.OutArray? ==>
              var d := ParseType(argv[st.i]).value;
              var j := SkipDashes(argv, st.i + 1);
              (j == |argv| ==> r == Stop(Scanned(Failed(MissingArgValue(argv[st.i])), st.opts))) &&
              (j < |argv| ==> (r.Continue? <==> CoerceValue(d, argv[j]).Ok?)) &&
              (j < |argv| && CoerceValue(d, argv[j]).Err? ==>
                 r == Stop(Scanned(Failed(CoerceValue(d, argv[j]).error), st.opts))) &&
              (r.Continue? ==>
                 r.st.pairs == st.pairs + [Pair(d, CoerceValue(d, argv[j]).value)] &&
                 r.st.i == j + 1 &&
                 r.st.positionalOnly == (st.positionalOnly || j > st.i + 1))
  {
    var tok := argv[st.i];
    match ParseType(tok)
    case Err(e) => Stop(Scanned(Failed(e), st.opts))
    case Ok(d) =>
      if d.Out? || d.OutArray? then
        Continue(st.(pairs := st.pairs + [Pair(d, NilV)], i := st.i + 1))
      else
        var j := SkipDashes(argv, st.i + 1);
        if j >= |argv| then Stop(Scanned(Failed(MissingArgValue(tok)), st.opts))
        else
          match CoerceValue(d, argv[j])
          case Err(e) => Stop(Scanned(Failed(e), st.opts))
          case Ok(v) =>
            Continue(st.(pairs := st.pairs + [Pair(d, v)],
                         positionalOnly := st.positionalOnly || j > st.i + 1,
                         i := j + 1))
  }

  /** `scan_argv!` from a given state on. The library path and the
      function name, once found, are never replaced. */
  function ScanFrom(argv: seq<string>, st: State): (r: Scanned)
    requires st.i <= |argv|
    ensures r.outcome.Done? && st.libPath.Some? ==> r.outcome.libPath == st.libPath
    ensures r.outcome.Done? && st.funcName.Some? ==> r.outcome.funcName == st.funcName
    decreases |argv| - st.i
  {
    if st.i == |argv| then Scanned(Done(st.libPath, st.funcName, st.pairs), st.opts)
    else
      match Step(argv, st)
      case Continue(next) => ScanFrom(argv, next)
      case Stop(result) => result
  }

  /** After `--` no token is a flag: the options are final, and the scan
      cannot end in the help or version output. */
  lemma {:induction false} PositionalOnlyFreezesOptions(argv: seq<string>, st: State)
    requires st.i <= |argv| && st.positionalOnly
    ensures ScanFrom(argv, st).opts == st.opts
    ensures !ScanFrom(argv, st).outcome.ShowHelp? && !ScanFrom(argv, st).outcome.ShowVersion?
    decreases |argv| - st.i
  {
    if st.i < |argv| && Step(argv, st).Continue? {
      PositionalOnlyFreezesOptions(argv, Step(argv, st).st);
    }
  }

  /** Library search paths are only ever appended to. */
  lemma {:induction false} LibPathsAppendOnly(argv: seq<string>, st: State)
    requires st.i <= |argv|
    ensures st.opts.libPaths <= ScanFrom(argv, st).opts.libPaths
    decreases |argv| - st.i
  {
    if st.i < |argv| && Step(argv, st).Continue? {
      LibPathsAppendOnly(argv, Step(argv, st).st);
    }
  }

  /** The pairs come out in token order, extending those already collected,
      and each is a plain type with a non-nil value or an output pointer
      paired with nil. */
  lemma {:induction false} ScanPairs(argv: seq<string>, st: State)
    requires st.i <= |argv| && PairsWellFormed(st.pairs)
    ensures ScanFrom(argv, st).outcome.Done? ==>
              st.pairs <= ScanFrom(argv, st).outcome.pairs &&
              PairsWellFormed(ScanFrom(argv, st).outcome.pairs)
    decreases |argv| - st.i
  {
    if st.i < |argv| && Step(argv, st).Continue? {
      ScanPairs(argv, Step(argv, st).st);
    }
  }

  /** A scan collects at most one pair per token. */
  lemma {:induction false} ScanPairsBounded(argv: seq<string>, st: State)
    requires st.i <= |argv|
    ensures ScanFrom(argv, st).outcome.Done? ==>
              |ScanFrom(argv, st).outcome.pairs| <= |st.pairs| + (|argv| - st.i)
    decreases |argv| - st.i
  {
    if st.i < |argv| && Step(argv, st).Continue? {
      ScanPairsBounded(argv, Step(argv, st).st);
    }
  }

  /** Outside positional-only mode, a token that is neither `--` nor a flag
      is the library path while neither a path nor a library name is known,
      and otherwise the function name while none is known; inside it, the
      same holds for every token but `--`. */
  lemma PositionalRoles(argv: seq<string>, st: State)
    requires st.i < |argv| && argv[st.i] != "--"
    requires st.positionalOnly || HandleOptionSpec(st.opts, argv, st.i).flag == Consumed(0)
    ensures st.libPath.None? && st.opts.libName.None? ==>
              Step(argv, st) == Continue(st.(libPath := Some(argv[st.i]), i := st.i + 1))
    ensures (st.libPath.Some? || st.opts.libName.Some?) && st.funcName.None? ==>
              Step(argv, st) == Continue(st.(funcName := Some(argv[st.i]), i := st.i + 1))
  {
  }

  /** A token that does not start with `-` is never a flag. */
  lemma NoDashNoFlag(opts: Options, argv: seq<string>, i: nat)
    requires i < |argv| && (|argv[i]| == 0 || argv[i][0] != '-')
    ensures HandleOptionSpec(opts, argv, i) == Handled(Consumed(0), opts)
  {
    var tok := argv[i];
    assert tok !in {"--dry-run", "--json", "--verbose", "-h", "--help", "-v", "--version",
                    "-l", "--lib", "-L", "--lib-path", "-r", "--ret"} by {
      if |tok| > 0 {
        assert forall t | t in {"--dry-run", "--json", "--verbose", "-h", "--help", "-v", "--version",
                                "-l", "--lib", "-L", "--lib-path", "-r", "--ret"} :: |t| > 0 && t[0] == '-';
      }
    }
  }

  /** A typical command line: a glued library name, the function, one
      `TYPE VALUE` pair and a glued return type. */
  lemma ExampleGluedFlags()
    ensures ScanFrom(["-lm", "sqrt", "double", "16", "-rdouble"], Start(DEFAULTS)) ==
            Scanned(Done(None, Some("sqrt"), [Pair(Plain(Double), FloatV("16"))]),
                    DEFAULTS.(libName := Some("m"), returnType := Double))
  {
    var argv := ["-lm", "sqrt", "double", "16", "-rdouble"];
    var opts1 := DEFAULTS.(libName := Some("m"));
    var s0 := Start(DEFAULTS);
    var s1 := s0.(opts := opts1, i := 1);
    var s2 := s1.(funcName := Some("sqrt"), i := 2);
    var s3 := s2.(pairs := [Pair(Plain(Double), FloatV("16"))], i := 4);
    var s4 := s3.(opts := opts1.(returnType := Double), i := 5);
    GluedLibrary(argv, s0);
    GluedFunction(argv, s1);
    GluedPair(argv, s2);
    GluedReturnType(argv, s3);
  }

  lemma GluedLibrary(argv: seq<string>, st: State)
    requires argv == ["-lm", "sqrt", "double", "16", "-rdouble"] && st == Start(DEFAULTS)
    ensures Step(argv, st) == Continue(st.(opts := DEFAULTS.(libName := Some("m")), i := 1))
  {
    assert argv[0] == "-lm";
    assert AttachedValue("-lm", 'l') == Some("m");
  }

  lemma GluedFunction(argv: seq<string>, st: State)
    requires argv == ["-lm", "sqrt", "double", "16", "-rdouble"]
    requires st == State(1, false, None, None, [], DEFAULTS.(libName := Some("m")))
    ensures Step(argv, st) == Continue(st.(funcName := Some("sqrt"), i := 2))
  {
    assert argv[1] == "sqrt";
    NoDashNoFlag(st.opts, argv, 1);
  }

  lemma GluedPair(argv: seq<string>, st: State)
    requires argv == ["-lm", "sqrt", "double", "16", "-rdouble"]
    requires st == State(2, false, None, Some("sqrt"), [], DEFAULTS.(libName := Some("m")))
    ensures Step(argv, st) == Continue(st.(pairs := [Pair(Plain(Double), FloatV("16"))], i := 4))
  {
    assert argv[2] == "double" && argv[3] == "16";
    NoDashNoFlag(st.opts, argv, 2);
    assert ParseType("double") == Ok(Plain(Double)) by {
      assert "double"[..4][0] == 'd';
      assert TYPE_MAP["double"] == Double;
    }
    assert SkipDashes(argv, 3) == 3;
  }

  lemma GluedReturnType(argv: seq<string>, st: State)
    requires argv == ["-lm", "sqrt", "double", "16", "-rdouble"]
    requires st == State(4, false, None, Some("sqrt"), [Pair(Plain(Double), FloatV("16"))],
                         DEFAULTS.(libName := Some("m")))
    ensures Step(argv, st) == Continue(st.(opts := st.opts.(returnType := Double), i := 5))
  {
    assert argv[4] == "-rdouble";
    assert AttachedValue("-rdouble", 'l') == None;
    assert AttachedValue("-rdouble", 'r') == Some("double");
    assert ParseReturnType(Some("double")) == Ok(Double) by {
      assert TYPE_MAP["double"] == Double;
    }
  }

  /** A `--` between a type and its value is skipped and ends flag handling:
      the value may then look like a flag, and is coerced as a value. */
  lemma ExampleDashesBeforeValue()
    ensures ScanFrom(["lib.so", "f", "int", "--", "-r"], Start(DEFAULTS)).outcome ==
            Failed(InvalidInteger("-r"))
  {
    var argv := ["lib.so", "f", "int", "--", "-r"];
    var s0 := Start(DEFAULTS);
    var s1 := s0.(libPath := Some("lib.so"), i := 1);
    var s2 := s1.(funcName := Some("f"), i := 2);
    assert Step(argv, s0) == Continue(s1) by {
      assert argv[0] == "lib.so";
      NoDashNoFlag(DEFAULTS, argv, 0);
    }
    assert Step(argv, s1) == Continue(s2) by {
      assert argv[1] == "f";
      NoDashNoFlag(DEFAULTS, argv, 1);
    }
    DashesValueStep(argv, s2);
  }

  lemma DashesValueStep(argv: seq<string>, st: State)
    requires argv == ["lib.so", "f", "int", "--", "-r"]
    requires st == State(2, false, Some("lib.so"), Some("f"), [], DEFAULTS)
    ensures Step(argv, st) == Stop(Scanned(Failed(InvalidInteger("-r")), DEFAULTS))
  {
    assert argv[2] == "int" && argv[3] == "--" && argv[4] == "-r";
    NoDashNoFlag(DEFAULTS, argv, 2);
    assert ParseType("int") == Ok(Plain(Int)) by {
      assert |"int"| < |OUT_PREFIX|;
      assert TYPE_MAP["int"] == Int;
    }
    assert SkipDashes(argv, 3) == 4;
    assert ParseInteger("-r").None? by {
      assert "-r"[1..] == "r";
    }
  }

  /** An entry of the dry-run description of the arguments. */
  datatype ArgInfo = ArgInfo(index: nat, typeText: string, value: Value)

  /** The dry-run description of a call. */
  datatype Info = Info(
    library: Option<string>,
    func: Option<string>,
    arguments: seq<ArgInfo>,
    returnType: string)

  /** `type_sym.to_s`: a symbol's name, or the inspected array for the
      compound forms (`[:out, :int]`), which is bracketed and starts with a
      symbol. */
  function DescText(d: Desc): (r: string)
    ensures d.Plain? ==> r == Name(d.sym)
    ensures !d.Plain? ==> |r| >= 3 && r[..2] == "[:" && r[|r| - 1] == ']'
  {
    match d
    case Plain(s) => Name(s)
    case Out(s) => "[:out, :" + Name(s) + "]"
    case ArrayIn(b) => "[:array, :" + Name(b) + "]"
    case OutArray(b, n) => "[:out_array, :" + Name(b) + ", " + DecimalString(n) + "]"
    case OtherForm(h) => "[:" + Name(h) + "]"
  }

  /** `build_info_hash`: the arguments numbered 0 to n-1 in order, each with
      its type text and its value, and the return type's name. */
  function BuildInfo(libPath: Option<string>, funcName: Option<string>, pairs: seq<Pair>, opts: Options): (r: Info)
    ensures |r.arguments| == |pairs|
    ensures forall k :: 0 <= k < |pairs| ==>
              r.arguments[k].index == k && r.arguments[k].value == pairs[k].value &&
              r.arguments[k].typeText == DescText(pairs[k].desc)
    ensures r.library == libPath && r.func == funcName && r.returnType == Name(opts.returnType)
  {
    Info(libPath, funcName,
         seq(|pairs|, k requires 0 <= k < |pairs| => ArgInfo(k, DescText(pairs[k].desc), pairs[k].value)),
         Name(opts.returnType))
  }

  /** The command-line front end: the token list and the options it sets. */
  class CLI {
    const argv: seq<string>
    var options: Options

    /** `CLI.new(argv)`: the default options. */
    constructor (argv: seq<string>)
      ensures this.argv == argv && options == DEFAULTS
    {
      this.argv := argv;
      options := DEFAULTS;
    }

    /** `handle_option!(tok, argv, i)`: recognises one flag at `argv[i]`,
        updating the options. */
    method HandleOption(tok: string, argv: seq<string>, i: nat) returns (r: Flag)
      requires i < |argv| && tok == argv[i]
      modifies this
      ensures Handled(r, options) == HandleOptionSpec(old(options), argv, i)
    {
      if tok == "--dry-run" {
        options := options.(dryRun := true);
        r := Consumed(1);
      } else if tok == "--json" {
        options := options.(json := true);
        r := Consumed(1);
      } else if tok == "--verbose" {
        options := options.(verbose := true);
        r := Consumed(1);
      } else if tok == "-h" || tok == "--help" {
        r := Help;
      } else if tok == "-v" || tok == "--version" {
        r := Version;
      } else if tok == "-l" || tok == "--lib" {
        if i + 1 >= |argv| {
          return FlagError(MissingOptionValue("-l/--lib"));
        }
        options := options.(libName := Some(argv[i + 1]));
        r := Consumed(2);
      } else if AttachedValue(tok, 'l').Some? {
        options := options.(libName := AttachedValue(tok, 'l'));
        r := Consumed(1);
      } else if tok == "-L" || tok == "--lib-path" {
        if i + 1 >= |argv| {
          return FlagError(MissingOptionValue("-L/--lib-path"));
        }
        options := options.(libPaths := options.libPaths + [argv[i + 1]]);
        r := Consumed(2);
      } else if tok == "-r" || tok == "--ret" {
        if i + 1 >= |argv| {
          return FlagError(MissingOptionValue("-r/--ret"));
        }
        r := SetReturnType(argv[i + 1], 2);
      } else if AttachedValue(tok, 'r').Some? {
        r := SetReturnType(AttachedValue(tok, 'r').value, 1);
      } else {
        r := Consumed(0);
      }
    }

    /** `@options[:return_type] = Parser.parse_return_type(name)`, then the
        flag's token count. */
    method SetReturnType(name: string, n: nat) returns (r: Flag)
      modifies this
      ensures Handled(r, options) == ReturnTypeFlag(old(options), name, n)
    {
      var s := ParseReturnType(Some(name));
      if s.Err? {
        return FlagError(s.error);
      }
      options := options.(returnType := s.value);
      r := Consumed(n);
    }

    /** `scan_argv!(argv)`: the token loop. It ends as the scanner
        specification does from the start state and leaves the options it
        says. */
    method ScanArgv(argv: seq<string>) returns (r: Scan)
      modifies this
      ensures ScanFrom(argv, Start(old(options))) == Scanned(r, options)
    {
      var libPath: Option<string> := None;
      var funcName: Option<string> := None;
      var argPairs: seq<Pair> := [];
      var positionalOnly := false;
      var i := 0;
      while i < |argv|
        invariant i <= |argv|
        invariant ScanFrom(argv, State(i, positionalOnly, libPath, funcName, argPairs, options)) ==
                  ScanFrom(argv, Start(old(options)))
        decreases |argv| - i
      {
        var st := State(i, positionalOnly, libPath, funcName, argPairs, options);
        var tok := argv[i];
        if tok == "--" {
          positionalOnly := true;
          i := i + 1;
          assert Step(argv, st) == Continue(State(i, positionalOnly, libPath, funcName, argPairs, options));
          continue;
        }
        if !positionalOnly {
          var flag := HandleOption(tok, argv, i);
          if flag.Help? {
            assert Step(argv, st) == Stop(Scanned(ShowHelp, options));
            return ShowHelp;
          } else if flag.Version? {
            assert Step(argv, st) == Stop(Scanned(ShowVersion, options));
            return ShowVersion;
          } else if flag.FlagError? {
            assert Step(argv, st) == Stop(Scanned(Failed(flag.error), options));
            return Failed(flag.error);
          } else if flag.n > 0 {
            i := i + flag.n;
            assert Step(argv, st) == Continue(State(i, positionalOnly, libPath, funcName, argPairs, options));
            continue;
          }
        }
        assert options == st.opts;
        var next := ScanPositional(argv, st);
        if next.Stop? {
          return next.result.outcome;
        }
        i, positionalOnly, libPath, funcName, argPairs := next.st.i, next.st.positionalOnly, next.st.libPath, next.st.funcName, next.st.pairs;
      }
      r := Done(libPath, funcName, argPairs);
    }

    /** The positional part of one turn of the `scan_argv!` loop: the
        library path, the function name or a `TYPE VALUE` pair, skipping
        `--` tokens between a type and its value. */
    method ScanPositional(argv: seq<string>, st: State) returns (next: Next)
      requires st.i < |argv|
      ensures next == Positional(argv, st)
    {
      var tok := argv[st.i];
      if st.libPath.None? && st.opts.libName.None? {
        return Continue(st.(libPath := Some(tok), i := st.i + 1));
      }
      if st.funcName.None? {
        return Continue(st.(funcName := Some(tok), i := st.i + 1));
      }
      var typeTok := tok;
      var i := st.i + 1;
      var typeSym := ParseType(typeTok);
      if typeSym.Err? {
        return Stop(Scanned(Failed(typeSym.error), st.opts));
      }
      var d := typeSym.value;
      if d.Out? || d.OutArray? {
        return Continue(st.(pairs := st.pairs + [Pair(d, NilV)], i := i));
      }
      var positionalOnly := st.positionalOnly;
      while i < |argv| && argv[i] == "--"
        invariant st.i + 1 <= i <= |argv|
        invariant SkipDashes(argv, i) == SkipDashes(argv, st.i + 1)
        invariant positionalOnly == (st.positionalOnly || i > st.i + 1)
        decreases |argv| - i
      {
        positionalOnly := true;
        i := i + 1;
      }
      if i >= |argv| {
        return Stop(Scanned(Failed(MissingArgValue(typeTok)), st.opts));
      }
      var value := CoerceValue(d, argv[i]);
      if value.Err? {
        return Stop(Scanned(Failed(value.error), st.opts));
      }
      next := Continue(st.(pairs := st.pairs + [Pair(d, value.value)], positionalOnly := positionalOnly, i := i + 1));
    }
  }
}
