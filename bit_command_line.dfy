/**
 * The command line of the `bit` tool: the special forms (help, refresh, tab
 * completion), the phase options -b/-i/-t with their "reset after a pattern"
 * rule, the -n/-r options, and patterns of the form `module[:action,action...]`.
 *
 * `Arguments` is the specification: a left fold over the arguments after
 * argv[0] that stops at the first error. `ParseArgs` is the parser itself,
 * loops and all, proved to build the options `Parse` describes.
 */
module BitCommandLine {
  import opened JavaTypes

  // ---------------------------------------------------------------------
  // Strings

  /** `std::string::find(c, from)`: the first index at or after `from` holding `c`. */
  function Find(s: string, c: char, from: nat): (r: Option<nat>)
    ensures r.Some? ==> from <= r.value < |s| && s[r.value] == c
    ensures r.Some? ==> forall k :: from <= k < r.value ==> s[k] != c
    ensures r.None? ==> forall k :: from <= k < |s| ==> s[k] != c
    decreases |s| - from
  {
    if from >= |s| then None
    else if s[from] == c then Some(from)
    else Find(s, c, from + 1)
  }

  /** The pieces of `s[from..]` between occurrences of `sep`, empty pieces included. */
  function PiecesFrom(s: string, sep: char, from: nat): seq<string>
    requires from <= |s|
    decreases |s| - from
  {
    match Find(s, sep, from)
    case None => [s[from..]]
    case Some(i) => [s[from..i]] + PiecesFrom(s, sep, i + 1)
  }

  /** The non-empty pieces, in order. */
  function NonEmpty(pieces: seq<string>): seq<string> {
    if pieces == [] then []
    else (if pieces[0] == "" then [] else [pieces[0]]) + NonEmpty(pieces[1..])
  }

  /** The pieces with `sep` between neighbours. */
  function Join(pieces: seq<string>, sep: char): string {
    if |pieces| == 0 then ""
    else if |pieces| == 1 then pieces[0]
    else Join(pieces[..|pieces| - 1], sep) + [sep] + pieces[|pieces| - 1]
  }

  lemma {:induction false} JoinCons(p: string, ps: seq<string>, sep: char)
    requires ps != []
    ensures Join([p] + ps, sep) == p + [sep] + Join(ps, sep)
    decreases |ps|
  {
    if |ps| > 1 {
      var init := ps[..|ps| - 1];
      assert ([p] + ps)[..|[p] + ps| - 1] == [p] + init;
      JoinCons(p, init, sep);
    } else {
      assert ([p] + ps)[..1] == [p];
    }
  }

  /** Splitting and joining again gives back the text that was split. */
  lemma {:induction false} JoinPieces(s: string, sep: char, from: nat)
    requires from <= |s|
    ensures Join(PiecesFrom(s, sep, from), sep) == s[from..]
    decreases |s| - from
  {
    var f := Find(s, sep, from);
    if f.Some? {
      var i := f.value;
      var rest := PiecesFrom(s, sep, i + 1);
      assert PiecesFrom(s, sep, from) == [s[from..i]] + rest;
      PiecesNonEmpty(s, sep, i + 1);
      JoinPieces(s, sep, i + 1);
      JoinCons(s[from..i], rest, sep);
      assert Join(rest, sep) == s[i + 1..];
      assert s[i] == sep;
      SliceAround(s, from, i);
    } else {
      assert PiecesFrom(s, sep, from) == [s[from..]];
    }
  }

  lemma SliceAround(s: string, from: nat, i: nat)
    requires from <= i < |s|
    ensures s[from..] == s[from..i] + [s[i]] + s[i + 1..]
  {
  }

  lemma PiecesNonEmpty(s: string, sep: char, from: nat)
    requires from <= |s|
    ensures PiecesFrom(s, sep, from) != []
  {
  }

  lemma NonEmptyCons(p: string, ps: seq<string>)
    ensures NonEmpty([p] + ps) == (if p == "" then [] else [p]) + NonEmpty(ps)
  {
    assert ([p] + ps)[1..] == ps;
  }

  /** No piece holds the separator. */
  lemma {:induction false} PiecesLackSeparator(s: string, sep: char, from: nat)
    requires from <= |s|
    ensures forall p :: p in PiecesFrom(s, sep, from) ==> sep !in p
    decreases |s| - from
  {
    match Find(s, sep, from)
    case None =>
    case Some(i) =>
      PiecesLackSeparator(s, sep, i + 1);
  }

  /** The result of NonEmpty is exactly the non-empty pieces, in their order. */
  lemma {:induction false} NonEmptyKeeps(pieces: seq<string>)
    ensures forall p :: p in NonEmpty(pieces) <==> p in pieces && p != ""
  {
    if pieces != [] {
      NonEmptyKeeps(pieces[1..]);
      assert pieces == [pieces[0]] + pieces[1..];
    }
  }

  // ---------------------------------------------------------------------
  // Patterns

  /** An argument that starts with '-'. An empty argument is a pattern (its first char reads as NUL). */
  predicate IsOption(arg: string) {
    |arg| > 0 && arg[0] == '-'
  }

  /** The target name: the text before the first ':', or the whole pattern. */
  function TargetName(pattern: string): string {
    match Find(pattern, ':', 0)
    case None => pattern
    case Some(i) => pattern[..i]
  }

  /** The actions: the non-empty comma-separated pieces after the first ':'. */
  function TargetActions(pattern: string): seq<string> {
    match Find(pattern, ':', 0)
    case None => []
    case Some(i) => NonEmpty(PiecesFrom(pattern, ',', i + 1))
  }

  /**
   * The name and actions say everything the pattern says: the name has no
   * ':', the actions are non-empty and comma-free, and the name, a colon and
   * the comma-joined pieces put the pattern back together.
   */
  lemma PatternParts(pattern: string)
    ensures ':' !in TargetName(pattern)
    ensures forall a :: a in TargetActions(pattern) ==> a != "" && ',' !in a
    ensures Find(pattern, ':', 0).None? ==> TargetName(pattern) == pattern && TargetActions(pattern) == []
    ensures Find(pattern, ':', 0).Some? ==>
              var i := Find(pattern, ':', 0).value;
              TargetName(pattern) + [':'] + Join(PiecesFrom(pattern, ',', i + 1), ',') == pattern
  {
    match Find(pattern, ':', 0)
    case None =>
    case Some(i) =>
      JoinPieces(pattern, ',', i + 1);
      PiecesLackSeparator(pattern, ',', i + 1);
      NonEmptyKeeps(PiecesFrom(pattern, ',', i + 1));
      assert pattern == pattern[..i] + [':'] + pattern[i + 1..];
  }

  // ---------------------------------------------------------------------
  // The specification of parse_args

  /** One command-line target as parsed: its phases, the pattern, and its parts. */
  datatype TargetSpec = TargetSpec(build: bool, install: bool, test: bool,
                                   pattern: string, name: string, actions: seq<string>)

  /** The phase variables of parse_args: anyPhases, gotPattern, flagBuild, flagInstall, flagTest. */
  datatype Phases = Phases(anyPhases: bool, gotPattern: bool, build: bool, install: bool, test: bool)

  /** Everything an option letter can change. */
  datatype Flags = Flags(phases: Phases, noRestart: bool, reboot: bool)

  datatype ScanState = ScanState(flags: Flags, targets: seq<TargetSpec>)

  /** Why parse_args prints the usage text and exits with status 1. */
  datatype ParseError = UnrecognizedOption(letter: char) | NoModule(pattern: string) | NoPattern

  datatype Result<+T> = Ok(value: T) | Err(error: ParseError)

  const NO_PHASES := Phases(false, false, false, false, false)
  const INITIAL_FLAGS := Flags(NO_PHASES, false, false)

  predicate IsPhaseLetter(c: char) {
    c == 'b' || c == 'i' || c == 't'
  }

  predicate IsKnownLetter(c: char) {
    c == '-' || IsPhaseLetter(c) || c == 'n' || c == 'r'
  }

  /** A phase letter; right after a pattern it first clears the other two phases. */
  function SelectPhase(p: Phases, c: char): Phases
    requires IsPhaseLetter(c)
  {
    var kept := if p.gotPattern then Phases(p.anyPhases, false, false, false, false) else p;
    match c
    case 'b' => kept.(build := true, anyPhases := true)
    case 'i' => kept.(install := true, anyPhases := true)
    case 't' => kept.(test := true, anyPhases := true)
  }

  function OptionLetter(f: Flags, c: char): Result<Flags> {
    if c == '-' then Ok(f)
    else if IsPhaseLetter(c) then Ok(f.(phases := SelectPhase(f.phases, c)))
    else if c == 'n' then Ok(f.(noRestart := true))
    else if c == 'r' then Ok(f.(reboot := true))
    else Err(UnrecognizedOption(c))
  }

  /** The letters of one option argument, in order, stopping at the first unknown one. */
  function OptionLetters(f: Flags, letters: string): Result<Flags> {
    if letters == [] then Ok(f)
    else match OptionLetters(f, letters[..|letters| - 1])
      case Err(e) => Err(e)
      case Ok(g) => OptionLetter(g, letters[|letters| - 1])
  }

  /** The target a pattern yields under the current phases; no phase option so far means all three. */
  function NewTarget(p: Phases, pattern: string): TargetSpec {
    TargetSpec(p.build || !p.anyPhases, p.install || !p.anyPhases, p.test || !p.anyPhases,
               pattern, TargetName(pattern), TargetActions(pattern))
  }

  function Argument(s: ScanState, arg: string): Result<ScanState> {
    if IsOption(arg) then
      match OptionLetters(s.flags, arg[1..])
      case Err(e) => Err(e)
      case Ok(f) => Ok(s.(flags := f))
    else if Find(arg, ':', 0) == Some(0) then Err(NoModule(arg))
    else Ok(ScanState(s.flags.(phases := s.flags.phases.(gotPattern := true)),
                      s.targets + [NewTarget(s.flags.phases, arg)]))
  }

  /** The arguments after argv[0], in order, stopping at the first error. */
  function Arguments(args: seq<string>): Result<ScanState> {
    if args == [] then Ok(ScanState(INITIAL_FLAGS, []))
    else match Arguments(args[..|args| - 1])
      case Err(e) => Err(e)
      case Ok(s) => Argument(s, args[|args| - 1])
  }

  /** What the command line asks for. */
  datatype Command = Help | Refresh | Tab(tabPattern: string)
                   | Run(noRestart: bool, reboot: bool, targets: seq<TargetSpec>)

  /** argv[1 .. argc). */
  function ArgsOf(argv: seq<string>): seq<string> {
    if argv == [] then [] else argv[1..]
  }

  function Parse(argv: seq<string>): Result<Command> {
    if |argv| == 2 && (argv[1] == "-h" || argv[1] == "--help") then Ok(Help)
    else if |argv| == 2 && argv[1] == "--refresh" then Ok(Refresh)
    else if |argv| >= 4 && argv[1] == "--tab" then Ok(Tab(argv[3]))
    else match Arguments(ArgsOf(argv))
      case Err(e) => Err(e)
      case Ok(s) =>
        if s.targets == [] then Err(NoPattern)
        else Ok(Run(s.flags.noRestart, s.flags.reboot, s.targets))
  }

  // ---------------------------------------------------------------------
  // Properties of the specification

  /** The special forms win over everything else; a `--tab` needs at least two more words. */
  lemma SpecialForms(argv: seq<string>)
    ensures |argv| == 2 && (argv[1] == "-h" || argv[1] == "--help") ==> Parse(argv) == Ok(Help)
    ensures |argv| == 2 && argv[1] == "--refresh" ==> Parse(argv) == Ok(Refresh)
    ensures |argv| >= 4 && argv[1] == "--tab" ==> Parse(argv) == Ok(Tab(argv[3]))
    ensures Parse(argv).Ok? && !Parse(argv).value.Run? ==>
              (|argv| == 2 && argv[1] in {"-h", "--help", "--refresh"}) || (|argv| >= 4 && argv[1] == "--tab")
  {
  }

  /** An error in a prefix is the error of the whole line. */
  lemma {:induction false} ArgumentsErrorPersists(args: seq<string>, n: nat)
    requires n <= |args| && Arguments(args[..n]).Err?
    ensures Arguments(args) == Arguments(args[..n])
    decreases |args| - n
  {
    if n < |args| {
      assert args[..n + 1][..n] == args[..n];
      ArgumentsErrorPersists(args, n + 1);
    } else {
      assert args[..n] == args;
    }
  }

  lemma {:induction false} LettersErrorPersists(f: Flags, letters: string, n: nat)
    requires n <= |letters| && OptionLetters(f, letters[..n]).Err?
    ensures OptionLetters(f, letters) == OptionLetters(f, letters[..n])
    decreases |letters| - n
  {
    if n < |letters| {
      assert letters[..n + 1][..n] == letters[..n];
      LettersErrorPersists(f, letters, n + 1);
    } else {
      assert letters[..n] == letters;
    }
  }

  /** The letters of an option fail exactly when one of them is unknown. */
  lemma {:induction false} LettersFail(f: Flags, letters: string)
    ensures OptionLetters(f, letters).Err? <==> exists c :: c in letters && !IsKnownLetter(c)
  {
    if letters != [] {
      var init, c := letters[..|letters| - 1], letters[|letters| - 1];
      assert letters == init + [c];
      assert forall d :: d in letters <==> d in init || d == c;
      LettersFail(f, init);
      if OptionLetters(f, init).Ok? {
        assert OptionLetters(f, letters) == OptionLetter(OptionLetters(f, init).value, c);
        assert OptionLetters(f, letters).Err? <==> !IsKnownLetter(c);
      }
    }
  }

  /** An argument that makes parsing fail: an unknown option letter, or a pattern without a module. */
  predicate BadArgument(arg: string) {
    if IsOption(arg) then exists c :: c in arg[1..] && !IsKnownLetter(c)
    else |arg| > 0 && arg[0] == ':'
  }

  /** Parsing fails exactly when some argument is bad. */
  lemma {:induction false} ArgumentsFail(args: seq<string>)
    ensures Arguments(args).Err? <==> exists a :: a in args && BadArgument(a)
  {
    if args != [] {
      var init, a := args[..|args| - 1], args[|args| - 1];
      assert args == init + [a];
      assert forall b :: b in args <==> b in init || b == a;
      ArgumentsFail(init);
      if Arguments(init).Ok? {
        var st := Arguments(init).value;
        assert Arguments(args) == Argument(st, a);
        if IsOption(a) {
          LettersFail(st.flags, a[1..]);
        } else {
          assert Find(a, ':', 0) == Some(0) <==> |a| > 0 && a[0] == ':';
        }
        assert Arguments(args).Err? <==> BadArgument(a);
      }
    }
  }

  /** Only the final check reports a missing pattern. */
  lemma {:induction false} ArgumentsErrorKind(args: seq<string>)
    ensures Arguments(args).Err? ==> !Arguments(args).error.NoPattern?
  {
    if args != [] {
      ArgumentsErrorKind(args[..|args| - 1]);
      if Arguments(args[..|args| - 1]).Ok? && IsOption(args[|args| - 1]) {
        LettersErrorKind(Arguments(args[..|args| - 1]).value.flags, args[|args| - 1][1..]);
      }
    }
  }

  lemma {:induction false} LettersErrorKind(f: Flags, letters: string)
    ensures OptionLetters(f, letters).Err? ==> OptionLetters(f, letters).error.UnrecognizedOption?
  {
    if letters != [] {
      LettersErrorKind(f, letters[..|letters| - 1]);
    }
  }

  /** The non-option arguments, in order. */
  function NonOptions(args: seq<string>): seq<string> {
    if args == [] then []
    else NonOptions(args[..|args| - 1]) + (if IsOption(args[|args| - 1]) then [] else [args[|args| - 1]])
  }

  function Patterns(targets: seq<TargetSpec>): seq<string> {
    if targets == [] then [] else Patterns(targets[..|targets| - 1]) + [targets[|targets| - 1].pattern]
  }

  /**
   * One target per non-option argument, in command-line order, each named
   * and split from its own pattern.
   */
  lemma {:induction false} TargetsFollowArguments(args: seq<string>)
    requires Arguments(args).Ok?
    ensures Patterns(Arguments(args).value.targets) == NonOptions(args)
    ensures forall t :: t in Arguments(args).value.targets ==>
              t.name == TargetName(t.pattern) && t.actions == TargetActions(t.pattern)
  {
    if args != [] {
      var init, a := args[..|args| - 1], args[|args| - 1];
      TargetsFollowArguments(init);
      var s := Arguments(init).value;
      if !IsOption(a) {
        var ts := s.targets + [NewTarget(s.flags.phases, a)];
        assert ts[..|ts| - 1] == s.targets;
      }
    }
  }

  // Phase letters seen in the arguments.

  /** Some option argument holds letter `c`. */
  predicate HasLetter(args: seq<string>, c: char) {
    exists a :: a in args && IsOption(a) && c in a[1..]
  }

  predicate AnyPhase(args: seq<string>) {
    HasLetter(args, 'b') || HasLetter(args, 'i') || HasLetter(args, 't')
  }

  /** Some option argument after the last pattern holds letter `c`. */
  function GroupHas(args: seq<string>, c: char): bool {
    if args == [] then false
    else if !IsOption(args[|args| - 1]) then false
    else c in args[|args| - 1][1..] || GroupHas(args[..|args| - 1], c)
  }

  predicate GroupHasPhase(args: seq<string>) {
    GroupHas(args, 'b') || GroupHas(args, 'i') || GroupHas(args, 't')
  }

  predicate PhaseIn(letters: string) {
    'b' in letters || 'i' in letters || 't' in letters
  }

  /** What the letters of one option do to the phases. */
  lemma {:induction false} LettersPhases(f: Flags, letters: string)
    requires OptionLetters(f, letters).Ok?
    ensures var g := OptionLetters(f, letters).value.phases;
            && (!PhaseIn(letters) ==> g == f.phases)
            && (PhaseIn(letters) ==>
                  && g.anyPhases && !g.gotPattern
                  && g.build == ('b' in letters || (f.phases.build && !f.phases.gotPattern))
                  && g.install == ('i' in letters || (f.phases.install && !f.phases.gotPattern))
                  && g.test == ('t' in letters || (f.phases.test && !f.phases.gotPattern)))
  {
    if letters != [] {
      var init, c := letters[..|letters| - 1], letters[|letters| - 1];
      assert letters == init + [c];
      var g := OptionLetters(f, init).value;
      assert OptionLetters(f, letters) == OptionLetter(g, c);
      LettersPhases(f, init);
      OneLetterPhases(g, c);
      assert 'b' in letters <==> 'b' in init || c == 'b';
      assert 'i' in letters <==> 'i' in init || c == 'i';
      assert 't' in letters <==> 't' in init || c == 't';
    }
  }

  lemma OneLetterPhases(g: Flags, c: char)
    requires OptionLetter(g, c).Ok?
    ensures var h := OptionLetter(g, c).value.phases;
            && (!IsPhaseLetter(c) ==> h == g.phases)
            && (IsPhaseLetter(c) ==>
                  && h.anyPhases && !h.gotPattern
                  && h.build == (c == 'b' || (g.phases.build && !g.phases.gotPattern))
                  && h.install == (c == 'i' || (g.phases.install && !g.phases.gotPattern))
                  && h.test == (c == 't' || (g.phases.test && !g.phases.gotPattern)))
  {
  }

  /**
   * The phase variables after any prefix of the arguments, in terms of the
   * letters seen: anyPhases records whether any phase letter was seen; with
   * phase letters since the last pattern, the phases are exactly those
   * letters; without, gotPattern records whether a pattern was seen, and the
   * phases are those of the last target.
   */
  lemma {:induction false} PhasesInvariant(args: seq<string>)
    requires Arguments(args).Ok?
    ensures PhasesAgree(args, Arguments(args).value)
  {
    if args != [] {
      var init, a := args[..|args| - 1], args[|args| - 1];
      assert args == init + [a];
      PhasesInvariant(init);
      if IsOption(a) {
        OptionKeepsPhasesAgreeing(init, a, Arguments(init).value);
      } else {
        PatternKeepsPhasesAgreeing(init, a, Arguments(init).value);
      }
    }
  }

  /** The phase variables of `s` agree with the letters and patterns of `args`. */
  ghost predicate PhasesAgree(args: seq<string>, s: ScanState) {
    var p := s.flags.phases;
    && p.anyPhases == AnyPhase(args)
    && (GroupHasPhase(args) ==>
          !p.gotPattern && p.build == GroupHas(args, 'b') && p.install == GroupHas(args, 'i')
          && p.test == GroupHas(args, 't'))
    && (!GroupHasPhase(args) ==> p.gotPattern == (NonOptions(args) != []))
    && (!GroupHasPhase(args) && NonOptions(args) == [] ==> p == NO_PHASES)
    && (!GroupHasPhase(args) && s.targets != [] ==>
          var t := s.targets[|s.targets| - 1];
          t.build == (p.build || !p.anyPhases) && t.install == (p.install || !p.anyPhases)
          && t.test == (p.test || !p.anyPhases))
  }

  lemma OptionKeepsPhasesAgreeing(init: seq<string>, a: string, s: ScanState)
    requires IsOption(a) && PhasesAgree(init, s) && Argument(s, a).Ok?
    ensures PhasesAgree(init + [a], Argument(s, a).value)
  {
    var args := init + [a];
    assert args[..|args| - 1] == init;
    LettersPhases(s.flags, a[1..]);
    assert forall c :: HasLetter(args, c) <==> HasLetter(init, c) || c in a[1..];
  }

  lemma PatternKeepsPhasesAgreeing(init: seq<string>, a: string, s: ScanState)
    requires !IsOption(a) && PhasesAgree(init, s) && Argument(s, a).Ok?
    ensures PhasesAgree(init + [a], Argument(s, a).value)
  {
    var args := init + [a];
    assert args[..|args| - 1] == init;
    assert forall c :: HasLetter(args, c) <==> HasLetter(init, c);
  }

  /**
   * The phases a pattern gets: all three when no phase letter came before it;
   * exactly the phase letters given since the previous pattern, when there
   * are any; otherwise the same phases as the previous target.
   */
  lemma PatternPhases(args: seq<string>, pattern: string)
    requires !IsOption(pattern) && Arguments(args + [pattern]).Ok?
    ensures var ts := Arguments(args + [pattern]).value.targets; var t := ts[|ts| - 1];
            && t.pattern == pattern
            && (!AnyPhase(args) ==> t.build && t.install && t.test)
            && (GroupHasPhase(args) ==>
                  t.build == GroupHas(args, 'b') && t.install == GroupHas(args, 'i') && t.test == GroupHas(args, 't'))
            && (AnyPhase(args) && !GroupHasPhase(args) ==>
                  var before := Arguments(args).value.targets;
                  before != [] && t.build == before[|before| - 1].build
                  && t.install == before[|before| - 1].install && t.test == before[|before| - 1].test)
  {
    var all := args + [pattern];
    assert all[..|all| - 1] == args;
    PhasesInvariant(args);
    TargetsFollowArguments(args);
    if Arguments(args).value.targets == [] {
      assert Patterns([]) == [];
    }
  }

  /**
   * Parsing a full command line: it fails exactly on a bad argument or when no
   * pattern is given, unless a special form applies.
   */
  lemma ParseFails(argv: seq<string>)
    requires !(|argv| == 2 && argv[1] in {"-h", "--help", "--refresh"}) && !(|argv| >= 4 && argv[1] == "--tab")
    ensures Parse(argv).Err? <==>
              (exists a :: a in ArgsOf(argv) && BadArgument(a)) || NonOptions(ArgsOf(argv)) == []
    ensures Parse(argv) == Err(NoPattern) <==>
              (forall a :: a in ArgsOf(argv) ==> !BadArgument(a)) && NonOptions(ArgsOf(argv)) == []
  {
    ArgumentsFail(ArgsOf(argv));
    ArgumentsErrorKind(ArgsOf(argv));
    if Arguments(ArgsOf(argv)).Ok? {
      TargetsFollowArguments(ArgsOf(argv));
      if Arguments(ArgsOf(argv)).value.targets == [] {
        assert Patterns([]) == [];
      }
    }
  }

  // ---------------------------------------------------------------------
  // The parser

  /** A command-line target (struct Target); the test counters are filled in later. */
  class Target {
    var build: bool
    var install: bool
    var test: bool
    var pattern: string
    var name: string
    var actions: seq<string>
    var testActionCount: int
    var testPassCount: int
    var testFailCount: int
    var testIgnoreCount: int
    /** "Process crashed" and the like. */
    var unknownFailureCount: int

    constructor (b: bool, i: bool, t: bool, p: string)
      ensures build == b && install == i && test == t && pattern == p
      ensures name == "" && actions == [] && CountersZero()
    {
      build, install, test, pattern := b, i, t, p;
      name, actions := "", [];
      testActionCount, testPassCount, testFailCount, testIgnoreCount, unknownFailureCount := 0, 0, 0, 0, 0;
    }

    predicate CountersZero()
      reads this
    {
      testActionCount == 0 && testPassCount == 0 && testFailCount == 0 && testIgnoreCount == 0
      && unknownFailureCount == 0
    }

    function Spec(): TargetSpec
      reads this
    {
      TargetSpec(build, install, test, pattern, name, actions)
    }
  }

  /** struct Options. */
  class Options {
    var runHelp: bool
    var runRefresh: bool
    var runTab: bool
    var tabPattern: string
    var noRestart: bool
    var reboot: bool
    var targets: seq<Target>

    constructor ()
      ensures !runHelp && !runRefresh && !runTab && tabPattern == "" && !noRestart && !reboot && targets == []
    {
      runHelp, runRefresh, runTab, tabPattern := false, false, false, "";
      noRestart, reboot, targets := false, false, [];
    }

    /** The options hold `command`, with freshly counted targets. */
    predicate Holds(command: Command)
      reads this, targets
    {
      && runHelp == command.Help?
      && runRefresh == command.Refresh?
      && runTab == command.Tab?
      && tabPattern == (if command.Tab? then command.tabPattern else "")
      && noRestart == (command.Run? && command.noRestart)
      && reboot == (command.Run? && command.reboot)
      && |targets| == (if command.Run? then |command.targets| else 0)
      && forall k :: 0 <= k < |targets| ==> targets[k].Spec() == command.targets[k] && targets[k].CountersZero()
    }
  }

  /** The inner loop over one option's letters. */
  method ScanOption(options: Options, phases: Phases, arg: string) returns (newPhases: Phases, error: Option<ParseError>)
    requires IsOption(arg)
    modifies options`noRestart, options`reboot
    ensures match OptionLetters(Flags(phases, old(options.noRestart), old(options.reboot)), arg[1..])
            case Err(e) => error == Some(e)
            case Ok(f) => error == None && f == Flags(newPhases, options.noRestart, options.reboot)
  {
    ghost var f0 := Flags(phases, options.noRestart, options.reboot);
    newPhases := phases;
    error := None;
    for j := 1 to |arg|
      invariant OptionLetters(f0, arg[1..j]) == Ok(Flags(newPhases, options.noRestart, options.reboot))
    {
      assert arg[1..j + 1][..j - 1] == arg[1..j];
      assert arg[1..j + 1][j - 1] == arg[j];
      assert OptionLetters(f0, arg[1..j + 1]) == OptionLetter(Flags(newPhases, options.noRestart, options.reboot), arg[j]);
      var c := arg[j];
      if IsPhaseLetter(c) {
        newPhases := SelectPhase(newPhases, c);
      } else if c == 'n' {
        options.noRestart := true;
      } else if c == 'r' {
        options.reboot := true;
      } else if c != '-' {
        assert arg[1..][..j] == arg[1..j + 1];
        LettersErrorPersists(f0, arg[1..], j);
        return newPhases, Some(UnrecognizedOption(c));
      }
    }
    assert arg[1..|arg|] == arg[1..];
  }

  /** One step of the splitting loop: the next piece, kept if non-empty, then the rest. */
  lemma NonEmptyPiecesStep(s: string, from: nat, commaPos: Option<nat>)
    requires from <= |s| && commaPos == Find(s, ',', from)
    ensures commaPos.None? ==> NonEmpty(PiecesFrom(s, ',', from)) == (if from == |s| then [] else [s[from..]])
    ensures commaPos.Some? ==>
              from <= commaPos.value < |s|
              && NonEmpty(PiecesFrom(s, ',', from))
                 == (if commaPos.value == from then [] else [s[from..commaPos.value]])
                    + NonEmpty(PiecesFrom(s, ',', commaPos.value + 1))
  {
    match commaPos
    case None =>
      NonEmptyCons(s[from..], []);
    case Some(c) =>
      NonEmptyCons(s[from..c], PiecesFrom(s, ',', c + 1));
  }

  /** The name and actions of a pattern, split at the first ':' and then at each ','. */
  method SplitPattern(target: Target, arg: string, colonPos: Option<nat>)
    requires colonPos == Find(arg, ':', 0)
    modifies target`name, target`actions
    ensures target.name == TargetName(arg)
    ensures target.actions == old(target.actions) + TargetActions(arg)
  {
    if colonPos.None? {
      target.name := arg;
    } else {
      target.name := arg[..colonPos.value];
      SplitActions(target, arg, colonPos.value + 1);
    }
  }

  /** The comma loop: pushes the non-empty pieces of `arg[beginPos..]` onto the actions. */
  method SplitActions(target: Target, arg: string, beginPos: nat)
    requires beginPos <= |arg|
    modifies target`actions
    ensures target.actions == old(target.actions) + NonEmpty(PiecesFrom(arg, ',', beginPos))
  {
    ghost var start, all := target.actions, NonEmpty(PiecesFrom(arg, ',', beginPos));
    ghost var todo := all;
    var beginPos := beginPos;
    while true
      invariant beginPos <= |arg|
      invariant todo == NonEmpty(PiecesFrom(arg, ',', beginPos))
      invariant start + all == target.actions + todo
      decreases |arg| - beginPos
    {
      var commaPos := Find(arg, ',', beginPos);
      NonEmptyPiecesStep(arg, beginPos, commaPos);
      if commaPos.None? {
        if beginPos != |arg| {
          var piece := arg[beginPos..];
          assert todo == [piece];
          target.actions := target.actions + [piece];
        }
        break;
      }
      ghost var rest := NonEmpty(PiecesFrom(arg, ',', commaPos.value + 1));
      if commaPos.value != beginPos {
        var piece := arg[beginPos..commaPos.value];
        assert todo == [piece] + rest;
        AppendAssociates(target.actions, [piece], rest);
        target.actions := target.actions + [piece];
      } else {
        assert todo == rest;
      }
      beginPos := commaPos.value + 1;
      todo := rest;
    }
  }

  lemma AppendAssociates(a: seq<string>, b: seq<string>, c: seq<string>)
    ensures a + (b + c) == (a + b) + c
  {
  }

  /** The pattern branch of parse_args: a new target, or the missing-module error. */
  method PatternTarget(phases: Phases, arg: string) returns (target: Target, error: Option<ParseError>)
    ensures fresh(target)
    ensures error.Some? <==> Find(arg, ':', 0) == Some(0)
    ensures error.Some? ==> error.value == NoModule(arg)
    ensures error.None? ==> target.Spec() == NewTarget(phases, arg) && target.CountersZero()
  {
    target := new Target(phases.build || !phases.anyPhases, phases.install || !phases.anyPhases,
                         phases.test || !phases.anyPhases, arg);
    var colonPos := Find(arg, ':', 0);
    if colonPos == Some(0) {
      return target, Some(NoModule(arg));
    }
    SplitPattern(target, arg, colonPos);
    assert target.actions == TargetActions(arg);
    error := None;
  }

  /**
   * parse_args on a freshly constructed Options. Where the source prints the
   * usage text and exits, the error is returned instead.
   */
  method ParseArgs(argv: seq<string>) returns (options: Options, error: Option<ParseError>)
    ensures fresh(options)
    ensures error.Some? <==> Parse(argv).Err?
    ensures error.Some? ==> Parse(argv).error == error.value
    ensures Parse(argv).Ok? ==> options.Holds(Parse(argv).value)
    ensures forall k :: 0 <= k < |options.targets| ==> fresh(options.targets[k])
  {
    options := new Options();
    error := None;
    if |argv| == 2 && (argv[1] == "-h" || argv[1] == "--help") {
      options.runHelp := true;
      return;
    }
    if |argv| == 2 && argv[1] == "--refresh" {
      options.runRefresh := true;
      return;
    }
    if |argv| >= 4 && argv[1] == "--tab" {
      options.runTab := true;
      options.tabPattern := argv[3];
      return;
    }
    var e := ScanArguments(options, ArgsOf(argv));
    if e.Some? {
      return options, e;
    }
    if |options.targets| == 0 {
      return options, Some(NoPattern);
    }
  }

  /** The loop of parse_args over argv[1 .. argc), on options still holding their defaults. */
  method ScanArguments(options: Options, args: seq<string>) returns (error: Option<ParseError>)
    requires !options.noRestart && !options.reboot && options.targets == []
    modifies options`noRestart, options`reboot, options`targets
    ensures error.Some? <==> Arguments(args).Err?
    ensures error.Some? ==> Arguments(args).error == error.value
    ensures Arguments(args).Ok? ==>
              var s := Arguments(args).value;
              && options.noRestart == s.flags.noRestart && options.reboot == s.flags.reboot
              && |options.targets| == |s.targets|
              && forall k :: 0 <= k < |s.targets| ==>
                   options.targets[k].Spec() == s.targets[k] && options.targets[k].CountersZero()
    ensures forall k :: 0 <= k < |options.targets| ==> fresh(options.targets[k])
  {
    var phases := NO_PHASES;
    ghost var specs: seq<TargetSpec> := [];
    for i := 0 to |args|
      invariant Arguments(args[..i]) == Ok(ScanState(Flags(phases, options.noRestart, options.reboot), specs))
      invariant |options.targets| == |specs|
      invariant forall k :: 0 <= k < |specs| ==>
                  options.targets[k].Spec() == specs[k] && options.targets[k].CountersZero()
      invariant forall k :: 0 <= k < |specs| ==> fresh(options.targets[k])
    {
      var arg := args[i];
      ghost var st := ScanState(Flags(phases, options.noRestart, options.reboot), specs);
      assert args[..i + 1][..i] == args[..i];
      assert Arguments(args[..i + 1]) == Argument(st, arg);
      if IsOption(arg) {
        var e;
        phases, e := ScanOption(options, phases, arg);
        if e.Some? {
          ArgumentsErrorPersists(args, i + 1);
          return e;
        }
        assert Argument(st, arg) == Ok(ScanState(Flags(phases, options.noRestart, options.reboot), specs));
      } else {
        var target, e := PatternTarget(phases, arg);
        if e.Some? {
          ArgumentsErrorPersists(args, i + 1);
          return e;
        }
        options.targets := options.targets + [target];
        phases := phases.(gotPattern := true);
        specs := specs + [target.Spec()];
        assert Argument(st, arg) == Ok(ScanState(Flags(phases, options.noRestart, options.reboot), specs));
      }
    }
    assert args[..|args|] == args;
    error := None;
  }
}
