/**
 * What the two `PythonVigenereService` classes share: the command-line
 * length rule, the argument vectors, the loops that drain the child's
 * output, the exit-code check, the result pair, the temporary-file store and
 * the specification of the temp-file run (with the one point where the two
 * classes differ, the handling of a failed delete, as a parameter).
 *
 * The child process is an oracle: given the argument vector and the files it
 * can see, it either fails to start or exits with a code, the lines it wrote
 * to stdout and stderr, and what it left in the output file.
 */
module Bridge {
  import opened Common
  import opened Text

  /** CMD_MAX: the safe command-line length for Windows. */
  const CmdMax := 8000

  const Interpreter := "python"

  // ========================================================= mode selection

  /** Java's `String.length()`: UTF-16 code units, two for a character above U+FFFF. */
  function Utf16Length(s: string): (n: nat)
    ensures |s| <= n <= 2 * |s|
  {
    if s == [] then 0 else Utf16Length(s[..|s| - 1]) + (if s[|s| - 1] as int > 0xFFFF then 2 else 1)
  }

  lemma {:induction false} Utf16LengthAppend(a: string, b: string)
    ensures Utf16Length(a + b) == Utf16Length(a) + Utf16Length(b)
  {
    if b != [] {
      assert (a + b)[..|a + b| - 1] == a + b[..|b| - 1];
      Utf16LengthAppend(a, b[..|b| - 1]);
    } else {
      assert a + b == a;
    }
  }

  /** Without characters above U+FFFF the UTF-16 length is the length. */
  lemma {:induction false} Utf16LengthBmp(s: string)
    requires forall i :: 0 <= i < |s| ==> s[i] as int <= 0xFFFF
    ensures Utf16Length(s) == |s|
  {
    if s != [] {
      Utf16LengthBmp(s[..|s| - 1]);
    }
  }

  /** The command `procesarTexto` simulates to decide whether the text fits. */
  function SimulatedCommand(script: string, modo: string, texto: string, clave: string): (r: string)
    ensures |r| == 10 + |script| + |modo| + |texto| + |clave|
  {
    Interpreter + " " + script + " " + modo + " " + texto + " " + clave
  }

  /** `procesarTexto`'s choice: the temp-file route exactly when the simulated command is longer than CMD_MAX. */
  predicate UsesFileMode(script: string, modo: string, texto: string, clave: string): (b: bool)
    ensures |texto| > CmdMax || |clave| > CmdMax ==> b
    ensures b ==> 2 * (10 + |script| + |modo| + |texto| + |clave|) > CmdMax
  {
    Utf16Length(SimulatedCommand(script, modo, texto, clave)) > CmdMax
  }

  /**
   * The simulated length is the four parts plus ten fixed characters
   * ("python" and four spaces), so the key counts toward the limit exactly
   * as the text does.
   */
  lemma FileModeIff(script: string, modo: string, texto: string, clave: string)
    ensures UsesFileMode(script, modo, texto, clave) <==>
      10 + Utf16Length(script) + Utf16Length(modo) + Utf16Length(texto) + Utf16Length(clave) > CmdMax
  {
    var p := Interpreter + " ";
    Utf16LengthBmp(p);
    Utf16LengthBmp(" ");
    Utf16LengthAppend(p, script);
    Utf16LengthAppend(p + script, " ");
    Utf16LengthAppend(p + script + " ", modo);
    Utf16LengthAppend(p + script + " " + modo, " ");
    Utf16LengthAppend(p + script + " " + modo + " ", texto);
    Utf16LengthAppend(p + script + " " + modo + " " + texto, " ");
    Utf16LengthAppend(p + script + " " + modo + " " + texto + " ", clave);
  }

  /** A simulated length of exactly CMD_MAX stays on the inline route; one more unit switches. */
  lemma ThresholdBoundary(script: string, modo: string, texto: string, clave: string, extra: char)
    requires 10 + Utf16Length(script) + Utf16Length(modo) + Utf16Length(texto) + Utf16Length(clave) == CmdMax
    requires extra as int <= 0xFFFF
    ensures !UsesFileMode(script, modo, texto, clave)
    ensures UsesFileMode(script, modo, texto, clave + [extra])
    ensures UsesFileMode(script, modo, texto + [extra], clave)
  {
    FileModeIff(script, modo, texto, clave);
    FileModeIff(script, modo, texto, clave + [extra]);
    FileModeIff(script, modo, texto + [extra], clave);
    Utf16LengthAppend(clave, [extra]);
    Utf16LengthAppend(texto, [extra]);
    assert [extra][..0] == [];
  }

  /** Lengthening the key (or the text) never turns the temp-file route back into the inline one. */
  lemma FileModeMonotone(script: string, modo: string, texto: string, clave: string, more: string)
    requires UsesFileMode(script, modo, texto, clave)
    ensures UsesFileMode(script, modo, texto, clave + more)
    ensures UsesFileMode(script, modo, texto + more, clave)
  {
    FileModeIff(script, modo, texto, clave);
    FileModeIff(script, modo, texto, clave + more);
    FileModeIff(script, modo, texto + more, clave);
    Utf16LengthAppend(clave, more);
    Utf16LengthAppend(texto, more);
  }

  // ======================================================= argument vectors

  /** `ejecutarTextoPorArgumentos`'s `ProcessBuilder` arguments. */
  function InlineArgv(script: string, modo: string, texto: string, clave: string): (argv: seq<string>)
    ensures |argv| == 5 && argv[0] == Interpreter && argv[1] == script
    ensures argv[2] == modo && argv[3] == texto && argv[4] == clave
  {
    [Interpreter, script, modo, texto, clave]
  }

  /** `procesarArchivo`'s `ProcessBuilder` arguments. */
  function FileArgv(script: string, modo: string, rutaIn: string, rutaOut: string, clave: string): (argv: seq<string>)
    ensures |argv| == 6 && argv[0] == Interpreter && argv[1] == script && argv[2] == modo
    ensures argv[3] == rutaIn && argv[4] == rutaOut && argv[5] == clave
  {
    [Interpreter, script, modo, rutaIn, rutaOut, clave]
  }

  /**
   * `ProcessBuilder.start()` refuses an argument holding U+0000: it throws
   * an `IOException` before any process exists.
   */
  predicate Launchable(argv: seq<string>) {
    forall i :: 0 <= i < |argv| ==> '\0' !in argv[i]
  }

  /** The mode the temp-file route passes on. */
  function FileModeName(modo: string): (r: string)
    ensures |r| == |modo| + 8 && r[..|modo|] == modo
    ensures '\0' !in modo ==> '\0' !in r
  {
    modo + "-archivo"
  }

  // ================================================== draining and the result

  /** What the read loop builds from the lines: each line followed by "\n". */
  function JoinLines(lines: seq<string>): (s: string)
    ensures lines != [] ==> s != [] && s[|s| - 1] == '\n'
  {
    if lines == [] then "" else JoinLines(lines[..|lines| - 1]) + lines[|lines| - 1] + "\n"
  }

  lemma {:induction false} JoinLinesAppend(a: seq<string>, b: seq<string>)
    ensures JoinLines(a + b) == JoinLines(a) + JoinLines(b)
  {
    if b != [] {
      assert (a + b)[..|a + b| - 1] == a + b[..|b| - 1];
      JoinLinesAppend(a, b[..|b| - 1]);
    } else {
      assert a + b == a;
    }
  }

  /** A single printed line survives the join and the trim unchanged when its ends are visible. */
  lemma PrintedLineSurvives(line: string)
    requires line != [] && !IsJavaTrimmable(line[0]) && !IsJavaTrimmable(line[|line| - 1])
    ensures Trim(JoinLines([line])) == line
  {
    assert JoinLines([line]) == line + "\n";
    TrimIgnoresTrailing(line, "\n");
    TrimKeeps(line);
  }

  /** `while ((line = reader.readLine()) != null) sb.append(line).append("\n");` */
  method Drain(lines: seq<string>) returns (text: string)
    ensures text == JoinLines(lines)
  {
    text := "";
    var i := 0;
    while i < |lines|
      invariant 0 <= i <= |lines|
      invariant text == JoinLines(lines[..i])
    {
      assert lines[..i + 1][..i] == lines[..i];
      text := text + lines[i] + "\n";
      i := i + 1;
    }
    assert lines[..|lines|] == lines;
  }

  /** `PythonResult`: the child's standard output and its warnings. */
  datatype PythonResult = PythonResult(stdout: string, stderr: string)

  /** What the child process does, as the bridge observes it. */
  datatype Reply =
    | StartFailed
    | Exited(code: int, out: seq<string>, err: seq<string>, output: Option<string>)

  /** The file steps that may throw an `IOException`. */
  datatype IoStep = CreateInput | WriteInput | CreateOutput | ReadOutput | DeleteInput | DeleteOutput

  /** Why the bridge throws; a non-zero exit keeps the code and the collected stderr its message is made of. */
  datatype BridgeError = IoFailure(step: IoStep) | StartFailure | NonZeroExit(code: int, stderr: string)
  {
    /** The message of the `RuntimeException` thrown for a non-zero exit. */
    function Message(): (m: string)
      requires NonZeroExit?
    {
      "Python devolvió código " + IntToString(code) + ":\n" + stderr
    }
  }

  /** A returned `PythonResult` or a thrown exception. */
  datatype Outcome = Ok(result: PythonResult) | Failed(error: BridgeError)

  /** The tail of `ejecutarTextoPorArgumentos` and `procesarArchivo`: check the exit code, trim both outputs. */
  function Evaluate(reply: Reply): (r: Outcome)
    ensures r.Ok? <==> reply.Exited? && reply.code == 0
    ensures r.Failed? ==> r.error.StartFailure? || r.error.NonZeroExit?
  {
    match reply
    case StartFailed => Failed(StartFailure)
    case Exited(code, out, err, _) =>
      if code != 0 then Failed(NonZeroExit(code, JoinLines(err)))
      else Ok(PythonResult(Trim(JoinLines(out)), Trim(JoinLines(err))))
  }

  /**
   * A result is returned exactly when the child started and exited with 0;
   * a non-zero exit is reported with its code and with the collected stderr,
   * untrimmed, at the end of the message.
   */
  lemma EvaluateExitCheck(reply: Reply)
    ensures Evaluate(reply).Ok? <==> reply.Exited? && reply.code == 0
    ensures Evaluate(reply).Ok? ==>
      Evaluate(reply).result.stdout == Trim(JoinLines(reply.out))
      && Evaluate(reply).result.stderr == Trim(JoinLines(reply.err))
    ensures reply.Exited? && reply.code != 0 ==>
      var e := Evaluate(reply).error;
      e.NonZeroExit? && e.code == reply.code
      && e.stderr == JoinLines(reply.err)
      && e.Message() == "Python devolvió código " + IntToString(reply.code) + ":\n" + JoinLines(reply.err)
  {
  }

  /** The two read loops, the wait and the exit check. */
  method Capture(reply: Reply) returns (r: Outcome)
    ensures r == Evaluate(reply)
  {
    if reply.StartFailed? {
      return Failed(StartFailure);
    }
    var out := Drain(reply.out);
    var err := Drain(reply.err);
    if reply.code != 0 {
      return Failed(NonZeroExit(reply.code, err));
    }
    return Ok(PythonResult(Trim(out), Trim(err)));
  }

  // ==================================================== temporary files

  const InPrefix := "scriptum_in_"
  const OutPrefix := "scriptum_out_"

  /** Every temp name is at least this long (a prefix, some digits, ".txt"). */
  const MinNameLength := 20

  /** The name `Files.createTempFile(prefix, ".txt")` hands out when names of length `len` are free. */
  function FreshName(prefix: string, len: nat): (p: string)
    requires |prefix| + 4 <= len
    ensures |p| == len
    ensures '\0' !in prefix ==> '\0' !in p
  {
    prefix + Zeros(len - |prefix| - 4) + ".txt"
  }

  /** `n` zero digits: the filler that brings a temp name to its length. */
  function Zeros(n: nat): (z: string)
    ensures |z| == n && '\0' !in z
  {
    if n == 0 then "" else "0" + Zeros(n - 1)
  }

  /** The files of the temporary directory: path to contents. */
  class TempStore {
    var files: map<string, string>
    /** Every existing path is shorter than this, so a name of this length is free. */
    var nextLength: nat

    ghost predicate Valid()
      reads this
    {
      MinNameLength <= nextLength && forall p :: p in files ==> |p| < nextLength
    }

    constructor (initial: map<string, string>)
      requires forall p :: p in initial ==> |p| < 100
      ensures Valid() && files == initial
    {
      files := initial;
      nextLength := 100;
    }

    /** `Files.createTempFile`: a new, empty file under a name no existing file has. */
    method CreateTemp(prefix: string, fails: bool) returns (path: Option<string>)
      requires Valid() && |prefix| + 4 <= MinNameLength
      modifies this
      ensures Valid()
      ensures fails <==> path.None?
      ensures fails ==> files == old(files) && nextLength == old(nextLength)
      ensures !fails ==>
        (path.value == FreshName(prefix, old(nextLength)) && path.value !in old(files)
         && files == old(files)[path.value := ""] && nextLength == old(nextLength) + 1)
    {
      if fails {
        return None;
      }
      var name := FreshName(prefix, nextLength);
      files := files[name := ""];
      nextLength := nextLength + 1;
      return Some(name);
    }

    /** `Files.writeString`. */
    method Write(path: string, data: string, fails: bool) returns (ok: bool)
      requires Valid() && path in files
      modifies this
      ensures Valid() && nextLength == old(nextLength)
      ensures ok == !fails
      ensures files == if ok then old(files)[path := data] else old(files)
    {
      if fails {
        return false;
      }
      files := files[path := data];
      return true;
    }

    /** `Files.readString`. */
    method Read(path: string, fails: bool) returns (contents: Option<string>)
      requires path in files
      ensures contents == if fails then None else Some(files[path])
    {
      if fails {
        return None;
      }
      return Some(files[path]);
    }

    /** `Files.deleteIfExists`: removes the file, or throws and leaves it. */
    method DeleteIfExists(path: string, fails: bool) returns (ok: bool)
      requires Valid()
      modifies this
      ensures Valid() && nextLength == old(nextLength)
      ensures ok == !fails
      ensures files == if ok then old(files) - {path} else old(files)
    {
      if fails {
        return false;
      }
      files := files - {path};
      return true;
    }

    /** The child process leaving `data` in `path`, which it creates if need be. */
    method ChildWrites(path: string, data: string)
      requires Valid()
      modifies this
      ensures Valid() && nextLength >= old(nextLength)
      ensures files == old(files)[path := data]
    {
      files := files[path := data];
      if |path| >= nextLength {
        nextLength := |path| + 1;
      }
    }
  }

  /** The input file's name: the first free name. */
  function InputName(nextLength: nat): (p: string)
    requires MinNameLength <= nextLength
  {
    FreshName(InPrefix, nextLength)
  }

  /** The output file's name: created right after the input file. */
  function OutputName(nextLength: nat): (p: string)
    requires MinNameLength <= nextLength
  {
    FreshName(OutPrefix, nextLength + 1)
  }

  /** The child process: its reply depends on the argument vector and the files it can see. */
  type Process = (seq<string>, map<string, string>) -> Reply

  /** The files after the child ran: what it left in the output file, if anything. */
  function AfterChild(files: map<string, string>, outPath: string, reply: Reply): (after: map<string, string>) {
    if reply.Exited? && reply.output.Some? then files[outPath := reply.output.value] else files
  }

  /** The files the child sees on the temp-file route: the input written, the output empty. */
  function SeenByChild(files: map<string, string>, nextLength: nat, texto: string): (seen: map<string, string>)
    requires MinNameLength <= nextLength
  {
    files[InputName(nextLength) := texto][OutputName(nextLength) := ""]
  }

  /** The argument vector of the temp-file route. */
  function TempFileArgv(script: string, modo: string, clave: string, nextLength: nat): (argv: seq<string>)
    requires MinNameLength <= nextLength
  {
    FileArgv(script, FileModeName(modo), InputName(nextLength), OutputName(nextLength), clave)
  }

  /**
   * `procesarTextoMedianteArchivo`, step by step: create and write the input
   * file, create the output file, run the child in file mode, read the output
   * file, delete both. `faults` names the file steps that throw;
   * `catchDeleteErrors` says whether the two deletes sit inside a catch.
   * Yields the files left afterwards and the outcome.
   */
  function TempFileRun(catchDeleteErrors: bool, files: map<string, string>, nextLength: nat,
                       script: string, modo: string, texto: string, clave: string,
                       faults: set<IoStep>, process: Process): (r: (map<string, string>, Outcome))
    requires MinNameLength <= nextLength
    ensures CreateInput in faults || WriteInput in faults || CreateOutput in faults ==>
      r.1.Failed? && r.1.error.IoFailure?
      && (r.1.error.step == CreateInput || r.1.error.step == WriteInput || r.1.error.step == CreateOutput)
    ensures r.1.Failed? && r.1.error.IoFailure? ==> r.1.error.step in faults
  {
    var tmpIn := InputName(nextLength);
    if CreateInput in faults then (files, Failed(IoFailure(CreateInput)))
    else if WriteInput in faults then (files[tmpIn := ""], Failed(IoFailure(WriteInput)))
    else if CreateOutput in faults then (files[tmpIn := texto], Failed(IoFailure(CreateOutput)))
    else
      var seen := SeenByChild(files, nextLength, texto);
      AfterLaunch(catchDeleteErrors, seen, tmpIn, OutputName(nextLength),
                  process(TempFileArgv(script, modo, clave, nextLength), seen), faults)
  }

  /** From the child's reply on: the exit check, the read of the output file, the deletes. */
  function AfterLaunch(catchDeleteErrors: bool, seen: map<string, string>, tmpIn: string, tmpOut: string,
                       reply: Reply, faults: set<IoStep>): (r: (map<string, string>, Outcome))
    requires tmpOut in seen
    ensures r.1.Ok? ==> reply.Exited? && reply.code == 0 && ReadOutput !in faults
    ensures r.1.Failed? && r.1.error.IoFailure? ==>
      r.1.error.step in faults
      && (r.1.error.step == ReadOutput || r.1.error.step == DeleteInput || r.1.error.step == DeleteOutput)
  {
    var after := AfterChild(seen, tmpOut, reply);
    var r := Evaluate(reply);
    if r.Failed? then (after, r)
    else if ReadOutput in faults then (after, Failed(IoFailure(ReadOutput)))
    else Cleanup(catchDeleteErrors, after, tmpIn, tmpOut, Ok(PythonResult(Trim(after[tmpOut]), r.result.stderr)), faults)
  }

  /** The two deletes, input first; with `catchDeleteErrors` a failure is swallowed. */
  function Cleanup(catchDeleteErrors: bool, after: map<string, string>, tmpIn: string, tmpOut: string,
                   result: Outcome, faults: set<IoStep>): (r: (map<string, string>, Outcome))
    ensures catchDeleteErrors ==> r.1 == result
    ensures r.1 != result ==>
      ((r.1 == Failed(IoFailure(DeleteInput)) && DeleteInput in faults)
       || (r.1 == Failed(IoFailure(DeleteOutput)) && DeleteOutput in faults))
    ensures r.0.Keys <= after.Keys && forall p :: p in r.0 ==> r.0[p] == after[p]
    ensures tmpIn in r.0 <==> tmpIn in after && DeleteInput in faults
  {
    if DeleteInput in faults then
      (after, if catchDeleteErrors then result else Failed(IoFailure(DeleteInput)))
    else if DeleteOutput in faults then
      (after - {tmpIn}, if catchDeleteErrors then result else Failed(IoFailure(DeleteOutput)))
    else (after - {tmpIn} - {tmpOut}, result)
  }

  /** Once both temp files exist, the run is what follows from the child's reply. */
  lemma LaunchedRun(catchDeleteErrors: bool, files: map<string, string>, nextLength: nat,
                    script: string, modo: string, texto: string, clave: string,
                    faults: set<IoStep>, process: Process)
    requires MinNameLength <= nextLength
    requires CreateInput !in faults && WriteInput !in faults && CreateOutput !in faults
    ensures var seen := SeenByChild(files, nextLength, texto);
      TempFileRun(catchDeleteErrors, files, nextLength, script, modo, texto, clave, faults, process)
      == AfterLaunch(catchDeleteErrors, seen, InputName(nextLength), OutputName(nextLength),
                     process(TempFileArgv(script, modo, clave, nextLength), seen), faults)
  {
  }

  /**
   * A result comes back only when no step up to the read of the output
   * failed, and, without the catch, no delete failed either.
   */
  lemma OkNeedsNoFault(catchDeleteErrors: bool, files: map<string, string>, nextLength: nat,
                       script: string, modo: string, texto: string, clave: string,
                       faults: set<IoStep>, process: Process)
    requires MinNameLength <= nextLength
    ensures TempFileRun(catchDeleteErrors, files, nextLength, script, modo, texto, clave, faults, process).1.Ok? ==>
      CreateInput !in faults && WriteInput !in faults && CreateOutput !in faults && ReadOutput !in faults
      && (!catchDeleteErrors ==> DeleteInput !in faults && DeleteOutput !in faults)
  {
  }

  /** The two names are fresh and distinct. */
  lemma NamesFresh(files: map<string, string>, nextLength: nat)
    requires MinNameLength <= nextLength && forall p :: p in files ==> |p| < nextLength
    ensures InputName(nextLength) !in files && OutputName(nextLength) !in files
    ensures InputName(nextLength) != OutputName(nextLength)
  {
  }

  /**
   * With no file step failing and the child exiting with 0, the child ran on
   * the written input, `stdout` is the trimmed contents of the output file
   * (not the child's stdout), `stderr` is the child's, and no temp file is left.
   */
  lemma TempFileSuccess(catchDeleteErrors: bool, files: map<string, string>, nextLength: nat,
                        script: string, modo: string, texto: string, clave: string, process: Process)
    requires MinNameLength <= nextLength && forall p :: p in files ==> |p| < nextLength
    requires var reply := process(TempFileArgv(script, modo, clave, nextLength), SeenByChild(files, nextLength, texto));
      reply.Exited? && reply.code == 0
    ensures var reply := process(TempFileArgv(script, modo, clave, nextLength), SeenByChild(files, nextLength, texto));
      TempFileRun(catchDeleteErrors, files, nextLength, script, modo, texto, clave, {}, process)
      == (files, Ok(PythonResult(Trim(reply.output.GetOr("")), Trim(JoinLines(reply.err)))))
  {
    var seen := SeenByChild(files, nextLength, texto);
    var reply := process(TempFileArgv(script, modo, clave, nextLength), seen);
    NamesFresh(files, nextLength);
    AfterLaunchSuccess(catchDeleteErrors, files, InputName(nextLength), OutputName(nextLength), texto, reply);
  }

  lemma AfterLaunchSuccess(catchDeleteErrors: bool, files: map<string, string>, tmpIn: string, tmpOut: string,
                           texto: string, reply: Reply)
    requires tmpIn !in files && tmpOut !in files && tmpIn != tmpOut
    requires reply.Exited? && reply.code == 0
    ensures AfterLaunch(catchDeleteErrors, files[tmpIn := texto][tmpOut := ""], tmpIn, tmpOut, reply, {})
      == (files, Ok(PythonResult(Trim(reply.output.GetOr("")), Trim(JoinLines(reply.err)))))
  {
    var seen := files[tmpIn := texto][tmpOut := ""];
    EvaluateExitCheck(reply);
    var stderr := Evaluate(reply).result.stderr;
    var contents := reply.output.GetOr("");
    var after := AfterChild(seen, tmpOut, reply);
    assert after == files[tmpIn := texto][tmpOut := contents];
    var result := Ok(PythonResult(Trim(contents), stderr));
    assert AfterLaunch(catchDeleteErrors, seen, tmpIn, tmpOut, reply, {})
      == Cleanup(catchDeleteErrors, after, tmpIn, tmpOut, result, {});
    RemoveBoth(files, tmpIn, tmpOut, texto, contents);
  }

  /** Adding two fresh paths and removing them again gives back the files. */
  lemma RemoveBoth(files: map<string, string>, a: string, b: string, x: string, y: string)
    requires a !in files && b !in files && a != b
    ensures files[a := x][b := y] - {a} - {b} == files
  {
  }

  /**
   * Cleanup happens only on the path that read the output: when the run
   * fails at any step before the deletes (the child not starting or exiting
   * non-zero included), every temp file created so far is still there.
   */
  lemma NoCleanupOnEarlyFailure(catchDeleteErrors: bool, files: map<string, string>, nextLength: nat,
                                script: string, modo: string, texto: string, clave: string,
                                faults: set<IoStep>, process: Process)
    requires MinNameLength <= nextLength
    ensures var (left, r) := TempFileRun(catchDeleteErrors, files, nextLength, script, modo, texto, clave, faults, process);
      r.Failed? && r.error != IoFailure(DeleteInput) && r.error != IoFailure(DeleteOutput) ==>
        (CreateInput !in faults ==> InputName(nextLength) in left)
        && (CreateInput !in faults && WriteInput !in faults && CreateOutput !in faults ==>
              left[InputName(nextLength)] == texto && OutputName(nextLength) in left)
  {
    if CreateInput !in faults && WriteInput !in faults && CreateOutput !in faults {
      var seen := SeenByChild(files, nextLength, texto);
      var reply := process(TempFileArgv(script, modo, clave, nextLength), seen);
      NamesFresh(map[], nextLength);
      assert TempFileRun(catchDeleteErrors, files, nextLength, script, modo, texto, clave, faults, process)
        == AfterLaunch(catchDeleteErrors, seen, InputName(nextLength), OutputName(nextLength), reply, faults);
      AfterLaunchKeepsOnFailure(catchDeleteErrors, seen, InputName(nextLength), OutputName(nextLength), reply, faults);
    }
  }

  lemma AfterLaunchKeepsOnFailure(catchDeleteErrors: bool, seen: map<string, string>, tmpIn: string, tmpOut: string,
                                  reply: Reply, faults: set<IoStep>)
    requires tmpIn in seen && tmpOut in seen && tmpIn != tmpOut
    ensures var run := AfterLaunch(catchDeleteErrors, seen, tmpIn, tmpOut, reply, faults);
      run.1.Failed? && run.1.error != IoFailure(DeleteInput) && run.1.error != IoFailure(DeleteOutput) ==>
        tmpIn in run.0 && run.0[tmpIn] == seen[tmpIn] && tmpOut in run.0
  {
    var after := AfterChild(seen, tmpOut, reply);
    assert tmpIn in after && after[tmpIn] == seen[tmpIn] && tmpOut in after;
    var r := Evaluate(reply);
    if r.Failed? || ReadOutput in faults {
      assert AfterLaunch(catchDeleteErrors, seen, tmpIn, tmpOut, reply, faults).0 == after;
    } else {
      var result := Ok(PythonResult(Trim(after[tmpOut]), r.result.stderr));
      assert AfterLaunch(catchDeleteErrors, seen, tmpIn, tmpOut, reply, faults)
        == Cleanup(catchDeleteErrors, after, tmpIn, tmpOut, result, faults);
      CleanupFailsOnlyAtDelete(catchDeleteErrors, after, tmpIn, tmpOut, result, faults);
    }
  }

  /** Starting from a result, the cleanup can fail only at one of the two deletes. */
  lemma CleanupFailsOnlyAtDelete(catchDeleteErrors: bool, after: map<string, string>, tmpIn: string, tmpOut: string,
                                 result: Outcome, faults: set<IoStep>)
    requires result.Ok?
    ensures var run := Cleanup(catchDeleteErrors, after, tmpIn, tmpOut, result, faults);
      run.1.Failed? ==> run.1.error == IoFailure(DeleteInput) || run.1.error == IoFailure(DeleteOutput)
  {
  }

  /** The child failing to start or exiting non-zero leaves both temp files behind. */
  lemma ChildFailureLeavesTempFiles(catchDeleteErrors: bool, files: map<string, string>, nextLength: nat,
                                    script: string, modo: string, texto: string, clave: string,
                                    faults: set<IoStep>, process: Process)
    requires MinNameLength <= nextLength
    requires CreateInput !in faults && WriteInput !in faults && CreateOutput !in faults
    requires var reply := process(TempFileArgv(script, modo, clave, nextLength), SeenByChild(files, nextLength, texto));
      reply.StartFailed? || reply.code != 0
    ensures var (left, r) := TempFileRun(catchDeleteErrors, files, nextLength, script, modo, texto, clave, faults, process);
      r.Failed? && (r.error.StartFailure? || r.error.NonZeroExit?)
      && InputName(nextLength) in left && OutputName(nextLength) in left
  {
    var seen := SeenByChild(files, nextLength, texto);
    var reply := process(TempFileArgv(script, modo, clave, nextLength), seen);
    NamesFresh(map[], nextLength);
    assert TempFileRun(catchDeleteErrors, files, nextLength, script, modo, texto, clave, faults, process)
      == AfterLaunch(catchDeleteErrors, seen, InputName(nextLength), OutputName(nextLength), reply, faults);
  }

  /**
   * With the deletes inside a catch, a failed delete changes nothing in the
   * returned result; a failed input delete also skips the output delete.
   */
  lemma CaughtDeleteFailure(files: map<string, string>, nextLength: nat,
                            script: string, modo: string, texto: string, clave: string,
                            faults: set<IoStep>, process: Process)
    requires MinNameLength <= nextLength
    requires faults <= {DeleteInput, DeleteOutput}
    ensures var (left, r) := TempFileRun(true, files, nextLength, script, modo, texto, clave, faults, process);
      r == TempFileRun(true, files, nextLength, script, modo, texto, clave, {}, process).1
    ensures var (left, r) := TempFileRun(true, files, nextLength, script, modo, texto, clave, faults, process);
      r.Ok? && DeleteInput in faults ==> InputName(nextLength) in left && OutputName(nextLength) in left
    ensures var (left, r) := TempFileRun(true, files, nextLength, script, modo, texto, clave, faults, process);
      r.Ok? && DeleteInput !in faults && DeleteOutput in faults ==>
        InputName(nextLength) !in left && OutputName(nextLength) in left
  {
    var seen := SeenByChild(files, nextLength, texto);
    var reply := process(TempFileArgv(script, modo, clave, nextLength), seen);
    var tmpIn, tmpOut := InputName(nextLength), OutputName(nextLength);
    NamesFresh(map[], nextLength);
    assert CreateInput !in faults && WriteInput !in faults && CreateOutput !in faults && ReadOutput !in faults;
    assert TempFileRun(true, files, nextLength, script, modo, texto, clave, faults, process)
      == AfterLaunch(true, seen, tmpIn, tmpOut, reply, faults);
    assert TempFileRun(true, files, nextLength, script, modo, texto, clave, {}, process)
      == AfterLaunch(true, seen, tmpIn, tmpOut, reply, {});
    var after := AfterChild(seen, tmpOut, reply);
    if Evaluate(reply).Ok? {
      var result := Ok(PythonResult(Trim(after[tmpOut]), Evaluate(reply).result.stderr));
      assert AfterLaunch(true, seen, tmpIn, tmpOut, reply, faults) == Cleanup(true, after, tmpIn, tmpOut, result, faults);
      assert AfterLaunch(true, seen, tmpIn, tmpOut, reply, {}) == Cleanup(true, after, tmpIn, tmpOut, result, {});
      CaughtCleanup(after, tmpIn, tmpOut, result, faults);
    }
  }

  lemma CaughtCleanup(after: map<string, string>, tmpIn: string, tmpOut: string, result: Outcome, faults: set<IoStep>)
    requires tmpIn in after && tmpOut in after && tmpIn != tmpOut
    ensures var run := Cleanup(true, after, tmpIn, tmpOut, result, faults);
      (DeleteInput in faults ==> tmpIn in run.0 && tmpOut in run.0)
      && (DeleteInput !in faults && DeleteOutput in faults ==> tmpIn !in run.0 && tmpOut in run.0)
  {
    if DeleteInput !in faults && DeleteOutput in faults {
      assert Cleanup(true, after, tmpIn, tmpOut, result, faults).0 == after - {tmpIn};
    }
  }

  /**
   * With unguarded deletes, once the output has been read a failed delete
   * is what the caller sees, and no result is returned; a failed input delete
   * skips the output delete.
   */
  lemma UncaughtDeleteFailure(files: map<string, string>, nextLength: nat,
                              script: string, modo: string, texto: string, clave: string,
                              faults: set<IoStep>, process: Process)
    requires MinNameLength <= nextLength
    requires faults <= {DeleteInput, DeleteOutput}
    requires TempFileRun(true, files, nextLength, script, modo, texto, clave, faults, process).1.Ok?
    ensures var (left, r) := TempFileRun(false, files, nextLength, script, modo, texto, clave, faults, process);
      (DeleteInput in faults ==> r == Failed(IoFailure(DeleteInput)) && OutputName(nextLength) in left)
      && (DeleteInput !in faults && DeleteOutput in faults ==>
            r == Failed(IoFailure(DeleteOutput)) && InputName(nextLength) !in left && OutputName(nextLength) in left)
      && (faults == {} ==> r.Ok?)
  {
    var seen := SeenByChild(files, nextLength, texto);
    var reply := process(TempFileArgv(script, modo, clave, nextLength), seen);
    NamesFresh(map[], nextLength);
    assert CreateInput !in faults && WriteInput !in faults && CreateOutput !in faults && ReadOutput !in faults;
    assert TempFileRun(true, files, nextLength, script, modo, texto, clave, faults, process)
      == AfterLaunch(true, seen, InputName(nextLength), OutputName(nextLength), reply, faults);
    assert TempFileRun(false, files, nextLength, script, modo, texto, clave, faults, process)
      == AfterLaunch(false, seen, InputName(nextLength), OutputName(nextLength), reply, faults);
    var after := AfterChild(seen, OutputName(nextLength), reply);
    assert Evaluate(reply).Ok?;
    var result := Ok(PythonResult(Trim(after[OutputName(nextLength)]), Evaluate(reply).result.stderr));
    assert AfterLaunch(false, seen, InputName(nextLength), OutputName(nextLength), reply, faults)
      == Cleanup(false, after, InputName(nextLength), OutputName(nextLength), result, faults);
    UncaughtCleanup(after, InputName(nextLength), OutputName(nextLength), result, faults);
  }

  lemma UncaughtCleanup(after: map<string, string>, tmpIn: string, tmpOut: string, result: Outcome, faults: set<IoStep>)
    requires tmpOut in after && tmpIn != tmpOut && result.Ok?
    ensures var run := Cleanup(false, after, tmpIn, tmpOut, result, faults);
      (DeleteInput in faults ==> run.1 == Failed(IoFailure(DeleteInput)) && tmpOut in run.0)
      && (DeleteInput !in faults && DeleteOutput in faults ==>
            run.1 == Failed(IoFailure(DeleteOutput)) && tmpIn !in run.0 && tmpOut in run.0)
      && (DeleteInput !in faults && DeleteOutput !in faults ==> run.1.Ok?)
  {
    var run := Cleanup(false, after, tmpIn, tmpOut, result, faults);
    if DeleteInput in faults {
      assert run.0 == after;
    } else if DeleteOutput in faults {
      assert run.0 == after - {tmpIn};
    }
  }

  /** Without a failing delete the two ways of deleting behave the same. */
  lemma VariantsAgreeWithoutDeleteFailure(files: map<string, string>, nextLength: nat,
                                          script: string, modo: string, texto: string, clave: string,
                                          faults: set<IoStep>, process: Process)
    requires MinNameLength <= nextLength
    requires DeleteInput !in faults && DeleteOutput !in faults
    ensures TempFileRun(true, files, nextLength, script, modo, texto, clave, faults, process)
      == TempFileRun(false, files, nextLength, script, modo, texto, clave, faults, process)
  {
  }
}
