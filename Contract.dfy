/**
 * The contract between the two sides: the Java service starts
 * `python <script> ...` and the Python script reads `sys.argv`. Here the
 * script, as the process the bridge observes, is `Vigenere.Main` seen
 * through its exit code, its printed lines, the log records its default
 * logging setup writes to stderr, and the file it writes.
 */
module Contract {
  import opened Common
  import opened Text
  import opened Vigenere
  import opened Bridge

  /** A log record as Python's default handler prints it: level name, logger name, message. */
  function StderrLine(rec: LogRecord): (line: string)
    ensures |rec.message| < |line| && line[|line| - |rec.message|..] == rec.message
  {
    (match rec.level
     case Info => "INFO"
     case Warning => "WARNING"
     case Error => "ERROR") + ":root:" + rec.message
  }

  /** An error record's line. */
  lemma ErrorLine(message: string)
    ensures StderrLines([LogRecord(Error, message)]) == ["ERROR:root:" + message]
  {
    assert "ERROR" + ":root:" == "ERROR:root:";
    assert [LogRecord(Error, message)][1..] == [];
  }

  /** The records that pass the root logger's default WARNING threshold, formatted, in order. */
  function StderrLines(log: seq<LogRecord>): (lines: seq<string>)
    ensures |lines| <= |log|
    ensures (forall i :: 0 <= i < |log| ==> log[i].level == Info) ==> lines == []
  {
    if log == [] then []
    else if log[0].level == Info then StderrLines(log[1..])
    else [StderrLine(log[0])] + StderrLines(log[1..])
  }

  /**
   * `python <script> args...` running the script: `sys.argv` is the vector
   * from the script on. Without a script path there is nothing to run, and
   * an argument holding U+0000 stops `ProcessBuilder.start()` before any
   * process exists. `argv[1]` is taken to name this script (a wrong path
   * would make the interpreter exit with 2 and its own message). The script
   * exits with 0 or 1, prints at most one line,
   * and on exit 1 prints nothing and writes nothing.
   */
  function PythonScript(argv: seq<string>, files: map<string, string>): (r: Reply)
    ensures r.StartFailed? <==> |argv| < 2 || !Launchable(argv)
    ensures r.Exited? ==> (r.code == 0 || r.code == 1) && |r.out| <= 1
    ensures r.Exited? && r.code != 0 ==> r.out == [] && r.output == None
  {
    if |argv| < 2 || !Launchable(argv) then StartFailed
    else
      match Main(argv[1..], files)
      case DemoRun => Exited(0, [], [], None)
      case Finished(code, printed, log, written) =>
        Exited(code, printed, StderrLines(log), if written.Some? then Some(written.value.1) else None)
  }

  /** The operation a mode word names, when it names one. */
  function ModeOp(modo: string): (op: Option<Op>)
    ensures op == Some(Encrypt) <==> Lower(modo) == "cifrar"
    ensures op == Some(Decrypt) <==> Lower(modo) == "descifrar"
  {
    if Lower(modo) == "cifrar" then Some(Encrypt)
    else if Lower(modo) == "descifrar" then Some(Decrypt)
    else None
  }

  /** A mode word that selects an operation holds no U+0000: lower-casing keeps U+0000. */
  lemma ModeWordLaunchable(modo: string)
    requires ModeOp(modo).Some?
    ensures '\0' !in modo
  {
    assert forall j :: 0 <= j < |modo| ==> Lower(modo)[j] == LowerChar(modo[j]);
  }

  /** A key that passes validation is made of letters, so it holds no U+0000. */
  lemma ValidKeyLaunchable(texto: string, clave: string)
    requires FirstFailure(texto, clave) == None
    ensures '\0' !in clave
  {
    ValidIff(texto, clave);
    assert forall i :: 0 <= i < |clave| ==> clave[i] != '\0';
  }

  /** The inline vector starts exactly when none of its four arguments holds U+0000. */
  lemma InlineLaunchable(script: string, modo: string, texto: string, clave: string)
    ensures Launchable(InlineArgv(script, modo, texto, clave)) <==>
      '\0' !in script && '\0' !in modo && '\0' !in texto && '\0' !in clave
  {
    var argv := InlineArgv(script, modo, texto, clave);
    assert '\0' !in argv[0] by {
      assert forall j :: 0 <= j < |Interpreter| ==> Interpreter[j] != '\0';
    }
  }

  /** The temp-file vector starts exactly when neither the script path nor the key holds U+0000. */
  lemma TempFileLaunchable(script: string, modo: string, clave: string, nextLength: nat)
    requires MinNameLength <= nextLength && ModeOp(modo).Some?
    ensures Launchable(TempFileArgv(script, modo, clave, nextLength)) <==> '\0' !in script && '\0' !in clave
  {
    var argv := TempFileArgv(script, modo, clave, nextLength);
    ModeWordLaunchable(modo);
    assert '\0' !in argv[0] by {
      assert forall j :: 0 <= j < |Interpreter| ==> Interpreter[j] != '\0';
    }
    assert '\0' !in InPrefix by {
      assert forall j :: 0 <= j < |InPrefix| ==> InPrefix[j] != '\0';
    }
    assert '\0' !in OutPrefix by {
      assert forall j :: 0 <= j < |OutPrefix| ==> OutPrefix[j] != '\0';
    }
    assert argv[3] == InputName(nextLength) && argv[4] == OutputName(nextLength);
  }

  // ========================================================= the two argv shapes

  /**
   * The inline vector gives `sys.argv` four entries, so the script takes
   * its text branch for "cifrar" and "descifrar" (in any case), with the
   * text and the key in their places, and prints the usage error otherwise.
   */
  lemma InlineArgvSelectsTextBranch(script: string, modo: string, texto: string, clave: string)
    ensures |InlineArgv(script, modo, texto, clave)[1..]| == 4
    ensures var c := ParseArgs(InlineArgv(script, modo, texto, clave)[1..]);
      (ModeOp(modo).Some? ==> c == TextCommand(ModeOp(modo).value, texto, clave))
      && (ModeOp(modo).None? ==> c == Usage)
  {
    var argv := InlineArgv(script, modo, texto, clave)[1..];
    assert argv == [script, modo, texto, clave];
  }

  lemma SuffixCancel(a: string, b: string, suffix: string)
    requires a + suffix == b + suffix
    ensures a == b
  {
    assert |a| == |b|;
    assert forall i :: 0 <= i < |a| ==> a[i] == (a + suffix)[i] && b[i] == (b + suffix)[i];
  }

  /**
   * The temp-file vector gives `sys.argv` five entries and the mode with
   * "-archivo" appended, so the script takes its file branch, reading the
   * input path and writing the output path, exactly when the mode word
   * selects an operation; the text branch is never taken.
   */
  lemma FileArgvSelectsFileBranch(script: string, modo: string, rutaIn: string, rutaOut: string, clave: string)
    ensures |FileArgv(script, FileModeName(modo), rutaIn, rutaOut, clave)[1..]| == 5
    ensures var c := ParseArgs(FileArgv(script, FileModeName(modo), rutaIn, rutaOut, clave)[1..]);
      (ModeOp(modo).Some? ==> c == FileCommand(ModeOp(modo).value, rutaIn, rutaOut, clave))
      && (ModeOp(modo).None? ==> c == Usage)
  {
    var argv := FileArgv(script, FileModeName(modo), rutaIn, rutaOut, clave)[1..];
    assert argv == [script, modo + "-archivo", rutaIn, rutaOut, clave];
    var suffix := "-archivo";
    LowerAppend(modo, suffix);
    assert Lower(suffix) == suffix;
    var mode := Lower(argv[1]);
    assert mode == Lower(modo) + suffix;
    assert "cifrar-archivo" == "cifrar" + suffix;
    assert "descifrar-archivo" == "descifrar" + suffix;
    if mode == "cifrar-archivo" {
      SuffixCancel(Lower(modo), "cifrar", suffix);
    }
    if mode == "descifrar-archivo" {
      SuffixCancel(Lower(modo), "descifrar", suffix);
    }
    assert mode != "cifrar" && mode != "descifrar" by {
      assert mode[|mode| - 1] == 'o';
    }
  }

  // ================================================ end to end, inline route

  /**
   * On the inline route, valid data comes back as the cipher result with
   * empty stderr; invalid data makes the script exit with 1 and the bridge
   * throw, with the script's error line in the message.
   */
  lemma InlineEndToEnd(script: string, modo: string, texto: string, clave: string, files: map<string, string>)
    requires ModeOp(modo).Some? && '\0' !in script && '\0' !in texto && '\0' !in clave
    ensures var r := Evaluate(PythonScript(InlineArgv(script, modo, texto, clave), files));
      (FirstFailure(texto, clave) == None ==>
         r == Ok(PythonResult(Transform(ModeOp(modo).value, texto, clave).value, "")))
      && (FirstFailure(texto, clave).Some? ==>
         r == Failed(NonZeroExit(1, JoinLines(["ERROR:root:" + ValidateData(texto, clave).1]))))
  {
    var op := ModeOp(modo).value;
    ModeWordLaunchable(modo);
    InlineLaunchable(script, modo, texto, clave);
    InlineArgvSelectsTextBranch(script, modo, texto, clave);
    var t := Transform(op, texto, clave);
    var argv := InlineArgv(script, modo, texto, clave);
    if t.Returned? {
      PrintedLineSurvives(t.value);
    } else {
      var message := ValidateData(texto, clave).1;
      assert Main(argv[1..], files) == Finished(1, [], [LogRecord(Error, message)], None);
      ErrorLine(message);
      assert PythonScript(argv, files) == Exited(1, [], ["ERROR:root:" + message], None);
    }
  }

  // ============================================= end to end, temp-file route

  /** What the script does when started on the temp-file route, before the bridge reads the output. */
  lemma TempFileReply(files: map<string, string>, nextLength: nat, script: string, modo: string,
                      texto: string, clave: string)
    requires MinNameLength <= nextLength && forall p :: p in files ==> |p| < nextLength
    requires ModeOp(modo).Some? && '\0' !in script && '\0' !in clave
    ensures var seen := SeenByChild(files, nextLength, texto);
      var reply := PythonScript(TempFileArgv(script, modo, clave, nextLength), seen);
      var t := Transform(ModeOp(modo).value, texto, clave);
      reply.Exited? && reply.code == 0 && reply.out == []
      && (texto != "" && t.Returned? ==> reply.output == Some(t.value) && reply.err == [])
      && (texto == "" ==>
            (reply.output == None && reply.err == ["ERROR:root:" + UnreadableInputMessage(ModeOp(modo).value)]))
      && (texto != "" && t.Raised? ==> reply.output == None && reply.err == ["ERROR:root:" + t.error.message])
  {
    var op := ModeOp(modo).value;
    var tmpIn := InputName(nextLength);
    var tmpOut := OutputName(nextLength);
    NamesFresh(files, nextLength);
    var seen := SeenByChild(files, nextLength, texto);
    var argv := TempFileArgv(script, modo, clave, nextLength);
    TempFileLaunchable(script, modo, clave, nextLength);
    FileArgvSelectsFileBranch(script, modo, tmpIn, tmpOut, clave);
    assert ParseArgs(argv[1..]) == FileCommand(op, tmpIn, tmpOut, clave);
    assert tmpIn in seen && seen[tmpIn] == texto;
    var e := Vigenere.ProcessFile(op, tmpIn, tmpOut, clave, seen);
    assert Main(argv[1..], seen) == Finished(0, [], e.log, e.written);
    var reply := PythonScript(argv, seen);
    assert reply == Exited(0, [], StderrLines(e.log), if e.written.Some? then Some(e.written.value.1) else None);
    if texto == "" {
      assert e.log == [LogRecord(Error, UnreadableInputMessage(op))];
      ErrorLine(UnreadableInputMessage(op));
    } else {
      var t := Transform(op, texto, clave);
      if t.Raised? {
        assert e.log == [LogRecord(Error, t.error.message)];
        ErrorLine(t.error.message);
      } else {
        assert e.log == [LogRecord(Info, "Fichero escrito en " + tmpOut)];
        assert StderrLines(e.log) == [];
      }
    }
  }

  /**
   * On the temp-file route with no file step failing, valid data comes back
   * as the cipher result read from the output file, and no temp file is left.
   */
  lemma TempFileEndToEnd(catchDeleteErrors: bool, files: map<string, string>, nextLength: nat,
                         script: string, modo: string, texto: string, clave: string)
    requires MinNameLength <= nextLength && forall p :: p in files ==> |p| < nextLength
    requires ModeOp(modo).Some? && FirstFailure(texto, clave) == None && '\0' !in script
    ensures TempFileRun(catchDeleteErrors, files, nextLength, script, modo, texto, clave, {}, PythonScript)
      == (files, Ok(PythonResult(Transform(ModeOp(modo).value, texto, clave).value, "")))
  {
    var t := Transform(ModeOp(modo).value, texto, clave);
    ValidIff(texto, clave);
    ValidKeyLaunchable(texto, clave);
    assert texto != "";
    TempFileReply(files, nextLength, script, modo, texto, clave);
    TempFileSuccess(catchDeleteErrors, files, nextLength, script, modo, texto, clave, PythonScript);
    TrimKeeps(t.value);
  }

  /**
   * Invalid data is not an error on the temp-file route: the script logs it
   * and exits with 0, so the bridge returns an empty result with the error
   * line as stderr, where the inline route throws.
   */
  lemma InvalidDataAsymmetry(catchDeleteErrors: bool, files: map<string, string>, nextLength: nat,
                             script: string, modo: string, texto: string, clave: string)
    requires MinNameLength <= nextLength && forall p :: p in files ==> |p| < nextLength
    requires ModeOp(modo).Some? && FirstFailure(texto, clave).Some? && '\0' !in script && '\0' !in clave
    ensures Evaluate(PythonScript(InlineArgv(script, modo, texto, clave), files)).Failed?
    ensures var message := if texto == "" then UnreadableInputMessage(ModeOp(modo).value)
                           else ValidateData(texto, clave).1;
      TempFileRun(catchDeleteErrors, files, nextLength, script, modo, texto, clave, {}, PythonScript)
      == (files, Ok(PythonResult("", Trim(JoinLines(["ERROR:root:" + message])))))
  {
    if '\0' !in texto {
      InlineEndToEnd(script, modo, texto, clave, files);
    } else {
      InlineLaunchable(script, modo, texto, clave);
    }
    TempFileReply(files, nextLength, script, modo, texto, clave);
    TempFileSuccess(catchDeleteErrors, files, nextLength, script, modo, texto, clave, PythonScript);
  }

  /**
   * Whichever route `procesarTexto` picks, with no file step failing, valid
   * data in a known mode comes back as the cipher result with empty stderr
   * and the files as they were: the length rule is invisible to the caller.
   */
  lemma RouteIndependence(catchDeleteErrors: bool, files: map<string, string>, nextLength: nat,
                          script: string, modo: string, texto: string, clave: string)
    requires MinNameLength <= nextLength && forall p :: p in files ==> |p| < nextLength
    requires ModeOp(modo).Some? && FirstFailure(texto, clave) == None && '\0' !in script && '\0' !in texto
    ensures var expected := (files, Ok(PythonResult(Transform(ModeOp(modo).value, texto, clave).value, "")));
      TempFileRun(catchDeleteErrors, files, nextLength, script, modo, texto, clave, {}, PythonScript) == expected
      && (files, Evaluate(PythonScript(InlineArgv(script, modo, texto, clave), files))) == expected
  {
    TempFileEndToEnd(catchDeleteErrors, files, nextLength, script, modo, texto, clave);
    ValidKeyLaunchable(texto, clave);
    InlineEndToEnd(script, modo, texto, clave, files);
  }

  /**
   * Valid data whose text holds U+0000 part the two routes: the inline call
   * throws at `start()`, while the temp-file route passes the text through
   * the input file and returns the cipher result.
   */
  lemma NulTextAsymmetry(catchDeleteErrors: bool, files: map<string, string>, nextLength: nat,
                         script: string, modo: string, texto: string, clave: string)
    requires MinNameLength <= nextLength && forall p :: p in files ==> |p| < nextLength
    requires ModeOp(modo).Some? && FirstFailure(texto, clave) == None && '\0' !in script && '\0' in texto
    ensures Evaluate(PythonScript(InlineArgv(script, modo, texto, clave), files)) == Failed(StartFailure)
    ensures TempFileRun(catchDeleteErrors, files, nextLength, script, modo, texto, clave, {}, PythonScript)
      == (files, Ok(PythonResult(Transform(ModeOp(modo).value, texto, clave).value, "")))
  {
    InlineLaunchable(script, modo, texto, clave);
    TempFileEndToEnd(catchDeleteErrors, files, nextLength, script, modo, texto, clave);
  }

  /** A round trip through the bridge: decrypting what encryption returned gives back the cleaned text. */
  lemma BridgeRoundTrip(script: string, texto: string, clave: string, files: map<string, string>)
    requires FirstFailure(texto, clave) == None && '\0' !in script && '\0' !in texto
    ensures var c := Evaluate(PythonScript(InlineArgv(script, "cifrar", texto, clave), files));
      c.Ok? && FirstFailure(c.result.stdout, clave) == None
      && Evaluate(PythonScript(InlineArgv(script, "descifrar", c.result.stdout, clave), files))
         == Ok(PythonResult(CleanText(texto), ""))
  {
    assert Lower("cifrar") == "cifrar";
    assert Lower("descifrar") == "descifrar";
    ValidKeyLaunchable(texto, clave);
    InlineEndToEnd(script, "cifrar", texto, clave, files);
    var c := Transform(Encrypt, texto, clave).value;
    RoundTrip(texto, clave);
    assert '\0' !in c by {
      assert forall i :: 0 <= i < |c| ==> IsUpperLetter(c[i]);
    }
    InlineEndToEnd(script, "descifrar", c, clave, files);
  }
}
