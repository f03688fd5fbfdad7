/**
 * `org.hogwartsencriptado.PythonVigenereService`: the Java side of the bridge used by the Hogwarts application.
 * It decides between passing the text on the command line and passing it
 * through temporary files, starts the Python script, drains its output and
 * checks its exit code.
 */
module HogwartsService {
  import opened Common
  import opened Bridge

  class PythonVigenereService {
    /** The path of `vigenere.py`. */
    const scriptPath: string

    constructor (scriptPath: string)
      ensures this.scriptPath == scriptPath
    {
      this.scriptPath := scriptPath;
    }

    /**
     * `procesarTexto`: a simulated command longer than CMD_MAX goes through
     * temporary files, anything else on the command line.
     */
    method ProcessText(store: TempStore, modo: string, texto: string, clave: string,
                       faults: set<IoStep>, process: Process) returns (r: Outcome)
      requires store.Valid()
      modifies store
      ensures store.Valid()
      ensures UsesFileMode(scriptPath, modo, texto, clave) ==>
        (store.files, r) == TempFileRun(true, old(store.files), old(store.nextLength),
                                        scriptPath, modo, texto, clave, faults, process)
      ensures !UsesFileMode(scriptPath, modo, texto, clave) ==>
        store.files == old(store.files)
        && r == Evaluate(process(InlineArgv(scriptPath, modo, texto, clave), old(store.files)))
    {
      var comandoSimulado := SimulatedCommand(scriptPath, modo, texto, clave);
      if Utf16Length(comandoSimulado) > CmdMax {
        r := ViaTempFiles(store, modo, texto, clave, faults, process);
      } else {
        r := RunInline(modo, texto, clave, store.files, process);
      }
    }

    /** `procesarTextoMedianteArchivo`: a failed delete is only logged, the result is still returned. */
    method ViaTempFiles(store: TempStore, modo: string, texto: string, clave: string,
                        faults: set<IoStep>, process: Process) returns (r: Outcome)
      requires store.Valid()
      modifies store
      ensures store.Valid()
      ensures (store.files, r) == TempFileRun(true, old(store.files), old(store.nextLength),
                                              scriptPath, modo, texto, clave, faults, process)
    {
      ghost var files0 := store.files;
      ghost var n := store.nextLength;
      // 1. the input file
      var tmpIn := store.CreateTemp(InPrefix, CreateInput in faults);
      if tmpIn.None? {
        return Failed(IoFailure(CreateInput));
      }
      var written := store.Write(tmpIn.value, texto, WriteInput in faults);
      if !written {
        return Failed(IoFailure(WriteInput));
      }
      assert store.files == files0[InputName(n) := texto];
      // 2. the output file
      var tmpOut := store.CreateTemp(OutPrefix, CreateOutput in faults);
      if tmpOut.None? {
        return Failed(IoFailure(CreateOutput));
      }
      assert store.files == SeenByChild(files0, n, texto);
      assert FileArgv(scriptPath, FileModeName(modo), tmpIn.value, tmpOut.value, clave) == TempFileArgv(scriptPath, modo, clave, n);
      LaunchedRun(true, files0, n, scriptPath, modo, texto, clave, faults, process);
      r := LaunchAndCollect(store, modo, tmpIn.value, tmpOut.value, clave, faults, process);
    }

    /** Steps 3 to 5 of `procesarTextoMedianteArchivo`, once both temp files exist. */
    method LaunchAndCollect(store: TempStore, modo: string, tmpIn: string, tmpOut: string, clave: string,
                            faults: set<IoStep>, process: Process) returns (r: Outcome)
      requires store.Valid() && tmpOut in store.files
      modifies store
      ensures store.Valid()
      ensures (store.files, r) == AfterLaunch(true, old(store.files), tmpIn, tmpOut,
        process(FileArgv(scriptPath, FileModeName(modo), tmpIn, tmpOut, clave), old(store.files)), faults)
    {
      // 3. the script in file mode
      var modoArchivo := FileModeName(modo);
      var run := ProcessFile(store, modoArchivo, tmpIn, tmpOut, clave, process);
      if run.Failed? {
        return run;
      }
      // 4. what the script wrote
      var resultado := store.Read(tmpOut, ReadOutput in faults);
      if resultado.None? {
        return Failed(IoFailure(ReadOutput));
      }
      // 5. the deletes
      r := DeleteTempFiles(store, tmpIn, tmpOut, Ok(PythonResult(Text.Trim(resultado.value), run.result.stderr)), faults);
    }

    /** Step 5 of `procesarTextoMedianteArchivo`: the deletes sit in a catch, so `result` is returned whatever happens. */
    method DeleteTempFiles(store: TempStore, tmpIn: string, tmpOut: string, result: Outcome,
                           faults: set<IoStep>) returns (r: Outcome)
      requires store.Valid()
      modifies store
      ensures store.Valid()
      ensures (store.files, r) == Cleanup(true, old(store.files), tmpIn, tmpOut, result, faults)
    {
      r := result;
      var deletedIn := store.DeleteIfExists(tmpIn, DeleteInput in faults);
      if deletedIn {
        var deletedOut := store.DeleteIfExists(tmpOut, DeleteOutput in faults);
      }
    }

    /** `ejecutarTextoPorArgumentos`: the script with the text and the key as arguments. */
    method RunInline(modo: string, texto: string, clave: string, files: map<string, string>,
                     process: Process) returns (r: Outcome)
      ensures r == Evaluate(process(InlineArgv(scriptPath, modo, texto, clave), files))
      ensures r.Ok? <==> process(InlineArgv(scriptPath, modo, texto, clave), files).Exited?
                         && process(InlineArgv(scriptPath, modo, texto, clave), files).code == 0
    {
      var reply := process(InlineArgv(scriptPath, modo, texto, clave), files);
      EvaluateExitCheck(reply);
      r := Capture(reply);
    }

    /**
     * `procesarArchivo`: the script with the two paths and the key as
     * arguments; whatever it leaves in `rutaOut` stays there.
     */
    method ProcessFile(store: TempStore, modo: string, rutaIn: string, rutaOut: string, clave: string,
                       process: Process) returns (r: Outcome)
      requires store.Valid()
      modifies store
      ensures store.Valid() && store.nextLength >= old(store.nextLength)
      ensures var reply := process(FileArgv(scriptPath, modo, rutaIn, rutaOut, clave), old(store.files));
        store.files == AfterChild(old(store.files), rutaOut, reply) && r == Evaluate(reply)
    {
      var reply := process(FileArgv(scriptPath, modo, rutaIn, rutaOut, clave), store.files);
      if reply.Exited? && reply.output.Some? {
        store.ChildWrites(rutaOut, reply.output.value);
      }
      r := Capture(reply);
    }
  }
}
