# HogwartsEncriptado: the Vigenère engine and its Java bridge, in Dafny

HogwartsEncriptado is a JavaFX application. Its classical Vigenère cipher runs in a Python
script, `src/main/python/Vigenere.py`. A Java service class, `PythonVigenereService`, starts
that script as a child process. The repository has two versions of that class: the Hogwarts
application's (`org.hogwartsencriptado`) and an earlier example's (`org.example`).

This project models three things and proves properties of them.

- **The Python engine** (module `Vigenere`):
  - cleaning the text and the key (`limpiar_texto`, `normalizar_clave`);
  - finding zero-width characters (`detectar_invisibles`);
  - the validation guard chain (`validar_datos`), with its exact Spanish messages;
  - stretching the key (`ajustar_clave`);
  - the modulo-26 encryption and decryption loops (`cifrar_vigenere`, `descifrar_vigenere`);
  - the control flow of the two file-mode functions (`cifrar_archivo`, `descifrar_archivo`);
  - the `__main__` dispatch on `sys.argv` with its exit codes.
- **The Java bridge** (module `Bridge` for what the two classes share; module
  `HogwartsService` for the Hogwarts class; module `ExampleService` for the example class):
  - the choice between passing the text on the command line and passing it through
    temporary files, made against `CMD_MAX = 8000`;
  - the two argument vectors;
  - the `-archivo` rewrite of the mode;
  - the loops that drain stdout and stderr;
  - the exit-code check and the trimmed result pair;
  - the create / write / run / read / delete sequence over a temporary-file store, which is
    a class whose methods change its fields.

  The two classes differ in one place: the Hogwarts class catches a failed delete, and the
  example class lets it propagate.
- **The contract between the two sides** (module `Contract`): the script seen as the process
  the bridge starts. It proves that the inline vector selects the script's text branch and
  the temp-file vector its file branch. It also proves end-to-end results for both routes.

Supporting modules:

- `Text`: ASCII case mapping, Python's `isspace`, Java's `trim()`, hexadecimal and decimal
  formatting, and `str.join`.
- `Common`: an `Option` type.

The child process is an oracle, `Process = (argv, files) -> Reply`. A `Reply` either says the
process failed to start, or gives its exit code, its stdout lines, its stderr lines and what it
left in the output file. File-system failures are a set of `IoStep`s that throw. `Contract`
instantiates the oracle with the model of the script itself (`Contract.PythonScript`):
- the interpreter's `sys.argv` is the vector from the script path on;
- an argument holding U+0000 makes `ProcessBuilder.start()` throw before any process
  exists, which the oracle reports as a failed start;
- stderr holds the log records that pass Python's default logging setup, printed as
  `LEVEL:root:message`.

## Model

Paths are relative to the repository root.

| member | source | states |
|---|---|---|
| Text.IsPyWhitespace | src/main/python/Vigenere.py:147 | the characters `str.strip()` removes (Python 3's `isspace`); none of them is an ASCII letter or U+0000 |
| Text.IsBlank | src/main/python/Vigenere.py:147 | `not s or not s.strip()`: every character is whitespace, so a blank string holds no ASCII letter |
| Text.Trim | src/main/java/org/hogwartsencriptado/PythonVigenereService.java:151-152 | `String.trim()`: the result neither starts nor ends with a character up to U+0020, and an input made only of such characters gives the empty string |
| Text.TrimIgnoresTrailing | src/main/java/org/hogwartsencriptado/PythonVigenereService.java:130-151 | characters up to U+0020 appended to a string (the `"\n"` after every line) never change its trim |
| Text.TrimIdempotent | src/main/java/org/hogwartsencriptado/PythonVigenereService.java:151-152 | trimming twice is trimming once |
| Vigenere.KeepUpper | src/main/python/Vigenere.py:81 | the kept characters are all in 'A'..'Z', and nothing is dropped exactly when the input is already all 'A'..'Z' |
| Vigenere.CleanText | src/main/python/Vigenere.py:63-81 | `limpiar_texto` returns only 'A'..'Z' and is no longer than its input |
| Vigenere.NormalizeKey | src/main/python/Vigenere.py:106-124 | `normalizar_clave` is the same cleaning as `limpiar_texto`: it returns only 'A'..'Z' and is no longer than the key |
| Vigenere.CleanTextCharacterization | src/main/python/Vigenere.py:80-81 | cleaning distributes over concatenation; a single ASCII letter becomes its upper-case form and any other character disappears, so exactly the letters are kept, in order |
| Vigenere.CleanTextIdempotent | src/main/python/Vigenere.py:80-81 | cleaning a cleaned text changes nothing |
| Vigenere.CleanTextEmptyIff | src/main/python/Vigenere.py:183-185 | the cleaned text is empty exactly when the input holds no ASCII letter |
| Vigenere.KeyUnchangedIff | src/main/python/Vigenere.py:172 | `normalizar_clave(k) == k.upper()` exactly when every character of `k` is an ASCII letter |
| Vigenere.Invisibles | src/main/python/Vigenere.py:100-101 | the invisible characters of a string, in order; empty exactly when it has none |
| Vigenere.ReprInvisible | src/main/python/Vigenere.py:102 | the `repr()` of an invisible character is 8 characters long (`'\uXXXX'`) |
| Vigenere.DetectInvisibles | src/main/python/Vigenere.py:84-103 | the loop returns the `repr()` of each invisible character in order, and returns nothing exactly when there is none |
| Vigenere.FirstFailure | src/main/python/Vigenere.py:147-187 | the guard chain: no failure means no check rejects; otherwise the reported check rejects and every check written before it passes |
| Vigenere.Message | src/main/python/Vigenere.py:147-185 | every rejection carries a non-empty message (the exact texts of the source) |
| Vigenere.ValidateData | src/main/python/Vigenere.py:127-187 | `(True, "")` exactly when no check rejects; otherwise `False` and a non-empty message |
| Vigenere.ValidIff | src/main/python/Vigenere.py:147-187 | the data are valid exactly when the key is at least three characters, all ASCII letters, and the text holds at least one ASCII letter |
| Vigenere.InvisibleKeyRaisesTypeError | src/main/python/Vigenere.py:150-158 | for a non-blank key with an invisible character, the code as written raises `TypeError` from `ord()` on a length-8 string, where the intended check returns `(False, message)`; on every other input the two agree |
| Vigenere.InvisibleKeyExample | src/main/python/Vigenere.py:150-153 | the key "ABC" followed by U+200B raises in the written code and is rejected with the invisible-character message in the corrected one |
| Vigenere.Ord | src/main/python/Vigenere.py:153 | `ord()` returns a non-negative code point exactly for a one-character string, and raises `TypeError` otherwise |
| Vigenere.FormatCodes | src/main/python/Vigenere.py:153 | the `", ".join(f"U+{ord(c):04X}" ...)` succeeds exactly when every entry is one character, and otherwise raises the first entry's `ord()` error; a code point above U+FFFF gets more than four digits |
| Vigenere.ValidateDataAsWritten | src/main/python/Vigenere.py:127-187 | `validar_datos` as written raises only for a non-blank key holding an invisible character; for any other key it returns what the corrected check returns |
| Vigenere.Repeat | src/main/python/Vigenere.py:272 | `s * n` has length `n * len(s)` |
| Vigenere.RepeatAt | src/main/python/Vigenere.py:272 | position `i` of `s * n` holds `s[i mod len(s)]` |
| Vigenere.AdjustKey | src/main/python/Vigenere.py:249-272 | raises `ValueError("La clave no puede estar vacía.")` exactly when the normalised key is empty; otherwise the result has the text's length, is all 'A'..'Z', and position `i` holds normalised-key letter `i mod` its length |
| Vigenere.AdjustKeyExample | src/main/python/Vigenere.py:254 | "HOLA" with key "A" gives "AAAA" |
| Vigenere.Shift | src/main/python/Vigenere.py:308-311 | one encryption step maps two letters to a letter |
| Vigenere.Unshift | src/main/python/Vigenere.py:347-350 | one decryption step maps two letters to a letter (Python's `%` never goes negative here) |
| Vigenere.UnshiftShift | src/main/python/Vigenere.py:310-349 | a decryption step undoes an encryption step with the same key letter |
| Vigenere.EncryptLetters | src/main/python/Vigenere.py:307-312 | the zipped encryption keeps the length and yields only letters |
| Vigenere.DecryptLetters | src/main/python/Vigenere.py:346-351 | the zipped decryption keeps the length and yields only letters |
| Vigenere.DecryptEncryptLetters | src/main/python/Vigenere.py:307-351 | decrypting an encryption under the same stretched key gives back the letters |
| Vigenere.Transform | src/main/python/Vigenere.py:275-358 | `cifrar_vigenere` / `descifrar_vigenere` raise exactly when validation fails, with `ValueError` carrying the validation message; otherwise they return a non-empty all-'A'..'Z' string as long as the cleaned text |
| Vigenere.EncryptPointwise | src/main/python/Vigenere.py:303-312 | ciphertext letter `i` is cleaned-text letter `i` shifted by normalised-key letter `i mod` its length |
| Vigenere.DecryptPointwise | src/main/python/Vigenere.py:342-351 | decrypted letter `i` is input letter `i` unshifted by normalised-key letter `i mod` its length |
| Vigenere.RoundTrip | src/main/python/Vigenere.py:299-351 | for valid data the ciphertext passes validation with the same key, and decrypting it gives back `limpiar_texto(texto)` |
| Vigenere.DecryptWarningNeverFires | src/main/python/Vigenere.py:355-356 | a successful decryption always holds a letter, so the "posible clave incorrecta" warning can never be logged |
| Vigenere.Run | src/main/python/Vigenere.py:275-351 | `cifrar_vigenere` and `descifrar_vigenere` as written, validate / clean / stretch / loop, compute `Transform` |
| Vigenere.ZipLoop | src/main/python/Vigenere.py:306-351 | the two `for t, k in zip(...)` loops (lines 306-312 and 345-351), appending one letter per step, compute the zipped encryption or decryption |
| Vigenere.ProcessFile | src/main/python/Vigenere.py:363-429 | file mode writes exactly when the input exists, is non-empty and validates; it writes the cipher result to the output path; otherwise it logs exactly one error record and writes nothing |
| Vigenere.ParseArgs | src/main/python/Vigenere.py:493-519 | the branch taken: demo for no arguments; the text branch exactly for a lower-cased `cifrar`/`descifrar` with at least 4 entries; the file branch exactly for `cifrar-archivo`/`descifrar-archivo` with at least 5; the arguments land in their places |
| Vigenere.Main | src/main/python/Vigenere.py:493-522 | the `__main__` block: the demo runs exactly without arguments; a run prints at most one line, all 'A'..'Z'; a run ending with 1 prints nothing, writes nothing and logs one record |
| Vigenere.ExitStatus | src/main/python/Vigenere.py:493-522 | with arguments, the exit code is 1 exactly for a wrong shape or an inline call whose data fail validation, and 0 otherwise; only file mode writes, and only to its output path |
| Bridge.Utf16Length | src/main/java/org/hogwartsencriptado/PythonVigenereService.java:55 | Java's `String.length()` counts UTF-16 units: at least one and at most two per character |
| Bridge.SimulatedCommand | src/main/java/org/hogwartsencriptado/PythonVigenereService.java:54 | the simulated command is the four parts joined after "python" with single spaces: ten characters more than the parts |
| Bridge.UsesFileMode | src/main/java/org/hogwartsencriptado/PythonVigenereService.java:55-58 | a text or a key longer than CMD_MAX always takes the temp-file route; the route is taken only when the four parts together exceed 3990 characters |
| Bridge.FileModeIff | src/main/java/org/hogwartsencriptado/PythonVigenereService.java:54-58 | the temp-file route is taken exactly when 10 + the UTF-16 lengths of script, mode, text and key exceed 8000, so the key counts as the text does |
| Bridge.ThresholdBoundary | src/main/java/org/hogwartsencriptado/PythonVigenereService.java:30-58 | a simulated command of exactly 8000 units stays inline; one more character on the text or the key switches to temp files |
| Bridge.FileModeMonotone | src/main/java/org/example/PythonVigenereService.java:42-48 | lengthening the text or the key never turns the temp-file route back into the inline route |
| Bridge.InlineArgv | src/main/java/org/hogwartsencriptado/PythonVigenereService.java:113-119 | the inline vector is `[python, scriptPath, modo, texto, clave]`, each argument in its own entry |
| Bridge.FileArgv | src/main/java/org/hogwartsencriptado/PythonVigenereService.java:163-170 | the file-mode vector is `[python, scriptPath, modo, rutaIn, rutaOut, clave]` |
| Bridge.FileModeName | src/main/java/org/hogwartsencriptado/PythonVigenereService.java:86 | the mode passed on is `modo` followed by the 8 characters "-archivo"; it holds U+0000 only if `modo` does |
| Bridge.JoinLines | src/main/java/org/hogwartsencriptado/PythonVigenereService.java:125-132 | the collected text ends with a newline whenever there was a line |
| Bridge.JoinLinesAppend | src/main/java/org/hogwartsencriptado/PythonVigenereService.java:129-131 | collecting two batches of lines is collecting each and concatenating |
| Bridge.PrintedLineSurvives | src/main/java/org/hogwartsencriptado/PythonVigenereService.java:129-151 | a single line with visible ends comes out of the collect-and-trim unchanged |
| Bridge.Drain | src/main/java/org/hogwartsencriptado/PythonVigenereService.java:125-142 | the `readLine` loop builds each line followed by `"\n"` |
| Bridge.Evaluate | src/main/java/org/hogwartsencriptado/PythonVigenereService.java:144-154 | a result comes back exactly when the child started and exited with 0; every other reply is a start failure or a non-zero exit |
| Bridge.EvaluateExitCheck | src/main/java/org/hogwartsencriptado/PythonVigenereService.java:144-154 | a result is returned exactly when the child started and exited with 0, as the trims of the collected stdout and stderr; a non-zero exit throws with the message "Python devolvió código N:\n" followed by the untrimmed stderr |
| Bridge.Capture | src/main/java/org/example/PythonVigenereService.java:89-118 | draining, waiting and the exit check compute `Evaluate` of the reply |
| Bridge.FreshName | src/main/java/org/hogwartsencriptado/PythonVigenereService.java:77-82 | a temp name has the requested length |
| Bridge.TempStore.CreateTemp | src/main/java/org/hogwartsencriptado/PythonVigenereService.java:77-82 | `createTempFile` adds a new empty file under a name no existing file has, or throws and changes nothing |
| Bridge.TempStore.Write | src/main/java/org/hogwartsencriptado/PythonVigenereService.java:78 | `writeString` replaces the contents, or throws and changes nothing |
| Bridge.TempStore.Read | src/main/java/org/hogwartsencriptado/PythonVigenereService.java:91 | `readString` returns the contents, or throws |
| Bridge.TempStore.DeleteIfExists | src/main/java/org/example/PythonVigenereService.java:71-72 | `deleteIfExists` removes the path, or throws and changes nothing |
| Bridge.TempStore.ChildWrites | src/main/python/Vigenere.py:239-242 | the script writing the output path sets exactly that path's contents |
| Bridge.TempFileRun | src/main/java/org/hogwartsencriptado/PythonVigenereService.java:73-105 | a failure to create or write a temp file throws that step's `IOException`; any `IOException` the run throws is one of the failing steps |
| Bridge.AfterLaunch | src/main/java/org/hogwartsencriptado/PythonVigenereService.java:88-104 | after the launch, any `IOException` is the read or a delete that failed, and a result comes back only when the child exited with 0 and the read succeeded |
| Bridge.Cleanup | src/main/java/org/hogwartsencriptado/PythonVigenereService.java:94-104 | with the catch the result is kept; otherwise a changed result is the failing delete's `IOException`; the deletes only remove files, and the input file stays exactly when its delete failed |
| Bridge.OkNeedsNoFault | src/main/java/org/example/PythonVigenereService.java:55-75 | a result comes back only when no step up to the read failed and, without the catch, no delete failed |
| Bridge.NamesFresh | src/main/java/org/hogwartsencriptado/PythonVigenereService.java:77-82 | the two temp names are new and distinct |
| Bridge.TempFileSuccess | src/main/java/org/hogwartsencriptado/PythonVigenereService.java:73-105 | with no file step failing and exit 0, `stdout` is the trimmed output file, not the child's stdout; `stderr` is the child's; both temp files are gone |
| Bridge.NoCleanupOnEarlyFailure | src/main/java/org/hogwartsencriptado/PythonVigenereService.java:77-98 | any failure before the deletes leaves every temp file created so far; the input file holds the text once written |
| Bridge.ChildFailureLeavesTempFiles | src/main/java/org/hogwartsencriptado/PythonVigenereService.java:88-98 | when the child does not start or exits non-zero, the run throws and both temp files remain |
| Bridge.CaughtDeleteFailure | src/main/java/org/hogwartsencriptado/PythonVigenereService.java:95-104 | with the deletes caught, a failed delete leaves the returned result unchanged; a failed input delete skips the output delete |
| Bridge.UncaughtDeleteFailure | src/main/java/org/example/PythonVigenereService.java:71-74 | with unguarded deletes, a failed input delete throws, returns no result and leaves the output file; a failed output delete throws after the input file is gone |
| Bridge.VariantsAgreeWithoutDeleteFailure | src/main/java/org/example/PythonVigenereService.java:55-75 | when no delete fails, the two classes' temp-file runs are identical |
| HogwartsService.PythonVigenereService.constructor | src/main/java/org/hogwartsencriptado/PythonVigenereService.java:36-39 | the service keeps the script path |
| HogwartsService.PythonVigenereService.ProcessText | src/main/java/org/hogwartsencriptado/PythonVigenereService.java:49-67 | `procesarTexto` runs the temp-file sequence exactly when the simulated command exceeds CMD_MAX, and otherwise the inline call, leaving the files alone |
| HogwartsService.PythonVigenereService.ViaTempFiles | src/main/java/org/hogwartsencriptado/PythonVigenereService.java:73-105 | the step sequence leaves the files and returns the outcome of the temp-file run with caught deletes |
| HogwartsService.PythonVigenereService.LaunchAndCollect | src/main/java/org/hogwartsencriptado/PythonVigenereService.java:85-104 | starting the script on the two temp files, reading the output file and deleting both compute the run from the child's reply on |
| HogwartsService.PythonVigenereService.DeleteTempFiles | src/main/java/org/hogwartsencriptado/PythonVigenereService.java:94-102 | the two deletes inside the catch leave the result as it was, and a failed input delete skips the output delete |
| HogwartsService.PythonVigenereService.RunInline | src/main/java/org/hogwartsencriptado/PythonVigenereService.java:110-155 | the child runs on `[python, scriptPath, modo, texto, clave]`, and a result comes back exactly when it exits with 0 |
| HogwartsService.PythonVigenereService.ProcessFile | src/main/java/org/hogwartsencriptado/PythonVigenereService.java:160-203 | the child runs on `[python, scriptPath, modo, rutaIn, rutaOut, clave]`; what it writes stays in `rutaOut`; the outcome is the exit check of its reply |
| ExampleService.PythonVigenereService.constructor | src/main/java/org/example/PythonVigenereService.java:28-30 | the service keeps the script path |
| ExampleService.PythonVigenereService.ProcessText | src/main/java/org/example/PythonVigenereService.java:40-49 | the same threshold rule and the same two routes |
| ExampleService.PythonVigenereService.ViaTempFiles | src/main/java/org/example/PythonVigenereService.java:55-75 | the step sequence leaves the files and returns the outcome of the temp-file run with unguarded deletes |
| ExampleService.PythonVigenereService.LaunchAndCollect | src/main/java/org/example/PythonVigenereService.java:63-74 | starting the script on the two temp files, reading the output file and deleting both compute the run from the child's reply on |
| ExampleService.PythonVigenereService.DeleteTempFiles | src/main/java/org/example/PythonVigenereService.java:71-72 | a failed delete throws its `IOException` in place of the result, and a failed input delete skips the output delete |
| ExampleService.PythonVigenereService.RunInline | src/main/java/org/example/PythonVigenereService.java:80-119 | the child runs on the 5-entry vector, and a result comes back exactly when it exits with 0 |
| ExampleService.PythonVigenereService.ProcessFile | src/main/java/org/example/PythonVigenereService.java:124-160 | the child runs on the 6-entry vector; the outcome is the exit check of its reply |
| Contract.PythonScript | src/main/python/Vigenere.py:493-522 | the script as the bridge starts it: the start fails exactly without a script path or when an argument holds U+0000, which `ProcessBuilder.start()` refuses; otherwise, taking `argv[1]` to be `vigenere.py`, it exits with 0 or 1 and prints at most one line, and on exit 1 it prints and writes nothing |
| Contract.StderrLine | src/main/python/Vigenere.py:383-395 | a record's stderr line ends with its message, after the level and logger prefix |
| Contract.ModeOp | src/main/python/Vigenere.py:498-505 | the lower-cased mode word "cifrar" selects encryption and "descifrar" decryption |
| Contract.InlineLaunchable | src/main/java/org/hogwartsencriptado/PythonVigenereService.java:113-122 | the inline vector starts exactly when none of script path, mode, text and key holds U+0000 |
| Contract.TempFileLaunchable | src/main/java/org/hogwartsencriptado/PythonVigenereService.java:163-172 | the temp-file vector starts exactly when neither the script path nor the key holds U+0000; the mode word and the temp names never do |
| Contract.StderrLines | src/main/python/Vigenere.py:383-395 | at most one stderr line per log record; a log of only info records prints nothing |
| Contract.InlineArgvSelectsTextBranch | src/main/java/org/hogwartsencriptado/PythonVigenereService.java:113-119 | the inline vector gives `sys.argv` 4 entries, so the script takes its text branch with the text and key in place for `cifrar`/`descifrar` (any case), and reports a usage error for any other mode |
| Contract.FileArgvSelectsFileBranch | src/main/java/org/hogwartsencriptado/PythonVigenereService.java:86-88 | the temp-file vector gives `sys.argv` 5 entries and the mode plus "-archivo", so the script takes its file branch on the two paths exactly when the mode selects an operation, and never its text branch |
| Contract.InlineEndToEnd | src/main/java/org/hogwartsencriptado/PythonVigenereService.java:110-154 | inline, valid data come back as the cipher result with empty stderr; invalid data make the script exit with 1 and the bridge throw with the script's error line |
| Contract.TempFileReply | src/main/python/Vigenere.py:363-395 | started on the temp-file route, the script exits with 0; it prints nothing and writes the cipher result, or writes nothing and logs one error line |
| Contract.TempFileEndToEnd | src/main/java/org/hogwartsencriptado/PythonVigenereService.java:73-105 | on the temp-file route with no file failure, valid data come back as the cipher result with empty stderr, and the files are as before |
| Contract.InvalidDataAsymmetry | src/main/python/Vigenere.py:392-395 | invalid data throw on the inline route, but on the temp-file route come back as an empty result whose stderr is the error line |
| Contract.RouteIndependence | src/main/java/org/hogwartsencriptado/PythonVigenereService.java:58-66 | for valid data both routes return the same result and leave the files unchanged |
| Contract.NulTextAsymmetry | src/main/java/org/hogwartsencriptado/PythonVigenereService.java:58-66 | valid data whose text holds U+0000 make the inline call throw at `start()`, while the temp-file route returns the cipher result |
| Contract.BridgeRoundTrip | src/main/python/Vigenere.py:500-505 | through the bridge, decrypting what encryption returned gives back the cleaned text |

## Left out

- The AES classes, the HTTP client, the JavaFX controllers, `App` and `module-info`: they are
  library wrappers, network code and UI wiring, outside the cipher and its bridge.
- Real processes and streams: the child is an oracle. Draining stdout completely before
  stderr can deadlock on a full pipe; that is a concurrency property, and it is not modelled.
- Temp-file naming: `createTempFile`'s random names become names free by length
  (`Bridge.FreshName`). The model keeps only that each name is new and that the two differ.
- Encoding: strings are sequences of code points. UTF-8 writing and reading is taken to
  preserve them. The child's stdout and stderr pipes are taken to be UTF-8 on both sides:
  Java decodes them as UTF-8, while Python encodes them in the locale's encoding (on Windows
  the ANSI code page, with backslash escapes on stderr), where "❌" and the accented letters
  of the messages would not arrive as stated. Python's universal-newline reading is not
  modelled; it changes only carriage returns, which neither cleaning nor validation can see.
- `leer_fichero`'s Latin-1 fallback and its read errors: an existing input file is read as it
  is. `escribir_fichero`'s write errors: a write always succeeds.
- `demo()`: with no arguments the script runs the demo. `Contract.PythonScript` reports that
  as a clean exit with no output and does not model the demo's files. The bridge never
  starts the script that way.
- Vigenere.CleanText: upper-casing is ASCII-only. Python's `str.upper()` also maps a few
  non-ASCII characters to ASCII letters, such as 'ı' to 'I', 'ſ' to 'S' and 'ﬀ' to "FF". The
  model drops those characters where Python keeps the letters. `Vigenere.NormalizeKey`, the
  `k.upper()` check and the mode's `lower()` are restricted the same way. No non-ASCII
  character lower-cases to a mode word, so the dispatch is unaffected.
- Java's null arguments: the model's strings are never null, although a null is not
  harmless in the source. A null `texto` or `clave` makes `start()` or `Files.writeString`
  throw `NullPointerException`. On the temp-file route that happens after the input file
  was created, and the file stays behind. Only the Hogwarts `MainController` calls the
  service (`procesarTexto`), and it rejects null and empty text and key first. The other
  `MainController` talks to an HTTP client instead, so `org.example.PythonVigenereService`
  has no caller in the repository.
- The Java services' slf4j log lines, and the script's info records (dropped at Python's
  default WARNING level): neither reaches a caller.
- The `__main__` traceback: an exception other than `ValueError` is not modelled in the
  dispatcher. `Vigenere.Main` uses the corrected `validar_datos`, so none arises; see Findings.
- Contract.StderrLines: one stderr line per log record. A multi-line record is split by
  `readLine` and re-joined with `"\n"`, which gives the same text except where the record
  holds a carriage return.
- Contract.PythonScript: it takes `argv[1]` to name `vigenere.py`. With a wrong script path
  the interpreter itself exits with code 2 and its own message, which the model does not
  describe.
- Windows command-line quoting of the arguments, and the interpreter being found on the
  path (a missing interpreter is `StartFailed`).

## Findings

| source | as written | input that shows it | evidently intended | confidence | as-written member | corrected member |
|---|---|---|---|---|---|---|
| src/main/python/Vigenere.py:150-158 | `detectar_invisibles` returns the `repr()` of each invisible character (an 8-character string such as `'\u200b'`), and `validar_datos` calls `ord()` on each of those strings | key "ABC" followed by U+200B (any non-blank key holding one of the five invisible characters) | return `(False, "⚠️ La clave contiene caracteres invisibles o ilegales (U+200B). …")` | high; derived from the code's text, not executed | Vigenere.ValidateDataAsWritten (shown by Vigenere.InvisibleKeyRaisesTypeError, Vigenere.InvisibleKeyExample) | Vigenere.ValidateData |

In the code as written, `ord()` raises `TypeError` ("ord() expected a character, but string of
length 8 found"). The `__main__` block catches only `ValueError`, so the script ends with a
traceback and exit status 1. This happens even in file mode, which otherwise always exits with 0.
The rest of the model uses the corrected check.
