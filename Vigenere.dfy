/**
 * The Vigenère engine of `vigenere.py`: cleaning of text and key, detection of
 * invisible characters, the validation guard chain, key stretching, the
 * modulo-26 encrypt and decrypt loops, the file-mode helpers and the
 * command-line dispatcher.
 */
module Vigenere {
  import opened Common
  import opened Text

  /** MINIMO_CLAVE */
  const MinKeyLength := 3

  /** The five code points of CARACTERES_INVISIBLES (zero-width characters and the BOM). */
  predicate IsInvisible(c: char) {
    c == '\U{200B}' || c == '\U{200C}' || c == '\U{200D}' || c == '\U{2060}' || c == '\U{FEFF}'
  }

  /** What a Python call does: return a value or raise an exception. */
  datatype PyError = ValueError(message: string) | TypeError(message: string)

  datatype Py<T> = Returned(value: T) | Raised(error: PyError)

  // ================================================================ cleaning

  /** The characters of `s` that lie in 'A'..'Z', in their original order. */
  function KeepUpper(s: string): (r: string)
    ensures AllUpper(r) && |r| <= |s|
    ensures |r| == |s| <==> AllUpper(s)
  {
    if s == [] then []
    else (if IsUpperLetter(s[0]) then [s[0]] else []) + KeepUpper(s[1..])
  }

  /** `limpiar_texto`: upper-case, then keep only 'A'..'Z'. */
  function CleanText(text: string): (r: string)
    ensures AllUpper(r) && |r| <= |text|
  {
    KeepUpper(Upper(text))
  }

  /** `normalizar_clave`: the source writes out the same comprehension as `limpiar_texto`. */
  function NormalizeKey(key: string): (r: string)
    ensures AllUpper(r) && |r| <= |key|
  {
    CleanText(key)
  }

  lemma {:induction false} KeepUpperAppend(a: string, b: string)
    ensures KeepUpper(a + b) == KeepUpper(a) + KeepUpper(b)
  {
    if a != [] {
      assert (a + b)[1..] == a[1..] + b;
      KeepUpperAppend(a[1..], b);
    } else {
      assert a + b == b;
    }
  }

  lemma {:induction false} KeepUpperAllUpper(s: string)
    requires AllUpper(s)
    ensures KeepUpper(s) == s
  {
    if s != [] {
      KeepUpperAllUpper(s[1..]);
    }
  }

  /**
   * `limpiar_texto` keeps exactly the ASCII letters of its input, upper-cased,
   * in their original order: it distributes over concatenation, maps a letter
   * to its upper-case form and drops every other character.
   */
  lemma CleanTextCharacterization(a: string, b: string, c: char)
    ensures CleanText(a + b) == CleanText(a) + CleanText(b)
    ensures CleanText([c]) == if IsAsciiLetter(c) then [UpperChar(c)] else []
  {
    UpperAppend(a, b);
    KeepUpperAppend(Upper(a), Upper(b));
    assert Upper([c]) == [UpperChar(c)];
    assert [UpperChar(c)][1..] == [];
  }

  /** Cleaning an already clean text changes nothing. */
  lemma CleanTextIdempotent(text: string)
    ensures CleanText(CleanText(text)) == CleanText(text)
  {
    var t := CleanText(text);
    assert Upper(t) == t;
    KeepUpperAllUpper(t);
  }

  /** The cleaned text is empty exactly when the input holds no ASCII letter. */
  lemma {:induction false} CleanTextEmptyIff(text: string)
    ensures CleanText(text) == [] <==> forall i :: 0 <= i < |text| ==> !IsAsciiLetter(text[i])
  {
    if text != [] {
      CleanTextCharacterization([text[0]], text[1..], text[0]);
      assert [text[0]] + text[1..] == text;
      CleanTextEmptyIff(text[1..]);
      assert forall i :: 1 <= i < |text| ==> text[i] == text[1..][i - 1];
    }
  }

  /** `normalizar_clave(k) == k.upper()` holds exactly when `k` is made of ASCII letters only. */
  lemma KeyUnchangedIff(key: string)
    ensures NormalizeKey(key) == Upper(key) <==> forall i :: 0 <= i < |key| ==> IsAsciiLetter(key[i])
  {
    var u := Upper(key);
    assert (forall i :: 0 <= i < |key| ==> IsAsciiLetter(key[i])) <==> AllUpper(u) by {
      assert forall i :: 0 <= i < |key| ==> (IsAsciiLetter(key[i]) <==> IsUpperLetter(u[i]));
    }
    if AllUpper(u) {
      KeepUpperAllUpper(u);
    }
  }

  // ============================================================= invisibles

  /** The invisible characters of `s`, in order. */
  function Invisibles(s: string): (r: string)
    ensures forall i :: 0 <= i < |r| ==> IsInvisible(r[i])
    ensures r == [] <==> forall i :: 0 <= i < |s| ==> !IsInvisible(s[i])
  {
    if s == [] then []
    else Invisibles(s[..|s| - 1]) + (if IsInvisible(s[|s| - 1]) then [s[|s| - 1]] else [])
  }

  /** Python's `repr()` of an invisible character: a quoted `\uXXXX` escape, lower-case hex. */
  function ReprInvisible(c: char): (r: string)
    requires IsInvisible(c)
    ensures |r| == 8
  {
    "'\\u" + Hex4(c as int, false) + "'"
  }

  function ReprAll(cs: string): (r: seq<string>)
    requires forall i :: 0 <= i < |cs| ==> IsInvisible(cs[i])
  {
    seq(|cs|, i requires 0 <= i < |cs| => ReprInvisible(cs[i]))
  }

  /** `detectar_invisibles`: the `repr()` of every invisible character, in order. */
  method DetectInvisibles(s: string) returns (found: seq<string>)
    ensures found == ReprAll(Invisibles(s))
    ensures found == [] <==> forall i :: 0 <= i < |s| ==> !IsInvisible(s[i])
  {
    found := [];
    var i := 0;
    while i < |s|
      invariant 0 <= i <= |s|
      invariant found == ReprAll(Invisibles(s[..i]))
    {
      assert s[..i + 1][..i] == s[..i];
      if IsInvisible(s[i]) {
        found := found + [ReprInvisible(s[i])];
      }
      i := i + 1;
    }
    assert s[..|s|] == s;
  }

  // ============================================================= validation

  /** The checks of `validar_datos`, in the order they are written. */
  datatype Check = KeyBlank | KeyInvisible | KeyNoLetter | KeyTooShort | KeyNotLetters | TextBlank | TextNoLetter

  function Rank(c: Check): (n: nat) {
    match c
    case KeyBlank => 0
    case KeyInvisible => 1
    case KeyNoLetter => 2
    case KeyTooShort => 3
    case KeyNotLetters => 4
    case TextBlank => 5
    case TextNoLetter => 6
  }

  /** Whether check `c` on its own rejects `(text, key)`, whatever the other checks say. */
  predicate Fails(c: Check, text: string, key: string) {
    match c
    case KeyBlank => IsBlank(key)
    case KeyInvisible => Invisibles(key) != []
    case KeyNoLetter => NormalizeKey(key) == []
    case KeyTooShort => |NormalizeKey(key)| < MinKeyLength
    case KeyNotLetters => NormalizeKey(key) != Upper(key)
    case TextBlank => IsBlank(text)
    case TextNoLetter => CleanText(text) == []
  }

  /** The guard chain of `validar_datos`: the first check that rejects, if any. */
  function FirstFailure(text: string, key: string): (r: Option<Check>)
    ensures r == None ==> forall c :: !Fails(c, text, key)
    ensures r.Some? ==> Fails(r.value, text, key)
    ensures r.Some? ==> forall c :: Rank(c) < Rank(r.value) ==> !Fails(c, text, key)
  {
    if IsBlank(key) then Some(KeyBlank)
    else if Invisibles(key) != [] then Some(KeyInvisible)
    else if NormalizeKey(key) == [] then Some(KeyNoLetter)
    else if |NormalizeKey(key)| < MinKeyLength then Some(KeyTooShort)
    else if NormalizeKey(key) != Upper(key) then Some(KeyNotLetters)
    else if IsBlank(text) then Some(TextBlank)
    else if CleanText(text) == [] then Some(TextNoLetter)
    else None
  }

  /** The `U+XXXX` labels of the invisible characters, joined with ", ". */
  function InvisibleCodes(cs: string): (r: string)
    requires forall i :: 0 <= i < |cs| ==> IsInvisible(cs[i])
  {
    Join(", ", seq(|cs|, i requires 0 <= i < |cs| => CodeLabel(cs[i])))
  }

  /** `f"U+{ord(c):04X}"` */
  function CodeLabel(c: char): (r: string)
    requires IsInvisible(c)
  {
    "U+" + Hex4(c as int, true)
  }

  const WarningSign := "\U{26A0}\U{FE0F}"
  const CrossMark := "\U{274C}"

  /** The message `validar_datos` returns for a failed check. */
  function Message(c: Check, key: string): (m: string)
    ensures m != ""
  {
    match c
    case KeyBlank => "La clave no puede estar vacía."
    case KeyInvisible =>
      WarningSign + " La clave contiene caracteres invisibles o ilegales (" + InvisibleCodes(Invisibles(key))
      + "). Revísala y vuelve a introducirla."
    case KeyNoLetter => "La clave debe contener al menos una letra A-Z."
    case KeyTooShort => "La clave debe tener al menos " + NatToString(MinKeyLength) + " letras."
    case KeyNotLetters =>
      WarningSign + " La clave contiene caracteres no válidos (solo se permiten letras A-Z).\n"
      + "Clave introducida: " + key + "\n"
      + "Parte válida de la clave sería: " + NormalizeKey(key)
    case TextBlank => CrossMark + " El texto no puede estar vacío."
    case TextNoLetter => "El texto debe contener al menos una letra A-Z."
  }

  /**
   * `validar_datos` as it is evidently meant to work: `(True, "")` when every
   * check passes, otherwise `(False, message of the first failing check)`.
   */
  function ValidateData(text: string, key: string): (r: (bool, string))
    ensures r.0 <==> FirstFailure(text, key) == None
    ensures r.0 <==> r.1 == ""
  {
    match FirstFailure(text, key)
    case None => (true, "")
    case Some(c) => (false, Message(c, key))
  }

  /**
   * The checks together accept exactly a key of at least three ASCII letters
   * (nothing else) and a text holding at least one ASCII letter.
   */
  lemma ValidIff(text: string, key: string)
    ensures FirstFailure(text, key) == None <==>
      (|key| >= MinKeyLength && (forall i :: 0 <= i < |key| ==> IsAsciiLetter(key[i])) && CleanText(text) != [])
  {
    KeyUnchangedIff(key);
    CleanTextEmptyIff(text);
    var letters := forall i :: 0 <= i < |key| ==> IsAsciiLetter(key[i]);
    if letters && |key| >= MinKeyLength && CleanText(text) != [] {
      assert !IsPyWhitespace(key[0]) && !IsBlank(key);
      assert Invisibles(key) == [] by {
        assert forall i :: 0 <= i < |key| ==> !IsInvisible(key[i]);
      }
      assert NormalizeKey(key) == Upper(key);
      var j :| 0 <= j < |text| && IsAsciiLetter(text[j]);
      assert !IsPyWhitespace(text[j]);
    }
  }

  // ---------------------------------------------- the invisible-key finding

  /** Python's `ord()`, which accepts only a string of length one. */
  function Ord(s: string): (r: Py<int>)
    ensures r.Returned? <==> |s| == 1
    ensures r.Returned? ==> 0 <= r.value
  {
    if |s| == 1 then Returned(s[0] as int)
    else Raised(TypeError("ord() expected a character, but string of length " + NatToString(|s|) + " found"))
  }

  /**
   * `", ".join(f"U+{ord(c):04X}" for c in invisibles)` over the strings
   * `detectar_invisibles` returns: it succeeds exactly when every entry is a
   * single character, and otherwise raises the first entry's error.
   */
  function FormatCodes(found: seq<string>): (r: Py<string>)
    ensures r.Returned? <==> forall i :: 0 <= i < |found| ==> |found[i]| == 1
    ensures found != [] && |found[0]| != 1 ==> r == Raised(Ord(found[0]).error)
  {
    if found == [] then Returned("")
    else match Ord(found[0])
      case Raised(e) => Raised(e)
      case Returned(n) =>
        match FormatCodes(found[1..])
        case Raised(e) => Raised(e)
        case Returned(rest) => Returned("U+" + Hex4OrMore(n, true) + (if rest == "" then "" else ", " + rest))
  }

  /**
   * `validar_datos` AS WRITTEN: step 2 hands the `repr()` strings of
   * `detectar_invisibles` to `ord()`, which raises.
   */
  function ValidateDataAsWritten(text: string, key: string): (r: Py<(bool, string)>)
    ensures r.Raised? ==> !IsBlank(key) && Invisibles(key) != []
    ensures IsBlank(key) || Invisibles(key) == [] ==> r == Returned(ValidateData(text, key))
  {
    if IsBlank(key) then Returned((false, Message(KeyBlank, key)))
    else if Invisibles(key) != [] then
      match FormatCodes(ReprAll(Invisibles(key)))
      case Raised(e) => Raised(e)
      case Returned(codes) =>
        Returned((false, WarningSign + " La clave contiene caracteres invisibles o ilegales (" + codes
                         + "). Revísala y vuelve a introducirla."))
    else Returned(ValidateData(text, key))
  }

  /**
   * A non-blank key with an invisible character makes the written code raise
   * `TypeError` where the corrected check returns `(False, message)`; on every
   * other input the two agree.
   */
  lemma InvisibleKeyRaisesTypeError(text: string, key: string)
    ensures !IsBlank(key) && Invisibles(key) != [] ==>
      ValidateDataAsWritten(text, key) == Raised(TypeError("ord() expected a character, but string of length 8 found"))
      && ValidateData(text, key) == (false, Message(KeyInvisible, key))
    ensures !(!IsBlank(key) && Invisibles(key) != []) ==> ValidateDataAsWritten(text, key) == Returned(ValidateData(text, key))
  {
    if !IsBlank(key) && Invisibles(key) != [] {
      var found := ReprAll(Invisibles(key));
      assert |found[0]| == 8;
      assert NatToString(8) == "8";
      assert "ord() expected a character, but string of length " + "8" + " found"
        == "ord() expected a character, but string of length 8 found";
      assert Ord(found[0]) == Raised(TypeError("ord() expected a character, but string of length 8 found"));
      assert FormatCodes(found) == Raised(TypeError("ord() expected a character, but string of length 8 found"));
    }
  }

  /** The concrete input: the key "ABC" followed by a zero-width space. */
  lemma InvisibleKeyExample()
    ensures ValidateDataAsWritten("HOLA", "ABC\U{200B}").Raised?
    ensures ValidateData("HOLA", "ABC\U{200B}") == (false, Message(KeyInvisible, "ABC\U{200B}"))
  {
    var key := "ABC\U{200B}";
    assert !IsPyWhitespace(key[0]);
    assert Invisibles(key) != [] by {
      assert IsInvisible(key[3]);
    }
    InvisibleKeyRaisesTypeError("HOLA", key);
  }

  // ========================================================== key stretching

  /** `s * n` in Python. */
  function Repeat(s: string, n: nat): (r: string)
    ensures |r| == n * |s|
  {
    if n == 0 then [] else s + Repeat(s, n - 1)
  }

  lemma MulMono(a: nat, b: nat, m: nat)
    requires a <= b
    ensures a * m <= b * m
  {
    assert b * m == a * m + (b - a) * m;
  }

  lemma {:induction false} RepeatAtBlock(s: string, n: nat, q: nat, r: nat)
    requires q < n && r < |s|
    ensures q * |s| + r < n * |s|
    ensures Repeat(s, n)[q * |s| + r] == s[r]
  {
    MulMono(q + 1, n, |s|);
    if q > 0 {
      assert q * |s| + r - |s| == (q - 1) * |s| + r;
      RepeatAtBlock(s, n - 1, q - 1, r);
    }
  }

  /** Position `i` of `s * n` holds `s[i mod |s|]`. */
  lemma RepeatAt(s: string, n: nat, i: nat)
    requires i < n * |s|
    ensures Repeat(s, n)[i] == s[i % |s|]
  {
    var q, r := i / |s|, i % |s|;
    assert i == q * |s| + r;
    if q >= n {
      MulMono(n, q, |s|);
    }
    RepeatAtBlock(s, n, q, r);
  }

  lemma RepeatCovers(len: nat, m: nat)
    requires m > 0
    ensures len < (len / m + 1) * m
  {
    assert (len / m + 1) * m == (len / m) * m + m;
  }

  /**
   * `ajustar_clave`: raises when the normalised key is empty; otherwise the key
   * repeated and cut to the text's length, so position `i` holds key letter
   * `i mod |key|`.
   */
  function AdjustKey(text: string, key: string): (r: Py<string>)
    ensures r.Raised? <==> NormalizeKey(key) == []
    ensures r.Raised? ==> r.error == ValueError("La clave no puede estar vacía.")
    ensures r.Returned? ==> |r.value| == |text| && AllUpper(r.value)
    ensures r.Returned? ==> forall i :: 0 <= i < |text| ==>
      r.value[i] == NormalizeKey(key)[i % |NormalizeKey(key)|]
  {
    var k := NormalizeKey(key);
    if k == [] then Raised(ValueError("La clave no puede estar vacía."))
    else
      var reps := |text| / |k| + 1;
      RepeatCovers(|text|, |k|);
      var stretched := Repeat(k, reps)[..|text|];
      assert forall i :: 0 <= i < |text| ==> stretched[i] == k[i % |k|] by {
        forall i | 0 <= i < |text| ensures stretched[i] == k[i % |k|] {
          RepeatAt(k, reps, i);
        }
      }
      Returned(stretched)
  }

  /** The docstring's example: "HOLA" with key "A" gives "AAAA". */
  lemma AdjustKeyExample()
    ensures AdjustKey("HOLA", "A") == Returned("AAAA")
  {
    assert Upper("A") == "A";
    assert KeepUpper("A") == "A" by {
      assert KeepUpper("A"[1..]) == [];
    }
    var r := AdjustKey("HOLA", "A");
    assert r.Returned? && |r.value| == 4;
    forall i | 0 <= i < 4 ensures r.value[i] == "AAAA"[i] {
      assert i % 1 == 0;
    }
    assert r.value == "AAAA";
  }

  // ============================================================= the cipher

  /** One encryption step: `chr((ord(t) - 65 + ord(k) - 65) % 26 + 65)`. */
  function Shift(p: char, k: char): (c: char)
    requires IsUpperLetter(p) && IsUpperLetter(k)
    ensures IsUpperLetter(c)
  {
    (((p as int - 'A' as int) + (k as int - 'A' as int)) % 26 + 'A' as int) as char
  }

  /** One decryption step; Python's `%` of a negative number is non-negative, as Dafny's is. */
  function Unshift(c: char, k: char): (p: char)
    requires IsUpperLetter(c) && IsUpperLetter(k)
    ensures IsUpperLetter(p)
  {
    (((c as int - 'A' as int) - (k as int - 'A' as int)) % 26 + 'A' as int) as char
  }

  lemma UnshiftShift(p: char, k: char)
    requires IsUpperLetter(p) && IsUpperLetter(k)
    ensures Unshift(Shift(p, k), k) == p
  {
  }

  function EncryptLetters(t: string, ks: string): (r: string)
    requires |t| == |ks| && AllUpper(t) && AllUpper(ks)
    ensures |r| == |t| && AllUpper(r)
  {
    seq(|t|, i requires 0 <= i < |t| => Shift(t[i], ks[i]))
  }

  function DecryptLetters(c: string, ks: string): (r: string)
    requires |c| == |ks| && AllUpper(c) && AllUpper(ks)
    ensures |r| == |c| && AllUpper(r)
  {
    seq(|c|, i requires 0 <= i < |c| => Unshift(c[i], ks[i]))
  }

  /** Decryption letter by letter undoes encryption under the same stretched key. */
  lemma DecryptEncryptLetters(t: string, ks: string)
    requires |t| == |ks| && AllUpper(t) && AllUpper(ks)
    ensures DecryptLetters(EncryptLetters(t, ks), ks) == t
  {
    forall i | 0 <= i < |t| ensures DecryptLetters(EncryptLetters(t, ks), ks)[i] == t[i] {
      UnshiftShift(t[i], ks[i]);
    }
  }

  datatype Op = Encrypt | Decrypt

  /** What `cifrar_vigenere` (Encrypt) and `descifrar_vigenere` (Decrypt) compute. */
  function Transform(op: Op, text: string, key: string): (r: Py<string>)
    ensures r.Raised? <==> FirstFailure(text, key).Some?
    ensures r.Raised? ==> r.error == ValueError(ValidateData(text, key).1)
    ensures r.Returned? ==> |r.value| == |CleanText(text)| && AllUpper(r.value) && r.value != []
  {
    var (valid, message) := ValidateData(text, key);
    if !valid then Raised(ValueError(message))
    else
      var t := CleanText(text);
      match AdjustKey(t, key)
      case Raised(e) => Raised(e)
      case Returned(ks) =>
        Returned(if op == Encrypt then EncryptLetters(t, ks) else DecryptLetters(t, ks))
  }

  /** Letter `i` of a ciphertext is cleaned-text letter `i` shifted by key letter `i mod |key|`. */
  lemma EncryptPointwise(text: string, key: string, i: nat)
    requires Transform(Encrypt, text, key).Returned? && i < |CleanText(text)|
    ensures var k := NormalizeKey(key);
      k != [] && Transform(Encrypt, text, key).value[i] == Shift(CleanText(text)[i], k[i % |k|])
  {
  }

  /** Letter `i` of a decryption is letter `i` of the cleaned input unshifted by key letter `i mod |key|`. */
  lemma DecryptPointwise(text: string, key: string, i: nat)
    requires Transform(Decrypt, text, key).Returned? && i < |CleanText(text)|
    ensures var k := NormalizeKey(key);
      k != [] && Transform(Decrypt, text, key).value[i] == Unshift(CleanText(text)[i], k[i % |k|])
  {
  }

  /**
   * Round trip: a ciphertext passes validation with the same key, and
   * decrypting it gives back the cleaned plaintext.
   */
  lemma RoundTrip(text: string, key: string)
    requires FirstFailure(text, key) == None
    ensures Transform(Encrypt, text, key).Returned?
    ensures var c := Transform(Encrypt, text, key).value;
      FirstFailure(c, key) == None && Transform(Decrypt, c, key) == Returned(CleanText(text))
  {
    var t := CleanText(text);
    var ks := AdjustKey(t, key).value;
    var c := EncryptLetters(t, ks);
    assert Transform(Encrypt, text, key) == Returned(c);
    KeepUpperAllUpper(c);
    assert Upper(c) == c;
    assert CleanText(c) == c;
    ValidIff(text, key);
    ValidIff(c, key);
    assert AdjustKey(c, key) == AdjustKey(t, key);
    DecryptEncryptLetters(t, ks);
  }

  /**
   * The warning in `descifrar_vigenere` ("the result holds no readable letter")
   * can never fire: a successful decryption is a non-empty string of letters.
   */
  lemma DecryptWarningNeverFires(text: string, key: string)
    requires Transform(Decrypt, text, key).Returned?
    ensures exists i ::
      (0 <= i < |Transform(Decrypt, text, key).value| && IsUpperLetter(Transform(Decrypt, text, key).value[i]))
  {
    assert IsUpperLetter(Transform(Decrypt, text, key).value[0]);
  }

  /** `cifrar_vigenere` (Encrypt) and `descifrar_vigenere` (Decrypt): validate, clean, stretch, then the zip loop. */
  method Run(op: Op, text: string, key: string) returns (r: Py<string>)
    ensures r == Transform(op, text, key)
  {
    var (valid, message) := ValidateData(text, key);
    if !valid {
      return Raised(ValueError(message));
    }
    var t := CleanText(text);
    var adjusted := AdjustKey(t, key);
    if adjusted.Raised? {
      return Raised(adjusted.error);
    }
    var result := ZipLoop(op, t, adjusted.value);
    return Returned(result);
  }

  /** The `for t, k in zip(...)` loop that appends one shifted letter per step. */
  method ZipLoop(op: Op, t: string, ks: string) returns (result: string)
    requires |t| == |ks| && AllUpper(t) && AllUpper(ks)
    ensures result == if op == Encrypt then EncryptLetters(t, ks) else DecryptLetters(t, ks)
  {
    result := [];
    var i := 0;
    while i < |t|
      invariant 0 <= i <= |t| && |result| == i
      invariant forall j :: 0 <= j < i ==>
        result[j] == if op == Encrypt then Shift(t[j], ks[j]) else Unshift(t[j], ks[j])
    {
      var nt := t[i] as int - 'A' as int;
      var nk := ks[i] as int - 'A' as int;
      var c := if op == Encrypt then (nt + nk) % 26 else (nt - nk) % 26;
      result := result + [(c + 'A' as int) as char];
      i := i + 1;
    }
  }

  // ============================================================== file mode

  datatype Level = Info | Warning | Error

  datatype LogRecord = LogRecord(level: Level, message: string)

  /** The observable effects of a file-mode call: the log and the one file it may write. */
  datatype FileEffects = FileEffects(log: seq<LogRecord>, written: Option<(string, string)>)

  function MissingInputMessage(op: Op): (m: string) {
    if op == Encrypt then "El archivo de entrada no existe." else "El archivo cifrado no existe."
  }

  function UnreadableInputMessage(op: Op): (m: string) {
    if op == Encrypt then "No se pudo leer el archivo de entrada." else "No se pudo leer el archivo cifrado."
  }

  /**
   * `cifrar_archivo` / `descifrar_archivo` over a file system `fs` (path to
   * contents): a missing or empty input, or data that fails validation, is
   * logged and nothing is written; otherwise the result goes to `output`.
   */
  function ProcessFile(op: Op, input: string, output: string, key: string, fs: map<string, string>): (e: FileEffects)
    ensures e.written.Some? <==> input in fs && fs[input] != "" && FirstFailure(fs[input], key) == None
    ensures e.written.Some? ==> e.written.value == (output, Transform(op, fs[input], key).value)
    ensures e.written.None? ==> |e.log| == 1 && e.log[0].level == Error
  {
    if input !in fs then FileEffects([LogRecord(Error, MissingInputMessage(op))], None)
    else
      var contents := fs[input];
      if contents == "" then FileEffects([LogRecord(Error, UnreadableInputMessage(op))], None)
      else match Transform(op, contents, key)
        case Raised(err) => FileEffects([LogRecord(Error, err.message)], None)
        case Returned(s) => FileEffects([LogRecord(Info, "Fichero escrito en " + output)], Some((output, s)))
  }

  // ================================================ the command-line dispatch

  datatype Command =
    | Demo
    | TextCommand(op: Op, text: string, key: string)
    | FileCommand(op: Op, input: string, output: string, key: string)
    | Usage

  /** The branch the `__main__` block takes for `sys.argv`. */
  function ParseArgs(argv: seq<string>): (c: Command)
    requires |argv| >= 1
    ensures c.Demo? <==> |argv| == 1
    ensures c.TextCommand? <==> |argv| >= 4 && (Lower(argv[1]) == "cifrar" || Lower(argv[1]) == "descifrar")
    ensures c.TextCommand? ==>
      (c.text == argv[2] && c.key == argv[3] && (c.op == Encrypt <==> Lower(argv[1]) == "cifrar"))
    ensures c.FileCommand? <==>
      |argv| >= 5 && (Lower(argv[1]) == "cifrar-archivo" || Lower(argv[1]) == "descifrar-archivo")
    ensures c.FileCommand? ==>
      (c.input == argv[2] && c.output == argv[3] && c.key == argv[4]
       && (c.op == Encrypt <==> Lower(argv[1]) == "cifrar-archivo"))
  {
    if |argv| == 1 then Demo
    else
      var mode := Lower(argv[1]);
      if mode == "cifrar" && |argv| >= 4 then TextCommand(Encrypt, argv[2], argv[3])
      else if mode == "descifrar" && |argv| >= 4 then TextCommand(Decrypt, argv[2], argv[3])
      else if mode == "cifrar-archivo" && |argv| >= 5 then FileCommand(Encrypt, argv[2], argv[3], argv[4])
      else if mode == "descifrar-archivo" && |argv| >= 5 then FileCommand(Decrypt, argv[2], argv[3], argv[4])
      else Usage
  }

  const UsageMessage :=
    "Uso incorrecto. Uso:\n"
    + "  python vigenere.py cifrar \"TEXTO\" \"CLAVE\"\n"
    + "  python vigenere.py descifrar \"TEXTO\" \"CLAVE\"\n"
    + "  python vigenere.py cifrar-archivo entrada.txt salida.txt CLAVE\n"
    + "  python vigenere.py descifrar-archivo entrada.txt salida.txt CLAVE"

  /** A finished run of the script: exit status, printed lines, log records and the file it wrote. */
  datatype ScriptRun =
    | DemoRun
    | Finished(exitCode: int, printed: seq<string>, log: seq<LogRecord>, written: Option<(string, string)>)

  /** The `__main__` block: dispatch on `sys.argv`, print or write the result, exit. */
  function Main(argv: seq<string>, fs: map<string, string>): (r: ScriptRun)
    requires |argv| >= 1
    ensures r.DemoRun? <==> |argv| == 1
    ensures r.Finished? ==> |r.printed| <= 1 && forall i :: 0 <= i < |r.printed| ==> AllUpper(r.printed[i])
    ensures r.Finished? && r.exitCode != 0 ==> r.printed == [] && r.written == None && |r.log| == 1
  {
    match ParseArgs(argv)
    case Demo => DemoRun
    case Usage => Finished(1, [], [LogRecord(Error, UsageMessage)], None)
    case TextCommand(op, text, key) =>
      (match Transform(op, text, key)
       case Raised(err) => Finished(1, [], [LogRecord(Error, err.message)], None)
       case Returned(s) => Finished(0, [s], [], None))
    case FileCommand(op, input, output, key) =>
      var e := ProcessFile(op, input, output, key, fs);
      Finished(0, [], e.log, e.written)
  }

  /**
   * Exit status 1 exactly for a wrong argument shape or an inline call whose
   * data fails validation; file mode always exits 0, and writes only to the
   * output path it was given.
   */
  lemma ExitStatus(argv: seq<string>, fs: map<string, string>)
    requires |argv| >= 2
    ensures Main(argv, fs).Finished?
    ensures var c := ParseArgs(argv);
      Main(argv, fs).exitCode == 1 <==>
        c.Usage? || (c.TextCommand? && FirstFailure(c.text, c.key).Some?)
    ensures Main(argv, fs).exitCode in {0, 1}
    ensures Main(argv, fs).written.Some? ==>
      ParseArgs(argv).FileCommand? && Main(argv, fs).written.value.0 == argv[3]
  {
  }
}
