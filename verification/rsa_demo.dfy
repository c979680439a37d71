/** The RSA demo's conversions between the text a user types or reads and
    the integer the arithmetic works on, in four formats: ASCII (character
    codes written one after another), decimal, hexadecimal and binary. */
module RsaFormats {

  import opened Wrappers
  import opened JsString
  import opened JsNumber

  /** The format selected for an input or an output; `Other` is any other
      selector value, which the conversions treat as their default case. */
  datatype Format = Ascii | Decimal | Hex | Binary | Other(name: string)

  /** What the input conversion returns: `null`, NaN, or an integral number. */
  datatype Converted = Null | NaN | Num(value: int)

  function FromParse(r: Option<int>): (c: Converted)
    ensures c.Num? <==> r.Some?
    ensures c.Num? ==> c.value == r.value
  {
    match r
    case Some(v) => Num(v)
    case None => NaN
  }

  /** `Array.from(s).map(c => c.charCodeAt(0)).join('')`: the decimal code
      of every character, written one after another. */
  function CharCodes(s: string): (r: string)
    ensures s != [] ==> |r| >= 1
    ensures forall j :: 0 <= j < |r| ==> IsDigit(r[j], 10)
  {
    if s == [] then []
    else DecimalString(FirstCodeUnit(s[0])) + CharCodes(s[1..])
  }

  /** `convertInputToDecimal(input, format)`. */
  function ConvertInputToDecimal(input: string, format: Format): (r: Converted)
    ensures r.Null? <==> format.Other? || (format == Ascii && input == "")
    // the ASCII form of a non-empty text is always a non-negative number
    ensures format == Ascii && input != "" ==> r.Num? && r.value >= 0
  {
    match format
    case Ascii =>
      if input == "" then Null
      else
        var codes := CharCodes(input);
        ParseDecimalDigits(codes);
        FromParse(ParseInt(codes, 0))
    case Decimal => FromParse(ParseInt(input, 0))
    case Hex => FromParse(ParseInt(input, 16))
    case Binary => FromParse(ParseInt(input, 2))
    case Other(_) => Null
  }

  /** The two-character slice `value.slice(i, i + 2)`, shorter at the end. */
  function Chunk(value: string, i: nat): (c: string)
    requires i < |value|
    ensures 1 <= |c| <= 2
  {
    value[i..if i + 2 <= |value| then i + 2 else |value|]
  }

  /** The character a chunk stands for: its `parseInt` when that is a
      printable code (32 to 126), and nothing otherwise. */
  function ChunkChar(chunk: string): (r: Option<char>)
    ensures r.Some? ==> 32 <= r.value as int <= 126
  {
    match ParseInt(chunk, 0)
    case Some(code) => if 32 <= code <= 126 then Some(code as char) else None
    case None => None
  }

  /** What a chunk adds to the output: its character, or nothing. */
  function ChunkText(chunk: string): (r: string)
    ensures |r| <= 1
  {
    match ChunkChar(chunk)
    case Some(c) => [c]
    case None => []
  }

  /** The characters decoded from `value` two digits at a time, from
      position `i` on. */
  function AsciiFrom(value: string, i: nat): (r: string)
    ensures forall k :: 0 <= k < |r| ==> 32 <= r[k] as int <= 126
    ensures i < |value| ==> |r| <= (|value| - i + 1) / 2
    ensures i >= |value| ==> r == ""
    decreases |value| - i
  {
    if i >= |value| then ""
    else
      ChunkText(Chunk(value, i)) + AsciiFrom(value, i + 2)
  }

  /** `convertDecimalToOutput(value, format)`: what the output shows for a
      decimal result. */
  function DecimalToOutput(value: string, format: Format): string {
    match format
    case Ascii =>
      var decoded := AsciiFrom(value, 0);
      if decoded == "" then value else decoded
    case Decimal => value
    case Hex =>
      (match ParseInt(value, 0)
       case Some(n) => ToUpper(ToRadixString(n, 16))
       case None => "NAN")
    case Binary =>
      (match ParseInt(value, 0)
       case Some(n) => ToRadixString(n, 2)
       case None => "NaN")
    case Other(_) => value
  }

  /** The ASCII output is printable text decoded from the digits, or, when
      no chunk decodes, the digits themselves. */
  lemma AsciiOutputShape(value: string)
    ensures var out := DecimalToOutput(value, Ascii);
      out == value || (out != "" && forall k :: 0 <= k < |out| ==> 32 <= out[k] as int <= 126)
    ensures |value| >= 1 ==> |DecimalToOutput(value, Ascii)| <= |value|
  {
  }

  /** The decimal and the unknown formats show the text unchanged. */
  lemma UnchangedFormats(value: string, name: string)
    ensures DecimalToOutput(value, Decimal) == value
    ensures DecimalToOutput(value, Other(name)) == value
  {
  }

  /** What the output shows in hexadecimal or binary for a result reads back,
      in the same format, as the result: the upper-cased hexadecimal included. */
  lemma OutputReadsBack(n: int, format: Format)
    requires format == Hex || format == Binary || format == Decimal
    ensures ConvertInputToDecimal(DecimalToOutput(DecimalString(n), format), format) == Num(n)
  {
    ParseToRadixString(n, 0);
    match format
    case Hex =>
      ParseIntIgnoresCase(ToRadixString(n, 16), 16);
      ParseToRadixString(n, 16);
    case Binary =>
      ParseToRadixString(n, 2);
    case Decimal =>
  }

  /** Decoding from a position depends only on the text from there on. */
  lemma {:induction false} AsciiFromSuffix(v: string, i: nat, w: string, j: nat)
    requires i <= |v| && j <= |w| && v[i..] == w[j..]
    ensures AsciiFrom(v, i) == AsciiFrom(w, j)
    decreases |v| - i
  {
    if i < |v| {
      assert |v| - i == |w| - j;
      var n := if i + 2 <= |v| then 2 else |v| - i;
      assert Chunk(v, i) == v[i..][..n] == w[j..][..n] == Chunk(w, j);
      if i + 2 <= |v| {
        assert v[i + 2..] == v[i..][2..] == w[j..][2..] == w[j + 2..];
        AsciiFromSuffix(v, i + 2, w, j + 2);
      }
    }
  }

  /** A code from 10 to 99 is written with two digits. */
  lemma TwoDigitCode(c: nat)
    requires 10 <= c <= 99
    ensures |DecimalString(c)| == 2
  {
    DivFacts(c, 10);
    assert 1 <= c / 10 < 10;
    assert Digits(c / 10, 10) == [DigitChar(c / 10)];
    assert DecimalString(c) == Digits(c / 10, 10) + [DigitChar(c % 10)];
  }

  /** Characters whose codes have two digits decode back one chunk each. */
  lemma {:induction false} DecodeTwoDigitCodes(s: string)
    requires forall k :: 0 <= k < |s| ==> 32 <= s[k] as int <= 99
    ensures AsciiFrom(CharCodes(s), 0) == s
    decreases |s|
  {
    if s != [] {
      var code := s[0] as int;
      var d := DecimalString(code);
      var rest := CharCodes(s[1..]);
      TwoDigitCode(code);
      assert CharCodes(s) == d + rest;
      assert Chunk(d + rest, 0) == d;
      ParseToRadixString(code, 0);
      assert ChunkChar(d) == Some(s[0]);
      assert (d + rest)[|d|..] == rest[0..];
      AsciiFromSuffix(d + rest, |d|, rest, 0);
      DecodeTwoDigitCodes(s[1..]);
      assert s == [s[0]] + s[1..];
    }
  }

  /** Text whose character codes all have two digits (32 to 99) survives
      conversion to a number and back: the ASCII output of the number's
      decimal form is the text. Numbers are unbounded here; with the source's
      doubles this holds only while the code string stays below 2^53, that
      is, for about seven characters or fewer. */
  lemma AsciiRoundTrip(s: string)
    requires s != []
    requires forall k :: 0 <= k < |s| ==> 32 <= s[k] as int <= 99
    ensures ConvertInputToDecimal(s, Ascii).Num?
    ensures DecimalToOutput(DecimalString(ConvertInputToDecimal(s, Ascii).value), Ascii) == s
  {
    var d := CharCodes(s);
    ParseDecimalDigits(d);
    var v := DigitsValue(d, 10);
    assert ConvertInputToDecimal(s, Ascii) == Num(v);
    var c0 := s[0] as int;
    TwoDigitCode(c0);
    DigitsCorrect(c0, 10);
    assert d == DecimalString(c0) + CharCodes(s[1..]);
    assert d[0] == DecimalString(c0)[0];
    DecimalDigitsUnique(d);
    DecodeTwoDigitCodes(s);
  }

  /** A code of three digits does not survive: "d" (code 100) becomes the
      number 100, whose chunks "10" and "0" are not printable, so the ASCII
      output shows "100". */
  lemma ThreeDigitCodeDoesNotRoundTrip()
    ensures ConvertInputToDecimal("d", Ascii) == Num(100)
    ensures DecimalToOutput(DecimalString(100), Ascii) == "100"
  {
    HundredDigits();
    assert CharCodes("d") == "100";
    ParseToRadixString(100, 0);
    NoChunkOfHundred();
  }

  /** 100 is written "100". */
  lemma HundredDigits()
    ensures DecimalString(100) == "100"
  {
    DivFacts(100, 10);
    DivFacts(10, 10);
  }

  /** Neither chunk of "100" is a printable code. */
  lemma NoChunkOfHundred()
    ensures AsciiFrom("100", 0) == ""
  {
    DivFacts(10, 10);
    ParseToRadixString(10, 0);
    ParseToRadixString(0, 0);
    assert Chunk("100", 0) == "10" && Chunk("100", 2) == "0";
    assert ChunkChar("10") == None;
    assert ChunkChar("0") == None;
    assert AsciiFrom("100", 2) == ChunkText("0") + AsciiFrom("100", 4);
  }

  /** `convertDecimalToOutput(value, format)`; its ASCII case is a loop
      over the digits two at a time that appends every printable code. */
  method ConvertDecimalToOutput(value: string, format: Format) returns (out: string)
    ensures out == DecimalToOutput(value, format)
  {
    if format != Ascii {
      return DecimalToOutput(value, format);
    }
    var result := DecodeAscii(value);
    out := if result == "" then value else result;
  }

  /** The loop of the ASCII case: every two-digit chunk that is a printable
      code is appended, in order. */
  method DecodeAscii(value: string) returns (result: string)
    ensures result == AsciiFrom(value, 0)
  {
    result := "";
    var i := 0;
    while i < |value|
      invariant result + AsciiFrom(value, i) == AsciiFrom(value, 0)
      decreases |value| - i
    {
      var code := ChunkChar(Chunk(value, i));
      AsciiStep(value, i, code);
      if code.Some? {
        result := result + [code.value];
      }
      i := i + 2;
    }
  }

  /** One turn of the decoding loop. */
  lemma AsciiStep(value: string, i: nat, code: Option<char>)
    requires i < |value| && code == ChunkChar(Chunk(value, i))
    ensures code.Some? ==> AsciiFrom(value, i) == [code.value] + AsciiFrom(value, i + 2)
    ensures code.None? ==> AsciiFrom(value, i) == AsciiFrom(value, i + 2)
  {
  }
}

/** The RSA demo's three cards: key generation, encryption and decryption.
    The number theory of key generation and of decryption lives in the
    compiled WebAssembly module; here it is an input. */
module RsaCards {

  import opened Wrappers
  import opened JsNumber
  import opened Ccall
  import opened RsaFormats

  const NotLoaded := "WebAssembly not loaded yet"
  const ValuesInvalid := "All values must be valid integers"
  const PNotPrime := "p must be a prime number"
  const QNotPrime := "q must be a prime number"
  const EInvalid := "e must be coprime to lambda and between 3 and lambda-1"
  const KeyRequired := "Public key (e, n) is required"
  const MessageTooLarge := "Plaintext value must be less than n"
  const DecryptInputsRequired := "Ciphertext, d, and n are required"
  const DecryptionFailed := "Decryption failed"

  /** The functions of the compiled module that key generation calls, each
      returning a number; a result of 0 is falsy. */
  datatype RsaModule = RsaModule(
    isPrime: int -> int,
    calculateN: (int, int) -> int,
    calculateLambda: (int, int) -> int,
    validateE: (int, int) -> int,
    calculateD: (int, int) -> int)

  // ---------------------------------------------------------------------
  // Key generation

  datatype KeyView = KeyView(p: string, q: string, e: string, n: string, d: string, lambda: string, error: string)

  /** p, q and e as `parseInt` reads them, when all three parse. */
  function KeyInputs(v: KeyView): (r: Option<(int, int, int)>)
    ensures r.Some? <==> ParseInt(v.p, 0).Some? && ParseInt(v.q, 0).Some? && ParseInt(v.e, 0).Some?
  {
    match (ParseInt(v.p, 0), ParseInt(v.q, 0), ParseInt(v.e, 0))
    case (Some(p), Some(q), Some(e)) => Some((p, q, e))
    case _ => None
  }

  /** The Calculate handler. */
  function KeyGen(v: KeyView, ready: bool, m: RsaModule): (w: KeyView)
    ensures w.p == v.p && w.q == v.q && w.e == v.e
    ensures !ready ==> w == v.(error := NotLoaded)
    ensures ready && KeyInputs(v).None? ==> w == v.(error := ValuesInvalid)
    // p is checked before q, and both before e
    ensures ready && KeyInputs(v).Some? && m.isPrime(KeyInputs(v).value.0) == 0 ==> w.error == PNotPrime
    ensures ready && KeyInputs(v).Some? && m.isPrime(KeyInputs(v).value.0) != 0 ==>
      m.isPrime(KeyInputs(v).value.1) == 0 ==> w.error == QNotPrime
    ensures ready && KeyInputs(v).Some? ==>
      var (p, q, e) := KeyInputs(v).value;
      m.isPrime(p) != 0 && m.isPrime(q) != 0 && m.validateE(e, m.calculateLambda(p, q)) == 0 ==>
      w.error == EInvalid
    // the key is shown exactly when every check passed, with the module's values
    ensures w.error == "" <==>
      ready && KeyInputs(v).Some? &&
      var (p, q, e) := KeyInputs(v).value;
      m.isPrime(p) != 0 && m.isPrime(q) != 0 && m.validateE(e, m.calculateLambda(p, q)) != 0
    ensures w.error == "" ==>
      var (p, q, e) := KeyInputs(v).value;
      var lambda := m.calculateLambda(p, q);
      w.n == DecimalString(m.calculateN(p, q)) && w.lambda == DecimalString(lambda) &&
      w.d == DecimalString(m.calculateD(e, lambda))
    // a failed check leaves the previous key on display
    ensures w.error != "" ==> w.n == v.n && w.d == v.d && w.lambda == v.lambda
  {
    if !ready then v.(error := NotLoaded)
    else
      match KeyInputs(v)
      case None => v.(error := ValuesInvalid)
      case Some((p, q, e)) =>
        if m.isPrime(p) == 0 then v.(error := PNotPrime)
        else if m.isPrime(q) == 0 then v.(error := QNotPrime)
        else
          var lambda := m.calculateLambda(p, q);
          if m.validateE(e, lambda) == 0 then v.(error := EInvalid)
          else v.(n := DecimalString(m.calculateN(p, q)), d := DecimalString(m.calculateD(e, lambda)),
                  lambda := DecimalString(lambda), error := "")
  }

  /** An unparsable p, q or e is reported before the module is asked
      anything: the outcome does not depend on the module at all. */
  lemma KeyGenParsesFirst(v: KeyView, ready: bool, m1: RsaModule, m2: RsaModule)
    requires KeyInputs(v).None?
    ensures KeyGen(v, ready, m1) == KeyGen(v, ready, m2)
  {
  }

  // ---------------------------------------------------------------------
  // Encryption

  datatype EncryptView = EncryptView(
    e: string, n: string, m: string, ciphertext: string, error: string,
    inputFormat: Format, outputFormat: Format)

  /** The outcome of a BigInt expression: a value, or the RangeError it
      throws, with the message text V8 gives it. */
  datatype BigIntResult = Big(value: int) | RangeError(message: string)

  const NegativeExponent := "RangeError: Exponent must be non-negative"
  const DivisionByZero := "RangeError: Division by zero"

  /** `BigInt(m) ** BigInt(e) % BigInt(n)`: the power is evaluated first and
      throws on a negative exponent; the remainder throws on a zero modulus. */
  function ModPow(m: int, e: int, n: int): (r: BigIntResult)
    ensures r.Big? <==> e >= 0 && n != 0
    ensures e < 0 ==> r == RangeError(NegativeExponent)
    ensures e >= 0 && n == 0 ==> r == RangeError(DivisionByZero)
    // for a message representative in [0, n) this is the RSA encryption
    // primitive RSAEP of section 5.1.1 of RFC 8017: m^e mod n, in [0, n)
    ensures 0 <= m && e >= 0 && n > 0 ==> r == Big(Pow(m, e) % n) && 0 <= r.value < n
  {
    if e < 0 then RangeError(NegativeExponent)
    else if n == 0 then RangeError(DivisionByZero)
    else
      PowNonNegative(m, e);
      Big(TruncRem(Pow(m, e), n))
  }

  /** e, n and m as the handler reads them, when all three are numbers. */
  function EncryptInputs(v: EncryptView): (r: Option<(int, int, int)>)
    ensures r.Some? <==>
      ParseInt(v.e, 0).Some? && ParseInt(v.n, 0).Some? && ConvertInputToDecimal(v.m, v.inputFormat).Num?
  {
    match (ParseInt(v.e, 0), ParseInt(v.n, 0), ConvertInputToDecimal(v.m, v.inputFormat))
    case (Some(e), Some(n), Num(m)) => Some((e, n, m))
    case _ => None
  }

  /** The encryption guards in order; the first that fails gives the error. */
  function EncryptCheck(v: EncryptView, ready: bool): (r: Option<string>)
    ensures !ready ==> r == Some(NotLoaded)
    ensures ready && (v.e == "" || v.n == "") ==> r == Some(KeyRequired)
    ensures ready && v.e != "" && v.n != "" && EncryptInputs(v).None? ==> r == Some(ValuesInvalid)
    ensures ready && v.e != "" && v.n != "" && EncryptInputs(v).Some? ==>
      EncryptInputs(v).value.2 >= EncryptInputs(v).value.1 ==> r == Some(MessageTooLarge)
    // only a message smaller than the modulus gets through; a negative one does
    ensures r.None? <==>
      ready && v.e != "" && v.n != "" && EncryptInputs(v).Some? &&
      EncryptInputs(v).value.2 < EncryptInputs(v).value.1
  {
    if !ready then Some(NotLoaded)
    else if v.e == "" || v.n == "" then Some(KeyRequired)
    else
      match EncryptInputs(v)
      case None => Some(ValuesInvalid)
      case Some((e, n, m)) => if m >= n then Some(MessageTooLarge) else None
  }

  /** The Encrypt handler. */
  function Encrypt(v: EncryptView, ready: bool): (w: EncryptView)
    ensures w.e == v.e && w.n == v.n && w.m == v.m
    ensures w.inputFormat == v.inputFormat && w.outputFormat == v.outputFormat
    ensures EncryptCheck(v, ready).Some? ==> w == v.(error := EncryptCheck(v, ready).value)
    ensures EncryptCheck(v, ready).None? ==>
      var (e, n, m) := EncryptInputs(v).value;
      && (w.error == "" <==> e >= 0 && n != 0)
      && (w.error == "" ==> w.ciphertext == DecimalToOutput(DecimalString(ModPow(m, e, n).value), v.outputFormat))
      && (w.error != "" ==> w.ciphertext == "" && w.error == "Error encrypting: " + ModPow(m, e, n).message)
  {
    match EncryptCheck(v, ready)
    case Some(problem) => v.(error := problem)
    case None =>
      var (e, n, m) := EncryptInputs(v).value;
      match ModPow(m, e, n)
      case Big(c) => v.(ciphertext := DecimalToOutput(DecimalString(c), v.outputFormat), error := "")
      case RangeError(message) => v.(error := "Error encrypting: " + message, ciphertext := "")
  }

  /** Encrypting a message representative 0 <= m < n with e >= 0, all typed
      in decimal, shows m^e mod n: the ciphertext read back in the output
      format is exactly that value. */
  lemma EncryptComputesRsaep(m: int, e: int, n: int, out: Format, c0: string, err0: string)
    requires 0 <= m < n && e >= 0
    requires out == Decimal || out == Hex || out == Binary
    ensures var w := Encrypt(EncryptView(DecimalString(e), DecimalString(n), DecimalString(m), c0, err0, Decimal, out), true);
      w.error == "" && ConvertInputToDecimal(w.ciphertext, out) == Num(Pow(m, e) % n)
  {
    var v := EncryptView(DecimalString(e), DecimalString(n), DecimalString(m), c0, err0, Decimal, out);
    ParseToRadixString(e, 0);
    ParseToRadixString(n, 0);
    ParseToRadixString(m, 0);
    assert EncryptInputs(v) == Some((e, n, m));
    assert EncryptCheck(v, true).None?;
    assert ModPow(m, e, n) == Big(Pow(m, e) % n);
    OutputReadsBack(Pow(m, e) % n, out);
  }

  /** A negative message is not refused: -2 with e = 1 and n = 5 gives the
      "ciphertext" -2, outside [0, n). */
  lemma NegativeMessageAccepted()
    ensures var w := Encrypt(EncryptView("1", "5", "-2", "", "", Decimal, Decimal), true);
      w.error == "" && w.ciphertext == "-2"
  {
    assert DecimalString(1) == "1" && DecimalString(5) == "5" && DecimalString(-2) == "-2";
    ParseToRadixString(1, 0);
    ParseToRadixString(5, 0);
    ParseToRadixString(-2, 0);
  }

  // ---------------------------------------------------------------------
  // Decryption

  datatype DecryptView = DecryptView(
    c: string, d: string, n: string, plaintext: string, error: string,
    inputFormat: Format, outputFormat: Format)

  /** c, d and n as the handler reads them, when all three are numbers. */
  function DecryptInputs(v: DecryptView): (r: Option<(int, int, int)>)
    ensures r.Some? <==>
      ConvertInputToDecimal(v.c, v.inputFormat).Num? && ParseInt(v.d, 0).Some? && ParseInt(v.n, 0).Some?
  {
    match (ConvertInputToDecimal(v.c, v.inputFormat), ParseInt(v.d, 0), ParseInt(v.n, 0))
    case (Num(c), Some(d), Some(n)) => Some((c, d, n))
    case _ => None
  }

  /** The decryption guards in order. */
  function DecryptCheck(v: DecryptView, ready: bool): (r: Option<string>)
    ensures !ready ==> r == Some(NotLoaded)
    ensures ready && (v.c == "" || v.d == "" || v.n == "") ==> r == Some(DecryptInputsRequired)
    ensures ready && v.c != "" && v.d != "" && v.n != "" && DecryptInputs(v).None? ==> r == Some(ValuesInvalid)
    ensures r.None? <==> ready && v.c != "" && v.d != "" && v.n != "" && DecryptInputs(v).Some?
  {
    if !ready then Some(NotLoaded)
    else if v.c == "" || v.d == "" || v.n == "" then Some(DecryptInputsRequired)
    else if DecryptInputs(v).None? then Some(ValuesInvalid)
    else None
  }

  /** The Decrypt handler, given the module's `rsa_decrypt`. */
  function Decrypt(v: DecryptView, ready: bool, rsaDecrypt: (int, int, int) -> CallResult): (w: DecryptView)
    ensures w.c == v.c && w.d == v.d && w.n == v.n
    ensures w.inputFormat == v.inputFormat && w.outputFormat == v.outputFormat
    ensures DecryptCheck(v, ready).Some? ==> w == v.(error := DecryptCheck(v, ready).value)
    // an "ERROR" or empty result is a failure; any other is shown in the output format
    ensures DecryptCheck(v, ready).None? ==>
      var (c, d, n) := DecryptInputs(v).value;
      var result := rsaDecrypt(c, d, n);
      && (w.error == "" <==> result.Returned? && result.value != "ERROR" && result.value != "")
      && (w.error == "" ==> w.plaintext == DecimalToOutput(result.value, v.outputFormat))
      && (w.error != "" ==> w.plaintext == "")
      && (result == Returned("ERROR") || result == Returned("") ==> w.error == DecryptionFailed)
      && (result.Threw? ==> w.error == "Error decrypting: " + result.message)
  {
    match DecryptCheck(v, ready)
    case Some(problem) => v.(error := problem)
    case None =>
      var (c, d, n) := DecryptInputs(v).value;
      match rsaDecrypt(c, d, n)
      case Returned(r) =>
        if r == "ERROR" || r == "" then v.(error := DecryptionFailed, plaintext := "")
        else v.(plaintext := DecimalToOutput(r, v.outputFormat), error := "")
      case Threw(message) => v.(error := "Error decrypting: " + message, plaintext := "")
  }

  /** A refused decryption never reaches the module. */
  lemma DecryptChecksFirst(v: DecryptView, ready: bool, f: (int, int, int) -> CallResult, g: (int, int, int) -> CallResult)
    requires DecryptCheck(v, ready).Some?
    ensures Decrypt(v, ready, f) == Decrypt(v, ready, g)
  {
  }

  // ---------------------------------------------------------------------
  // The cards as components holding state

  class KeyGenerationCard {
    var p: string
    var q: string
    var e: string
    var n: string
    var d: string
    var lambda: string
    var error: string

    function View(): KeyView
      reads this
    {
      KeyView(p, q, e, n, d, lambda, error)
    }

    constructor()
      ensures View() == KeyView("61", "53", "17", "", "", "", "")
    {
      p, q, e, n, d, lambda, error := "61", "53", "17", "", "", "", "";
    }

    method HandleCalculate(ready: bool, m: RsaModule)
      modifies this
      ensures View() == KeyGen(old(View()), ready, m)
    {
      if !ready {
        error := NotLoaded;
        return;
      }
      var pVal, qVal, eVal := ParseInt(p, 0), ParseInt(q, 0), ParseInt(e, 0);
      if pVal.None? || qVal.None? || eVal.None? {
        error := ValuesInvalid;
        return;
      }
      var pValid := m.isPrime(pVal.value);
      var qValid := m.isPrime(qVal.value);
      if pValid == 0 {
        error := PNotPrime;
        return;
      }
      if qValid == 0 {
        error := QNotPrime;
        return;
      }
      var nVal := m.calculateN(pVal.value, qVal.value);
      var lambdaVal := m.calculateLambda(pVal.value, qVal.value);
      var eValid := m.validateE(eVal.value, lambdaVal);
      if eValid == 0 {
        error := EInvalid;
        return;
      }
      var dVal := m.calculateD(eVal.value, lambdaVal);
      n := DecimalString(nVal);
      d := DecimalString(dVal);
      lambda := DecimalString(lambdaVal);
      error := "";
    }
  }

  class EncryptionCard {
    var e: string
    var n: string
    var m: string
    var ciphertext: string
    var error: string
    var inputFormat: Format
    var outputFormat: Format

    function View(): EncryptView
      reads this
    {
      EncryptView(e, n, m, ciphertext, error, inputFormat, outputFormat)
    }

    constructor()
      ensures View() == EncryptView("17", "3233", "10", "", "", Decimal, Decimal)
    {
      e, n, m, ciphertext, error := "17", "3233", "10", "", "";
      inputFormat, outputFormat := Decimal, Decimal;
    }

    /** Choosing an input format clears the message. */
    method SelectInputFormat(format: Format)
      modifies this
      ensures View() == old(View()).(inputFormat := format, m := "")
    {
      inputFormat := format;
      m := "";
    }

    method SelectOutputFormat(format: Format)
      modifies this
      ensures View() == old(View()).(outputFormat := format)
    {
      outputFormat := format;
    }

    method HandleEncrypt(ready: bool)
      modifies this
      ensures View() == Encrypt(old(View()), ready)
    {
      if !ready {
        error := NotLoaded;
        return;
      }
      if e == "" || n == "" {
        error := KeyRequired;
        return;
      }
      var eVal, nVal, mVal := ParseInt(e, 0), ParseInt(n, 0), ConvertInputToDecimal(m, inputFormat);
      if eVal.None? || nVal.None? || !mVal.Num? {
        error := ValuesInvalid;
        return;
      }
      if mVal.value >= nVal.value {
        error := MessageTooLarge;
        return;
      }
      match ModPow(mVal.value, eVal.value, nVal.value)
      case Big(c) =>
        var formatted := ConvertDecimalToOutput(DecimalString(c), outputFormat);
        ciphertext := formatted;
        error := "";
      case RangeError(message) =>
        error := "Error encrypting: " + message;
        ciphertext := "";
    }
  }

  class DecryptionCard {
    var c: string
    var d: string
    var n: string
    var plaintext: string
    var error: string
    var inputFormat: Format
    var outputFormat: Format

    function View(): DecryptView
      reads this
    {
      DecryptView(c, d, n, plaintext, error, inputFormat, outputFormat)
    }

    constructor()
      ensures View() == DecryptView("", "", "", "", "", Decimal, Decimal)
    {
      c, d, n, plaintext, error := "", "", "", "", "";
      inputFormat, outputFormat := Decimal, Decimal;
    }

    /** Choosing an input format clears the ciphertext. */
    method SelectInputFormat(format: Format)
      modifies this
      ensures View() == old(View()).(inputFormat := format, c := "")
    {
      inputFormat := format;
      c := "";
    }

    method SelectOutputFormat(format: Format)
      modifies this
      ensures View() == old(View()).(outputFormat := format)
    {
      outputFormat := format;
    }

    method HandleDecrypt(ready: bool, rsaDecrypt: (int, int, int) -> CallResult)
      modifies this
      ensures View() == Decrypt(old(View()), ready, rsaDecrypt)
    {
      if !ready {
        error := NotLoaded;
        return;
      }
      if c == "" || d == "" || n == "" {
        error := DecryptInputsRequired;
        return;
      }
      var cVal, dVal, nVal := ConvertInputToDecimal(c, inputFormat), ParseInt(d, 0), ParseInt(n, 0);
      if !cVal.Num? || dVal.None? || nVal.None? {
        error := ValuesInvalid;
        return;
      }
      match rsaDecrypt(cVal.value, dVal.value, nVal.value)
      case Returned(r) =>
        if r == "ERROR" || r == "" {
          error := DecryptionFailed;
          plaintext := "";
        } else {
          var formatted := ConvertDecimalToOutput(r, outputFormat);
          plaintext := formatted;
          error := "";
        }
      case Threw(message) =>
        error := "Error decrypting: " + message;
        plaintext := "";
    }
  }
}
