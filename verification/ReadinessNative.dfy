/** The native side of the readiness records: the epoch it writes and reads, and its check of a READY record. */
module ReadinessNative {
  import opened Basics
  import opened Readiness
  import Decimal

  // ---------------------------------------------------------------- base64url

  function Symbol(n: nat): (c: char)
    requires n < 64
    ensures InAlphabet(c)
  {
    if n < 26 then 'A' + n as char
    else if n < 52 then 'a' + (n - 26) as char
    else if n < 62 then '0' + (n - 52) as char
    else if n == 62 then '-' else '_'
  }

  function SymbolValue(c: char): (n: nat)
    requires InAlphabet(c)
    ensures n < 64
  {
    if 'A' <= c <= 'Z' then c as int - 'A' as int
    else if 'a' <= c <= 'z' then c as int - 'a' as int + 26
    else if '0' <= c <= '9' then c as int - '0' as int + 52
    else if c == '-' then 62 else 63
  }

  lemma SymbolRead(n: nat)
    requires n < 64
    ensures SymbolValue(Symbol(n)) == n
  {
  }

  /** The order of Table 2 of RFC 4648: capitals, small letters, digits, minus, underline. */
  lemma SymbolOrder(n: nat)
    requires n < 63 && n !in {25, 51, 61, 62}
    ensures Symbol(0) == 'A' && Symbol(26) == 'a' && Symbol(52) == '0' && Symbol(62) == '-' && Symbol(63) == '_'
    ensures Symbol(n + 1) as int == Symbol(n) as int + 1
  {
  }

  function Word(a: byte, b: byte, c: byte): (v: nat)
    ensures v < 0x100_0000
  {
    a as int * 0x1_0000 + b as int * 0x100 + c as int
  }

  function Quad(v: nat): (s: string)
    requires v < 0x100_0000
    ensures |s| == 4 && AllInAlphabet(s)
  {
    [Symbol(v / 64 / 64 / 64), Symbol(v / 64 / 64 % 64), Symbol(v / 64 % 64), Symbol(v % 64)]
  }

  /** Unpadded base64url, section 5 of RFC 4648, for whole triples and a last pair. */
  function Encode(x: seq<byte>): string {
    if |x| < 2 then ""
    else if |x| == 2 then Quad(Word(x[0], x[1], 0))[..3]
    else Quad(Word(x[0], x[1], x[2])) + Encode(x[3..])
  }

  function Unquad(s: string): (v: nat)
    requires |s| == 4 && AllInAlphabet(s)
    ensures v < 0x100_0000
  {
    SymbolValue(s[0]) * 0x4_0000 + SymbolValue(s[1]) * 0x1000 + SymbolValue(s[2]) * 64 + SymbolValue(s[3])
  }

  function Decode(s: string): seq<byte>
    requires AllInAlphabet(s)
  {
    if |s| < 3 then []
    else if |s| == 3 then
      var v := Unquad(s + "A");
      [v / 0x100 / 0x100, v / 0x100 % 0x100]
    else
      var v := Unquad(s[..4]);
      [v / 0x100 / 0x100, v / 0x100 % 0x100, v % 0x100] + Decode(s[4..])
  }

  lemma UnquadQuad(v: nat)
    requires v < 0x100_0000
    ensures Unquad(Quad(v)) == v
  {
    SymbolRead(v / 64 / 64 / 64);
    SymbolRead(v / 64 / 64 % 64);
    SymbolRead(v / 64 % 64);
    SymbolRead(v % 64);
    hide Symbol, SymbolValue;
  }

  lemma WordBytes(a: byte, b: byte, c: byte)
    ensures var v := Word(a, b, c); v / 0x100 / 0x100 == a && v / 0x100 % 0x100 == b && v % 0x100 == c
  {
  }

  /** Encoding stays in the alphabet, has the expected length, and can be undone. */
  lemma {:induction false} DecodeEncode(x: seq<byte>)
    requires |x| % 3 == 2
    ensures AllInAlphabet(Encode(x)) && |Encode(x)| == |x| / 3 * 4 + 3 && Decode(Encode(x)) == x
  {
    hide Quad, Unquad, Word;
    if |x| == 2 {
      var v := Word(x[0], x[1], 0);
      PairPadded(x[0], x[1]);
      UnquadQuad(v);
      WordBytes(x[0], x[1], 0);
      assert Quad(v)[..3] + "A" == Quad(v);
    } else {
      var v := Word(x[0], x[1], x[2]);
      DecodeEncode(x[3..]);
      UnquadQuad(v);
      WordBytes(x[0], x[1], x[2]);
      var s := Encode(x);
      assert s[..4] == Quad(v) && s[4..] == Encode(x[3..]);
      assert x == [x[0], x[1], x[2]] + x[3..];
    }
  }

  /** Bytes read as one number, continuing from `high`. */
  function ReadBytes(high: nat, x: seq<byte>): nat
    decreases |x|
  {
    if x == [] then high else ReadBytes(high * 256 + x[0] as int, x[1..])
  }

  /** Text read as one number by its places in the alphabet, continuing from `high`. */
  function ReadDigits(high: nat, s: string): nat
    requires AllInAlphabet(s)
    decreases |s|
  {
    if s == "" then high else ReadDigits(high * 64 + SymbolValue(s[0]), s[1..])
  }

  lemma ReadTwo(high: nat, x: seq<byte>)
    requires |x| >= 2
    ensures ReadBytes(high, x) == ReadBytes((high * 256 + x[0] as int) * 256 + x[1] as int, x[2..])
  {
    assert x[1..][1..] == x[2..] && x[1..][0] == x[1];
    assert ReadBytes(high, x) == ReadBytes(high * 256 + x[0] as int, x[1..]);
  }

  lemma ReadThree(high: nat, x: seq<byte>)
    requires |x| >= 3
    ensures ReadBytes(high, x) == ReadBytes(high * 0x100_0000 + Word(x[0], x[1], x[2]), x[3..])
  {
    hide Word;
    ReadTwo(high, x);
    WordIs(x[0], x[1], x[2]);
    assert x[2..][1..] == x[3..] && x[2..][0] == x[2];
    var two := (high * 256 + x[0] as int) * 256 + x[1] as int;
    assert ReadBytes(two, x[2..]) == ReadBytes(two * 256 + x[2] as int, x[3..]);
  }

  lemma WordIs(a: byte, b: byte, c: byte)
    ensures Word(a, b, c) == a as int * 0x1_0000 + b as int * 0x100 + c as int
  {
  }

  lemma ReadTwoDigits(high: nat, s: string)
    requires |s| >= 2 && AllInAlphabet(s)
    ensures AllInAlphabet(s[2..])
    ensures ReadDigits(high, s) == ReadDigits((high * 64 + SymbolValue(s[0])) * 64 + SymbolValue(s[1]), s[2..])
  {
    hide SymbolValue;
    assert s[1..][1..] == s[2..] && s[1..][0] == s[1];
    assert ReadDigits(high, s) == ReadDigits(high * 64 + SymbolValue(s[0]), s[1..]);
  }

  lemma ReadFour(high: nat, s: string)
    requires |s| >= 4 && AllInAlphabet(s)
    ensures AllInAlphabet(s[..4]) && AllInAlphabet(s[4..])
    ensures ReadDigits(high, s) == ReadDigits(high * 0x100_0000 + Unquad(s[..4]), s[4..])
  {
    hide SymbolValue, ReadDigits;
    ReadTwoDigits(high, s);
    ReadTwoDigits((high * 64 + SymbolValue(s[0])) * 64 + SymbolValue(s[1]), s[2..]);
    assert s[2..][2..] == s[4..];
  }

  lemma ThreeDigits(v: nat)
    ensures (v / 64 / 64 / 64 * 64 + v / 64 / 64 % 64) * 64 + v / 64 % 64 == v / 64
  {
  }

  lemma ReadThreeDigits(high: nat, s: string)
    requires |s| == 3 && AllInAlphabet(s)
    ensures ReadDigits(high, s) == high * 0x4_0000 + ((SymbolValue(s[0]) * 64 + SymbolValue(s[1])) * 64 + SymbolValue(s[2]))
  {
    hide SymbolValue;
    ReadTwoDigits(high, s);
    var two := (high * 64 + SymbolValue(s[0])) * 64 + SymbolValue(s[1]);
    assert s[2..][0] == s[2] && s[2..][1..] == "";
    assert ReadDigits(two, s[2..]) == ReadDigits(two * 64 + SymbolValue(s[2]), "");
  }

  lemma ReadPair(high: nat, a: byte, b: byte)
    ensures AllInAlphabet(Quad(Word(a, b, 0))[..3])
    ensures ReadDigits(high, Quad(Word(a, b, 0))[..3]) == ReadBytes(high, [a, b]) * 4
  {
    hide Symbol, SymbolValue, ReadDigits, Word;
    var v := Word(a, b, 0);
    SymbolRead(v / 64 / 64 / 64);
    SymbolRead(v / 64 / 64 % 64);
    SymbolRead(v / 64 % 64);
    ThreeDigits(v);
    ReadThreeDigits(high, Quad(v)[..3]);
    PairBits(a, b);
    ReadTwo(high, [a, b]);
    assert [a, b][2..] == [];
  }

  lemma PairBits(a: byte, b: byte)
    ensures Word(a, b, 0) / 64 == (a as int * 256 + b as int) * 4
  {
    assert Word(a, b, 0) == 64 * ((a as int * 256 + b as int) * 4);
  }

  /** Base64url writes the same number: its symbols, by their places in the alphabet, are the bits of the bytes. */
  lemma {:induction false} SameNumber(high: nat, x: seq<byte>)
    requires |x| % 3 == 2
    ensures AllInAlphabet(Encode(x)) && ReadDigits(high, Encode(x)) == ReadBytes(high, x) * 4
    decreases |x|
  {
    hide Quad, Unquad, Word, ReadDigits, ReadBytes;
    if |x| == 2 {
      ReadPair(high, x[0], x[1]);
      assert x == [x[0], x[1]];
    } else {
      var v, s := Word(x[0], x[1], x[2]), Encode(x);
      SameNumber(high * 0x100_0000 + v, x[3..]);
      assert s[..4] == Quad(v) && s[4..] == Encode(x[3..]);
      ReadThree(high, x);
      ReadFour(high, s);
      UnquadQuad(v);
    }
  }

  lemma PairPadded(a: byte, b: byte)
    ensures Quad(Word(a, b, 0))[3] == 'A'
  {
    WholeSextets(a, b);
    hide Word;
  }

  lemma WholeSextets(a: byte, b: byte)
    ensures Word(a, b, 0) % 64 == 0
  {
    assert Word(a, b, 0) == 64 * (a as int * 1024 + b as int * 4);
  }

  /** The first `count` symbols of one word, behind what is already written. */
  method WriteSymbols(output: array<char>, at: nat, value: nat, count: nat)
    requires value < 0x100_0000 && 3 <= count <= 4 && at + count <= output.Length
    modifies output
    ensures output[..at + count] == old(output[..at]) + Quad(value)[..count]
  {
    hide Symbol;
    output[at] := Symbol(value / 64 / 64 / 64);
    output[at + 1] := Symbol(value / 64 / 64 % 64);
    output[at + 2] := Symbol(value / 64 % 64);
    if count == 4 {
      output[at + 3] := Symbol(value % 64);
    }
  }

  /** Fills the output buffer four characters at a time, then three. */
  method Base64Url(input: array<byte>, output: array<char>)
    requires input.Length == 32 && output.Length == 44
    modifies output
    ensures output[..43] == Encode(input[..]) && output[43] == '\0'
  {
    hide Quad, Word, Encode;
    var source, destination := 0, 0;
    ghost var words := 0;
    assert output[..0] + Encode(input[0..]) == Encode(input[..]);
    while source + 3 <= 32
      invariant words <= 10 && source == 3 * words && destination == 4 * words
      invariant Encode(input[..]) == output[..destination] + Encode(input[source..])
    {
      var value := Word(input[source], input[source + 1], input[source + 2]);
      ghost var before := output[..destination];
      EncodeTriple(input[source..]);
      assert input[source..][3..] == input[source + 3..];
      WriteSymbols(output, destination, value, 4);
      assert Quad(value)[..4] == Quad(value);
      assert before + (Quad(value) + Encode(input[source + 3..])) == (before + Quad(value)) + Encode(input[source + 3..]);
      destination, source, words := destination + 4, source + 3, words + 1;
    }
    EncodePair(input[30..]);
    WriteSymbols(output, destination, Word(input[30], input[31], 0), 3);
    ghost var written := output[..43];
    output[43] := '\0';
    assert output[..43] == written;
  }

  lemma EncodeTriple(x: seq<byte>)
    requires |x| > 2
    ensures Encode(x) == Quad(Word(x[0], x[1], x[2])) + Encode(x[3..])
  {
  }

  lemma EncodePair(x: seq<byte>)
    requires |x| == 2
    ensures Encode(x) == Quad(Word(x[0], x[1], 0))[..3]
  {
  }

  // ---------------------------------------------------------------- the epoch record

  /** What `prepare` writes for 32 random bytes. */
  function WrittenEpoch(random: seq<byte>): seq<byte> {
    ToBytes(EpochRecord("ar1-" + Encode(random)))
  }

  /** The bytes of a C string end before its first NUL. */
  function CString(s: string): string {
    if s == "" || s[0] == '\0' then "" else [s[0]] + CString(s[1..])
  }

  lemma {:induction false} WholeCString(s: string)
    requires '\0' !in s
    ensures CString(s) == s
  {
    if s != "" {
      assert s[0] in s && forall c :: c in s[1..] ==> c in s;
      WholeCString(s[1..]);
    }
  }

  lemma {:induction false} FullCString(s: string)
    ensures |CString(s)| <= |s| && (|CString(s)| == |s| ==> CString(s) == s)
  {
    if s != "" && s[0] != '\0' {
      FullCString(s[1..]);
    }
  }

  /** `read_epoch`, given the bytes read: the instance is what its callers find up to the first NUL. */
  function ReadEpoch(bytes: seq<byte>): Option<string> {
    var record := Raw(bytes);
    if |record| == EPOCH_BYTES && record[..46] == EpochHeader() + "\ninstance=ar1-" && record[89] == '\n'
    then Some(CString(record[42..89])) else None
  }

  /** The native reader takes a well-formed instance exactly from the printed epoch. */
  lemma ReadEpochIff(bytes: seq<byte>, instance: string)
    ensures ReadEpoch(bytes) == Some(instance) && IsInstance(instance) <==> IsInstance(instance) && Raw(bytes) == EpochRecord(instance)
  {
    EpochShape(instance);
    assert |EpochHeader()| == 32;
    hide EpochHeader, EpochRecord, Raw, CString, AllInAlphabet;
    EpochFields(Raw(bytes), EpochHeader(), instance);
    if IsInstance(instance) {
      InstancePlain(instance);
      PlainOneLine(instance);
      WholeCString(instance);
      if |Raw(bytes)| == EPOCH_BYTES { FullCString(Raw(bytes)[42..89]); }
    }
  }

  /** A record of 90 characters, cut at the three positions the native reader looks at. */
  lemma EpochFields(record: string, header: string, instance: string)
    requires |header| == 32
    ensures |record| == EPOCH_BYTES && record[..46] == header + "\ninstance=ar1-" && record[89] == '\n' && record[42..89] == instance
            <==> |instance| == 47 && instance[..4] == "ar1-" && record == header + "\ninstance=" + instance + "\n"
  {
    var head := header + "\ninstance=";
    assert header + "\ninstance=ar1-" == head + "ar1-";
    if |instance| == 47 && instance[..4] == "ar1-" && record == head + instance + "\n" {
      assert record[..46] == head + instance[..4];
      assert record[42..89] == instance;
    }
    if |record| == EPOCH_BYTES && record[..46] == head + "ar1-" && record[89] == '\n' && record[42..89] == instance {
      FieldsJoined(record, head, instance);
    }
  }

  lemma FieldsJoined(record: string, head: string, instance: string)
    requires |head| == 42 && |record| == EPOCH_BYTES && record[..46] == head + "ar1-" && record[89] == '\n' && record[42..89] == instance
    ensures instance[..4] == "ar1-" && record == head + instance + "\n"
  {
    forall k | 0 <= k < 4 ensures instance[k] == "ar1-"[k] { assert record[..46][42 + k] == (head + "ar1-")[42 + k]; }
    forall k | 0 <= k < 42 ensures record[k] == head[k] { assert record[..46][k] == (head + "ar1-")[k]; }
  }

  /**
   * Both readers take the same well-formed instance exactly when no byte has its high bit set: where
   * one is, the TypeScript reader masks it and the native one does not.
   */
  lemma EpochReadersAgree(bytes: seq<byte>, instance: string)
    ensures ReadEpoch(bytes) == Some(instance) && IsInstance(instance) <==> ParseEpoch(bytes) == Ok(instance) && SevenBit(bytes)
  {
    ParseEpochIff(bytes, instance);
    ReadEpochIff(bytes, instance);
    SameTextIff(bytes);
    if IsInstance(instance) { EpochLines(instance); }
    hide Ascii, Raw, SevenBit, ParseEpoch, ReadEpoch, EpochRecord, IsInstance, AllInAlphabet;
  }

  /** The same bytes but for one high bit. */
  function Raised(bytes: seq<byte>, k: nat): seq<byte>
    requires k < |bytes| && bytes[k] < 128
  {
    bytes[k := bytes[k] + 128]
  }

  lemma RaisedMasks(bytes: seq<byte>, k: nat)
    requires k < |bytes| && bytes[k] < 128
    ensures Ascii(Raised(bytes, k)) == Ascii(bytes) && !SevenBit(Raised(bytes, k))
  {
    assert Raised(bytes, k)[k] >= 128;
  }

  /** One high bit anywhere in an epoch: TypeScript still reads the instance, and the native side does not. */
  lemma RaisedEpochSplitsReaders(bytes: seq<byte>, instance: string, k: nat)
    requires SevenBit(bytes) && ParseEpoch(bytes) == Ok(instance) && k < |bytes|
    ensures ParseEpoch(Raised(bytes, k)) == Ok(instance) && ReadEpoch(Raised(bytes, k)) != Some(instance)
  {
    RaisedMasks(bytes, k);
    ParseEpochIff(bytes, instance);
    ParseEpochIff(Raised(bytes, k), instance);
    EpochReadersAgree(Raised(bytes, k), instance);
    hide Ascii, Raw, ParseEpoch, ReadEpoch, EpochRecord;
  }

  lemma EpochShape(instance: string)
    ensures EpochRecord(instance) == EpochHeader() + "\ninstance=" + instance + "\n"
  {
    hide EpochHeader;
    var lines := [EpochHeader(), "instance=" + instance];
    assert lines[1..] == ["instance=" + instance] && lines[1..][1..] == [];
    assert Text(lines[1..]) == "instance=" + instance + "\n";
    assert "\n" + "instance=" == "\ninstance=";
  }

  lemma InstanceOf(encoded: string)
    requires |encoded| == 43 && AllInAlphabet(encoded)
    ensures IsInstance("ar1-" + encoded) && ("ar1-" + encoded)[4..] == encoded && AllInAlphabet("ar1-" + encoded)
  {
  }

  /** The bytes of a printed epoch are read back by both sides. */
  lemma PrintedEpochRead(instance: string)
    requires IsInstance(instance)
    ensures var bytes := ToBytes(EpochRecord(instance));
            |bytes| == EPOCH_BYTES && ParseEpoch(bytes) == Ok(instance) && ReadEpoch(bytes) == Some(instance)
  {
    EpochLines(instance);
    ReadBack(EpochRecord(instance));
    hide Split, IsInstance, EpochHeader, EpochRecord, ParseEpoch, ReadEpoch, ToBytes, Ascii, Raw, SevenBit, SevenBitText;
    ParseEpochIff(ToBytes(EpochRecord(instance)), instance);
    EpochReadersAgree(ToBytes(EpochRecord(instance)), instance);
  }

  /** A written epoch has 90 bytes, and both readers take the same instance from it, which still holds the random bytes. */
  lemma WrittenEpochAccepted(random: seq<byte>)
    requires |random| == 32
    ensures var instance := "ar1-" + Encode(random);
            && |WrittenEpoch(random)| == EPOCH_BYTES && IsInstance(instance)
            && ParseEpoch(WrittenEpoch(random)) == Ok(instance) && ReadEpoch(WrittenEpoch(random)) == Some(instance)
            && AllInAlphabet(instance[4..]) && Decode(instance[4..]) == random
  {
    DecodeEncode(random);
    InstanceOf(Encode(random));
    hide Encode, Decode, EpochRecord, ParseEpoch, ReadEpoch, IsInstance, AllInAlphabet, ToBytes;
    PrintedEpochRead("ar1-" + Encode(random));
  }

  // ---------------------------------------------------------------- the check of a READY record

  /** `isspace` in the C locale. */
  predicate IsSpace(c: char) {
    c == ' ' || '\t' <= c <= '\r'
  }

  /** A white-space directive of `sscanf` skips any amount, also none. */
  function SkipSpace(s: string): string {
    if s != "" && IsSpace(s[0]) then SkipSpace(s[1..]) else s
  }

  /** `%47[A-Za-z0-9_-]`. */
  function ScanSet(s: string, most: nat): (r: string)
    ensures |r| <= |s|
  {
    if most > 0 && s != "" && InAlphabet(s[0]) then [s[0]] + ScanSet(s[1..], most - 1) else ""
  }

  datatype Scanned = Scanned(value: nat, rest: string)

  /** `%llu`: white space, a sign, digits; a minus sign wraps and too large a number saturates. */
  function ScanUnsigned(s: string): Option<Scanned> {
    var t := SkipSpace(s);
    var signed := t != "" && (t[0] == '-' || t[0] == '+');
    var u := if signed then t[1..] else t;
    var digits := Decimal.DigitPrefix(u);
    if digits == "" then None
    else
      var n := Decimal.Value(digits);
      var value := if n >= TWO_TO_64 then TWO_TO_64 - 1 else if signed && t[0] == '-' && n > 0 then TWO_TO_64 - n else n;
      Some(Scanned(value, u[|digits|..]))
  }

  datatype Fields = Fields(instance: string, device: nat, inode: nat, rest: string)

  /** The part of the format up to the instance. */
  function ScanInstance(s: string): Option<(string, string)> {
    var a := After(StateHeader(), s);
    if a.None? then None
    else
      var b := After("instance=", SkipSpace(a.value));
      if b.None? then None
      else
        var instance := ScanSet(b.value, 47);
        if instance == "" then None else Some((instance, b.value[|instance|..]))
  }

  /** The rest of the format: the READY line and the two numbers. */
  function ScanNumbers(s: string): Option<(nat, nat, string)> {
    var a := After("state=READY", SkipSpace(s));
    if a.None? then None
    else
      var b := After("socketDevice=", SkipSpace(a.value));
      if b.None? then None
      else
        var device := ScanUnsigned(b.value);
        if device.None? then None
        else
          var c := After("socketInode=", SkipSpace(device.value.rest));
          if c.None? then None
          else
            var inode := ScanUnsigned(c.value);
            if inode.None? then None
            else Some((device.value.value, inode.value.value, SkipSpace(inode.value.rest)))
  }

  /** `sscanf`: three conversions and what is left where `%n` counts. */
  function Scan(s: string): Option<Fields> {
    var head := ScanInstance(s);
    if head.None? then None
    else
      var numbers := ScanNumbers(head.value.1);
      if numbers.None? then None else Some(Fields(head.value.0, numbers.value.0, numbers.value.1, numbers.value.2))
  }

  /** `validate_state`, given the bytes read: scanned, then printed again and compared. */
  predicate Validates(bytes: seq<byte>, instance: string) {
    var record := Raw(bytes);
    && 0 < |record| <= MAX_RECORD
    && var text := CString(record);
       var f := Scan(text);
       && f.Some? && |text| - |f.value.rest| == |record|
       && f.value.instance == instance && f.value.device != 0 && f.value.inode != 0
       && Render(instance, Ready, f.value.device, f.value.inode) == record
  }

  // ---------------------------------------------------------------- what the check accepts

  lemma {:induction false} ScansSet(symbols: string, rest: string, most: nat)
    requires AllInAlphabet(symbols) && |symbols| <= most && rest != "" && !InAlphabet(rest[0])
    ensures ScanSet(symbols + rest, most) == symbols
  {
    if symbols != "" {
      assert (symbols + rest)[1..] == symbols[1..] + rest;
      ScansSet(symbols[1..], rest, most - 1);
    } else {
      assert symbols + rest == rest;
    }
  }

  lemma NewlineSkipped(s: string)
    requires s == "" || !IsSpace(s[0])
    ensures SkipSpace("\n" + s) == s
  {
    assert ("\n" + s)[1..] == s;
  }

  lemma ScansNumeral(n: nat, rest: string)
    requires n < TWO_TO_64 && rest != "" && !Decimal.IsDigit(rest[0])
    ensures ScanUnsigned(Decimal.Print(n) + rest) == Some(Scanned(n, rest))
  {
    var s := Decimal.Print(n) + rest;
    assert s[0] == Decimal.Print(n)[0];
    assert SkipSpace(s) == s;
    Decimal.DigitsUntil(Decimal.Print(n), rest);
    Decimal.ReadPrinted(n);
    hide Decimal.Print;
    assert s[|Decimal.Print(n)|..] == rest;
  }

  lemma ScannedBelow(s: string)
    ensures ScanUnsigned(s).Some? ==> ScanUnsigned(s).value.value < TWO_TO_64
  {
  }

  /** The numbers of a printed record are scanned back. */
  lemma ScansNumbers(device: nat, inode: nat)
    requires device < TWO_TO_64 && inode < TWO_TO_64
    ensures ScanNumbers("\n" + ("state=READY" + ("\n" + ("socketDevice=" + (Decimal.Print(device) + ("\n" + ("socketInode=" + (Decimal.Print(inode) + "\n"))))))))
            == Some((device, inode, ""))
  {
    hide Decimal.Print, ScanUnsigned;
    var i := Decimal.Print(inode) + "\n";
    var h := "socketInode=" + i;
    var g := "\n" + h;
    var f := Decimal.Print(device) + g;
    var e := "socketDevice=" + f;
    var d := "\n" + e;
    var c := "state=READY" + d;
    NewlineSkipped(c);
    AfterIff("state=READY", c, d);
    NewlineSkipped(e);
    AfterIff("socketDevice=", e, f);
    ScansNumeral(device, g);
    NewlineSkipped(h);
    AfterIff("socketInode=", h, i);
    ScansNumeral(inode, "\n");
    NewlineSkipped("");
    assert "\n" + "" == "\n";
  }

  /** A printed READY record, as one concatenation. */
  lemma ReadyShape(instance: string, device: nat, inode: nat)
    ensures Render(instance, Ready, device, inode) ==
            StateHeader() + ("\n" + ("instance=" + (instance + ("\n" + ("state=READY" + ("\n" + ("socketDevice=" + (Decimal.Print(device)
            + ("\n" + ("socketInode=" + (Decimal.Print(inode) + "\n")))))))))))
  {
    hide StateHeader, Decimal.Print, Text;
    var d, i := Decimal.Print(device), Decimal.Print(inode);
    var l4 := ["socketInode=" + i] + [];
    var l3 := ["socketDevice=" + d] + l4;
    var l2 := ["state=" + "READY"] + l3;
    var l1 := ["instance=" + instance] + l2;
    assert StateHeader() + "" == StateHeader();
    assert StateLines(instance, "READY", d, i) == [StateHeader() + ""] + l1;
    NoText();
    LabelledText("socketInode=", i, []);
    LabelledText("socketDevice=", d, l4);
    LabelledText("state=", "READY", l3);
    LabelledText("instance=", instance, l2);
    LabelledText(StateHeader(), "", l1);
    assert "\n" + "" == "\n" && "state=" + "READY" == "state=READY";
    assert "state=" + ("READY" + ("\n" + Text(l3))) == "state=READY" + ("\n" + Text(l3));
    assert "" + ("\n" + Text(l1)) == "\n" + Text(l1);
  }

  lemma LabelledText(name: string, value: string, rest: seq<string>)
    ensures Text([name + value] + rest) == name + (value + ("\n" + Text(rest)))
  {
    assert ([name + value] + rest)[1..] == rest;
    assert name + value + "\n" + Text(rest) == name + (value + ("\n" + Text(rest)));
  }

  /** What `%47[A-Za-z0-9_-]` can yield. */
  predicate Scannable(instance: string) {
    0 < |instance| <= 47 && AllInAlphabet(instance)
  }

  /** The head of a printed record is scanned back. */
  lemma ScansInstance(instance: string, rest: string)
    requires Scannable(instance) && rest != "" && rest[0] == '\n'
    ensures ScanInstance(StateHeader() + ("\n" + ("instance=" + (instance + rest)))) == Some((instance, rest))
  {
    hide StateHeader;
    var c := instance + rest;
    var b := "instance=" + c;
    var a := "\n" + b;
    AfterIff(StateHeader(), StateHeader() + a, a);
    NewlineSkipped(b);
    AfterIff("instance=", b, c);
    ScansSet(instance, rest, 47);
    assert c[|instance|..] == rest;
  }

  lemma ValidatesRendered(bytes: seq<byte>, instance: string, device: nat, inode: nat)
    requires Scannable(instance) && 0 < device < TWO_TO_64 && 0 < inode < TWO_TO_64
    requires Raw(bytes) == Render(instance, Ready, device, inode)
    ensures Validates(bytes, instance)
  {
    var record := Raw(bytes);
    RenderedLines(instance, Ready, device, inode);
    RecordFits(instance, Ready, device, inode);
    WholeCString(record);
    ReadyShape(instance, device, inode);
    var rest := "\n" + ("state=READY" + ("\n" + ("socketDevice=" + (Decimal.Print(device) + ("\n" + ("socketInode=" + (Decimal.Print(inode) + "\n")))))));
    ScansInstance(instance, rest);
    ScansNumbers(device, inode);
    hide Decimal.Print, StateHeader, Render, ScanInstance, ScanNumbers, CString, Raw;
  }

  /** The native check accepts exactly the printed READY records of this instance with 64-bit socket ids. */
  lemma ValidatesIff(bytes: seq<byte>, instance: string)
    ensures Validates(bytes, instance) <==>
              Scannable(instance)
              && exists d, i :: 0 < d < TWO_TO_64 && 0 < i < TWO_TO_64 && Raw(bytes) == Render(instance, Ready, d, i)
  {
    hide Raw;
    if Validates(bytes, instance) {
      ScannedBounds(CString(Raw(bytes)));
    }
    if d: nat, i: nat :| Scannable(instance) && 0 < d < TWO_TO_64 && 0 < i < TWO_TO_64 && Raw(bytes) == Render(instance, Ready, d, i) {
      ValidatesRendered(bytes, instance, d, i);
    }
  }

  lemma {:induction false} SetInAlphabet(s: string, most: nat)
    ensures AllInAlphabet(ScanSet(s, most)) && |ScanSet(s, most)| <= most
  {
    if most > 0 && s != "" && InAlphabet(s[0]) {
      SetInAlphabet(s[1..], most - 1);
    }
  }

  lemma ScannedBounds(s: string)
    ensures var f := Scan(s);
            f.Some? ==> Scannable(f.value.instance) && f.value.device < TWO_TO_64 && f.value.inode < TWO_TO_64
  {
    hide StateHeader, ScanUnsigned, SkipSpace, ScanSet;
    forall t ensures ScanUnsigned(t).Some? ==> ScanUnsigned(t).value.value < TWO_TO_64 { ScannedBelow(t); }
    forall t ensures AllInAlphabet(ScanSet(t, 47)) && |ScanSet(t, 47)| <= 47 { SetInAlphabet(t, 47); }
  }

  /** The TypeScript side takes these bytes for a READY record of some 64-bit socket. */
  ghost predicate ParsesReady(bytes: seq<byte>, instance: string) {
    exists d, i :: 0 < d < TWO_TO_64 && 0 < i < TWO_TO_64
                   && Parse(bytes, instance, Some(SocketTarget(d, i, true))) == Ok(ParsedState(instance, Ready, d, i))
  }

  lemma ParsesReadyIff(bytes: seq<byte>, instance: string)
    requires IsInstance(instance)
    ensures ParsesReady(bytes, instance) <==>
              exists d, i :: 0 < d < TWO_TO_64 && 0 < i < TWO_TO_64 && Ascii(bytes) == Render(instance, Ready, d, i)
  {
    assert |Ascii(bytes)| == |bytes|;
    InstanceShape(instance);
    hide Render, Parse, IsInstance, Ascii;
    forall d: int, i: int | 0 < d < TWO_TO_64 && 0 < i < TWO_TO_64
      ensures Parse(bytes, instance, Some(SocketTarget(d, i, true))) == Ok(ParsedState(instance, Ready, d, i))
              <==> Ascii(bytes) == Render(instance, Ready, d, i)
    {
      RecordFits(instance, Ready, d, i);
      ParseIff(bytes, instance, Some(SocketTarget(d, i, true)), ParsedState(instance, Ready, d, i));
    }
  }

  /** The native check accepts exactly the READY records the TypeScript side accepts and in which no high bit is set. */
  lemma ReadyReadersAgree(bytes: seq<byte>, instance: string)
    requires IsInstance(instance)
    ensures Validates(bytes, instance) <==> ParsesReady(bytes, instance) && SevenBit(bytes)
  {
    InstanceShape(instance);
    hide Render, Validates, ParsesReady, IsInstance, Ascii, Raw, SevenBit, SevenBitText;
    ValidatesIff(bytes, instance);
    ParsesReadyIff(bytes, instance);
    SameTextIff(bytes);
    forall d: int, i: int | 0 < d < TWO_TO_64 && 0 < i < TWO_TO_64
      ensures SevenBitText(Render(instance, Ready, d, i))
    {
      RenderedLines(instance, Ready, d, i);
    }
  }

  /** One high bit anywhere in a READY record: TypeScript still accepts it, and the native check does not. */
  lemma RaisedReadySplitsReaders(bytes: seq<byte>, instance: string, k: nat)
    requires IsInstance(instance) && Validates(bytes, instance) && k < |bytes|
    ensures bytes[k] < 128 && ParsesReady(Raised(bytes, k), instance) && !Validates(Raised(bytes, k), instance)
  {
    ReadyReadersAgree(bytes, instance);
    RaisedMasks(bytes, k);
    hide Render, Validates, ParsesReady, IsInstance, Ascii;
    ReadyReadersAgree(Raised(bytes, k), instance);
    ParsesReadyIff(bytes, instance);
    ParsesReadyIff(Raised(bytes, k), instance);
  }
}
