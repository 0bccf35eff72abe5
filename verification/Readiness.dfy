/**
 * The readiness records: what the authority prints and parses, line by line.
 * A record is the bytes of its file; Node's ascii decoding drops the high bit of each of them.
 */
module Readiness {
  import opened Basics
  import Decimal

  // ---------------------------------------------------------------- bytes and text

  /** `bytes.toString("ascii")`. */
  function Ascii(bytes: seq<byte>): string {
    seq(|bytes|, k requires 0 <= k < |bytes| => (bytes[k] % 128) as char)
  }

  /** `Buffer.from(s, "ascii")`: the low byte of each character. */
  function ToBytes(s: string): seq<byte> {
    seq(|s|, k requires 0 <= k < |s| => s[k] as int % 256)
  }

  /** The bytes as C sees them. */
  function Raw(bytes: seq<byte>): string {
    seq(|bytes|, k requires 0 <= k < |bytes| => bytes[k] as char)
  }

  predicate SevenBit(bytes: seq<byte>) {
    forall k :: 0 <= k < |bytes| ==> bytes[k] < 128
  }

  predicate SevenBitText(s: string) {
    forall k :: 0 <= k < |s| ==> s[k] as int < 128
  }

  /** 7-bit text survives both ways of reading it back. */
  lemma ReadBack(s: string)
    requires SevenBitText(s)
    ensures Ascii(ToBytes(s)) == s == Raw(ToBytes(s)) && SevenBit(ToBytes(s)) && |ToBytes(s)| == |s|
  {
  }

  /** Masked and raw bytes are the same text exactly when no high bit is set. */
  lemma SameTextIff(bytes: seq<byte>)
    ensures Ascii(bytes) == Raw(bytes) <==> SevenBit(bytes)
    ensures SevenBitText(Raw(bytes)) <==> SevenBit(bytes)
  {
    if k :| 0 <= k < |bytes| && bytes[k] >= 128 {
      assert Ascii(bytes)[k] != Raw(bytes)[k] && Raw(bytes)[k] as int >= 128;
    }
    if SevenBit(bytes) {
      assert Ascii(bytes) == Raw(bytes);
    }
  }

  lemma NulStays(bytes: seq<byte>)
    ensures 0 in bytes ==> '\0' in Ascii(bytes)
  {
    if k :| 0 <= k < |bytes| && bytes[k] == 0 {
      assert Ascii(bytes)[k] == '\0';
    }
  }

  // ---------------------------------------------------------------- lines

  predicate OneLine(s: string) {
    '\n' !in s
  }

  function Split(s: string): (lines: seq<string>)
    ensures lines != []
  {
    if s == "" then [""]
    else
      var rest := Split(s[1..]);
      if s[0] == '\n' then [""] + rest else [[s[0]] + rest[0]] + rest[1..]
  }

  function Join(lines: seq<string>): string
    requires lines != []
  {
    if |lines| == 1 then lines[0] else lines[0] + "\n" + Join(lines[1..])
  }

  lemma {:induction false} JoinSplit(s: string)
    ensures Join(Split(s)) == s
  {
    if s != "" {
      var rest := Split(s[1..]);
      JoinSplit(s[1..]);
      if s[0] == '\n' {
        assert Split(s)[1..] == rest;
      } else {
        assert Split(s)[1..] == rest[1..];
      }
    }
  }

  lemma {:induction false} SplitLine(line: string, rest: string)
    requires OneLine(line)
    ensures Split(line + "\n" + rest) == [line] + Split(rest)
  {
    var s := line + "\n" + rest;
    if line == "" {
      assert s[1..] == rest;
    } else {
      assert s[1..] == line[1..] + "\n" + rest;
      assert line[0] in line && forall c :: c in line[1..] ==> c in line;
      SplitLine(line[1..], rest);
      assert [line[0]] + line[1..] == line;
      assert ([line[1..]] + Split(rest))[1..] == Split(rest);
    }
  }

  /** Lines, each ended by a newline. */
  function Text(lines: seq<string>): string {
    if lines == [] then "" else lines[0] + "\n" + Text(lines[1..])
  }

  lemma {:induction false} SplitText(lines: seq<string>)
    requires forall l :: l in lines ==> OneLine(l)
    ensures Split(Text(lines)) == lines + [""]
  {
    if lines != [] {
      SplitLine(lines[0], Text(lines[1..]));
      SplitText(lines[1..]);
    }
  }

  lemma {:induction false} TextSplit(s: string, lines: seq<string>)
    requires Split(s) == lines + [""]
    ensures s == Text(lines)
    decreases |lines|
  {
    JoinSplit(s);
    JoinText(lines);
  }

  lemma {:induction false} JoinText(lines: seq<string>)
    ensures Join(lines + [""]) == Text(lines)
  {
    if lines != [] {
      assert (lines + [""])[1..] == lines[1..] + [""];
      JoinText(lines[1..]);
    }
  }

  // ---------------------------------------------------------------- instances

  predicate InAlphabet(c: char) {
    'A' <= c <= 'Z' || 'a' <= c <= 'z' || '0' <= c <= '9' || c == '_' || c == '-'
  }

  predicate AllInAlphabet(s: string) {
    forall k :: 0 <= k < |s| ==> InAlphabet(s[k])
  }

  /** `ar1-` and 43 characters of the alphabet. */
  predicate IsInstance(s: string) {
    |s| == 47 && s[..4] == "ar1-" && AllInAlphabet(s)
  }

  lemma InstanceShape(instance: string)
    requires IsInstance(instance)
    ensures |instance| == 47 && instance[..4] == "ar1-" && AllInAlphabet(instance)
  {
  }

  // ---------------------------------------------------------------- state records

  datatype ReadyState = Ready | NotReady | Stopping

  function StateName(s: ReadyState): string {
    match s
    case Ready => "READY"
    case NotReady => "NOT_READY"
    case Stopping => "STOPPING"
  }

  function StateHeader(): string { "ZCC_AUTHORITY_READINESS_STATE_V1" }

  const MAX_RECORD := 192

  function StateLines(instance: string, state: string, device: string, inode: string): seq<string> {
    [StateHeader(), "instance=" + instance, "state=" + state, "socketDevice=" + device, "socketInode=" + inode]
  }

  function Render(instance: string, state: ReadyState, device: nat, inode: nat): string {
    Text(StateLines(instance, StateName(state), Decimal.Print(device), Decimal.Print(inode)))
  }

  datatype ReadinessError = StateInvalid | EpochInvalid | EpochMismatch | SocketMissing | NotSocket | DeviceMismatch | InodeMismatch

  /** `formatAuthorityReadinessState`. */
  function Format(instance: string, state: ReadyState, device: int, inode: int): Result<seq<byte>, ReadinessError> {
    if !IsInstance(instance) || device <= 0 || inode <= 0 then Err(StateInvalid)
    else
      var output := ToBytes(Render(instance, state, device, inode));
      if |output| > MAX_RECORD then Err(StateInvalid) else Ok(output)
  }

  datatype ParsedState = ParsedState(instance: string, state: ReadyState, device: nat, inode: nat)

  datatype SocketTarget = SocketTarget(device: int, inode: int, isSocket: bool)

  function After(prefix: string, line: string): Option<string> {
    if prefix <= line then Some(line[|prefix|..]) else None
  }

  function ReadState(name: string): Option<ReadyState> {
    if name == "READY" then Some(Ready)
    else if name == "NOT_READY" then Some(NotReady)
    else if name == "STOPPING" then Some(Stopping)
    else None
  }

  /** A decimal numeral without leading zeros, above zero. */
  predicate PositiveNumeral(s: string) {
    s != "" && '1' <= s[0] <= '9' && Decimal.AllDigits(s)
  }

  /** `parseAuthorityReadinessState`. */
  function Parse(bytes: seq<byte>, epochInstance: string, socket: Option<SocketTarget>): Result<ParsedState, ReadinessError> {
    var record := Ascii(bytes);
    if |bytes| <= 0 || |bytes| > MAX_RECORD || !(StateHeader() + "\n" <= record) || record[|record| - 1] != '\n' || 0 in bytes
    then Err(StateInvalid)
    else
      var lines := Split(record);
      if |lines| != 6 || lines[5] != "" then Err(StateInvalid)
      else ParseLines(lines, epochInstance, socket)
  }

  function ParseLines(lines: seq<string>, epochInstance: string, socket: Option<SocketTarget>): Result<ParsedState, ReadinessError>
    requires |lines| == 6
  {
    var instance := After("instance=", lines[1]);
    if instance.None? then Err(StateInvalid)
    else if !IsInstance(instance.value) || instance.value != epochInstance then Err(EpochMismatch)
    else
      var name := After("state=", lines[2]);
      var state := if name.Some? then ReadState(name.value) else None;
      if state.None? then Err(StateInvalid)
      else
        var device := After("socketDevice=", lines[3]);
        if device.None? || !PositiveNumeral(device.value) then Err(StateInvalid)
        else
          var inode := After("socketInode=", lines[4]);
          if inode.None? || !PositiveNumeral(inode.value) then Err(StateInvalid)
          else CheckSocket(ParsedState(instance.value, state.value, Decimal.Value(device.value), Decimal.Value(inode.value)), socket)
  }

  function CheckSocket(p: ParsedState, socket: Option<SocketTarget>): Result<ParsedState, ReadinessError> {
    if socket.None? then Err(SocketMissing)
    else if !socket.value.isSocket then Err(NotSocket)
    else if socket.value.device != p.device then Err(DeviceMismatch)
    else if socket.value.inode != p.inode then Err(InodeMismatch)
    else Ok(p)
  }

  /** The socket a record must point at. */
  predicate PointsAt(p: ParsedState, socket: Option<SocketTarget>) {
    socket == Some(SocketTarget(p.device, p.inode, true))
  }

  // ---------------------------------------------------------------- what is accepted

  lemma AfterIff(prefix: string, line: string, rest: string)
    ensures After(prefix, line) == Some(rest) <==> line == prefix + rest
  {
    if prefix <= line {
      assert line == prefix + line[|prefix|..];
    }
  }

  lemma NumeralValue(s: string)
    requires PositiveNumeral(s)
    ensures Decimal.Value(s) > 0 && Decimal.Print(Decimal.Value(s)) == s
  {
    Decimal.ValuePositive(s);
    Decimal.PrintRead(s);
  }

  lemma PrintedNumeral(n: nat)
    requires n > 0
    ensures PositiveNumeral(Decimal.Print(n)) && Decimal.Value(Decimal.Print(n)) == n
  {
    Decimal.ReadPrinted(n);
  }

  /** 7-bit text without newlines or NULs. */
  predicate Plain(s: string) {
    forall k :: 0 <= k < |s| ==> s[k] != '\n' && s[k] != '\0' && s[k] as int < 128
  }

  lemma PlainConcat(a: string, b: string)
    requires Plain(a) && Plain(b)
    ensures Plain(a + b)
  {
  }

  lemma HeaderPlain()
    ensures Plain(StateHeader())
  {
  }

  lemma StatePlain(state: ReadyState)
    ensures Plain(StateName(state))
  {
  }

  lemma LabelsPlain(state: ReadyState)
    ensures Plain(StateHeader()) && Plain("instance=") && Plain("state=" + StateName(state))
    ensures Plain("socketDevice=") && Plain("socketInode=")
  {
    HeaderPlain();
    StatePlain(state);
    hide StateHeader, StateName;
    PlainConcat("state=", StateName(state));
  }

  lemma InstancePlain(instance: string)
    requires AllInAlphabet(instance)
    ensures Plain(instance)
  {
  }

  lemma NumeralPlain(n: nat)
    ensures Plain(Decimal.Print(n))
  {
  }

  lemma StateLinesPlain(instance: string, state: ReadyState, device: nat, inode: nat)
    requires AllInAlphabet(instance)
    ensures forall l :: l in StateLines(instance, StateName(state), Decimal.Print(device), Decimal.Print(inode)) ==> Plain(l)
  {
    LabelsPlain(state);
    InstancePlain(instance);
    NumeralPlain(device);
    NumeralPlain(inode);
    hide Decimal.Print, StateHeader, AllInAlphabet, Plain, StateName;
    PlainConcat("instance=", instance);
    PlainConcat("socketDevice=", Decimal.Print(device));
    PlainConcat("socketInode=", Decimal.Print(inode));
  }

  lemma {:induction false} TextPlain(lines: seq<string>)
    requires lines != [] && forall l :: l in lines ==> Plain(l)
    ensures '\0' !in Text(lines) && SevenBitText(Text(lines)) && Text(lines) != "" && Text(lines)[|Text(lines)| - 1] == '\n'
  {
    PlainOneLine(lines[0]);
    if |lines| == 1 {
      assert Text(lines[1..]) == "";
    } else {
      TextPlain(lines[1..]);
    }
  }

  lemma PlainOneLine(s: string)
    requires Plain(s)
    ensures OneLine(s) && '\0' !in s
  {
  }

  /** A printed record splits into its lines. */
  lemma RenderedLines(instance: string, state: ReadyState, device: nat, inode: nat)
    requires AllInAlphabet(instance)
    ensures var record := Render(instance, state, device, inode);
            var lines := StateLines(instance, StateName(state), Decimal.Print(device), Decimal.Print(inode));
            && Split(record) == lines + [""] && '\0' !in record && SevenBitText(record) && record != "" && record[|record| - 1] == '\n'
            && StateHeader() + "\n" <= record
  {
    hide StateHeader, AllInAlphabet, StateName, Decimal.Print;
    var lines := StateLines(instance, StateName(state), Decimal.Print(device), Decimal.Print(inode));
    StateLinesPlain(instance, state, device, inode);
    TextPlain(lines);
    forall l | l in lines ensures OneLine(l) { PlainOneLine(l); }
    SplitText(lines);
    assert Text(lines) == lines[0] + "\n" + Text(lines[1..]);
  }

  lemma ParsesRendered(p: ParsedState, socket: Option<SocketTarget>)
    requires IsInstance(p.instance) && p.device > 0 && p.inode > 0 && PointsAt(p, socket)
    ensures ParseLines(StateLines(p.instance, StateName(p.state), Decimal.Print(p.device), Decimal.Print(p.inode)) + [""],
                       p.instance, socket) == Ok(p)
  {
    hide StateHeader, IsInstance, Decimal.Print, Decimal.Value, PositiveNumeral;
    AfterIff("instance=", "instance=" + p.instance, p.instance);
    AfterIff("state=", "state=" + StateName(p.state), StateName(p.state));
    AfterIff("socketDevice=", "socketDevice=" + Decimal.Print(p.device), Decimal.Print(p.device));
    AfterIff("socketInode=", "socketInode=" + Decimal.Print(p.inode), Decimal.Print(p.inode));
    PrintedNumeral(p.device);
    PrintedNumeral(p.inode);
    hide After;
  }

  lemma ParsedLinesAre(lines: seq<string>, epochInstance: string, socket: Option<SocketTarget>)
    requires |lines| == 6 && lines[0] == StateHeader() && ParseLines(lines, epochInstance, socket).Ok?
    ensures var p := ParseLines(lines, epochInstance, socket).value;
            && lines[..5] == StateLines(p.instance, StateName(p.state), Decimal.Print(p.device), Decimal.Print(p.inode))
            && IsInstance(p.instance) && p.instance == epochInstance && p.device > 0 && p.inode > 0 && PointsAt(p, socket)
  {
    hide StateHeader, IsInstance, Decimal.Print, Decimal.Value, PositiveNumeral;
    var instance, name, device, inode :=
      After("instance=", lines[1]).value, After("state=", lines[2]).value, After("socketDevice=", lines[3]).value, After("socketInode=", lines[4]).value;
    AfterIff("instance=", lines[1], instance);
    AfterIff("state=", lines[2], name);
    AfterIff("socketDevice=", lines[3], device);
    AfterIff("socketInode=", lines[4], inode);
    NumeralValue(device);
    NumeralValue(inode);
    hide After;
  }

  /** The parser accepts exactly what masks to a printed record of the right instance and socket, and fits. */
  lemma ParseIff(bytes: seq<byte>, epochInstance: string, socket: Option<SocketTarget>, p: ParsedState)
    ensures Parse(bytes, epochInstance, socket) == Ok(p) <==>
              && IsInstance(epochInstance) && p.instance == epochInstance && p.device > 0 && p.inode > 0
              && Ascii(bytes) == Render(epochInstance, p.state, p.device, p.inode) && |bytes| <= MAX_RECORD && PointsAt(p, socket)
  {
    var record := Ascii(bytes);
    assert |record| == |bytes|;
    hide Ascii, StateHeader, IsInstance, StateName, StateLines, Split, Text, ParseLines, PointsAt, Decimal.Print;
    if Parse(bytes, epochInstance, socket) == Ok(p) {
      var lines := Split(record);
      HeaderLine(record);
      ParsedLinesAre(lines, epochInstance, socket);
      assert lines == lines[..5] + [""];
      TextSplit(record, lines[..5]);
    }
    if && IsInstance(epochInstance) && p.instance == epochInstance && p.device > 0 && p.inode > 0
       && record == Render(epochInstance, p.state, p.device, p.inode) && |record| <= MAX_RECORD && PointsAt(p, socket) {
      InstanceShape(p.instance);
      RenderedLines(p.instance, p.state, p.device, p.inode);
      NulStays(bytes);
      ParsesRendered(p, socket);
      FiveLines(p.instance, StateName(p.state), Decimal.Print(p.device), Decimal.Print(p.inode));
    }
  }

  lemma FiveLines(instance: string, state: string, device: string, inode: string)
    ensures |StateLines(instance, state, device, inode)| == 5
  {
  }

  lemma HeaderLine(record: string)
    requires StateHeader() + "\n" <= record
    ensures Split(record)[0] == StateHeader()
  {
    assert OneLine(StateHeader());
    hide StateHeader;
    var rest := record[|StateHeader()| + 1..];
    assert record == StateHeader() + "\n" + rest;
    SplitLine(StateHeader(), rest);
  }

  // ---------------------------------------------------------------- sizes

  const TWO_TO_64 := 0x1_0000_0000_0000_0000

  lemma DigitsOf64(n: nat)
    requires n < TWO_TO_64
    ensures |Decimal.Print(n)| <= 20
  {
    TenToTwenty();
    Decimal.PrintLength(n, 20);
  }

  lemma TenToTwenty()
    ensures Decimal.Pow10(20) == 100_000_000_000_000_000_000
  {
    assert Decimal.Pow10(5) == 100_000;
    assert Decimal.Pow10(10) == 10_000_000_000;
    assert Decimal.Pow10(15) == 1_000_000_000_000_000;
  }

  lemma TextLength(line: string, rest: seq<string>)
    ensures |Text([line] + rest)| == |line| + 1 + |Text(rest)|
  {
    assert ([line] + rest)[1..] == rest;
  }

  /** Records of 64-bit socket ids always fit; a READY record takes at most 169 bytes. */
  lemma RecordFits(instance: string, state: ReadyState, device: nat, inode: nat)
    requires |instance| <= 47 && device < TWO_TO_64 && inode < TWO_TO_64
    ensures |Render(instance, state, device, inode)| <= 173
    ensures state == Ready ==> |Render(instance, state, device, inode)| <= 169
  {
    DigitsOf64(device);
    DigitsOf64(inode);
    assert |StateHeader()| == 32;
    hide Decimal.Print, Text, StateHeader;
    var d, i := "socketDevice=" + Decimal.Print(device), "socketInode=" + Decimal.Print(inode);
    var lines := StateLines(instance, StateName(state), Decimal.Print(device), Decimal.Print(inode));
    var name, inst := "state=" + StateName(state), "instance=" + instance;
    assert lines == [StateHeader()] + ([inst] + ([name] + ([d] + ([i] + []))));
    NoText();
    TextLength(i, []);
    TextLength(d, [i] + []);
    TextLength(name, [d] + ([i] + []));
    TextLength(inst, [name] + ([d] + ([i] + [])));
    TextLength(StateHeader(), [inst] + ([name] + ([d] + ([i] + []))));
  }

  lemma NoText()
    ensures Text([]) == ""
  {
  }

  /** What is printed for a socket is read back as the same values. */
  lemma StateRoundTrip(instance: string, state: ReadyState, device: int, inode: int)
    requires IsInstance(instance) && 0 < device < TWO_TO_64 && 0 < inode < TWO_TO_64
    ensures Format(instance, state, device, inode).Ok?
    ensures Parse(Format(instance, state, device, inode).value, instance, Some(SocketTarget(device, inode, true)))
            == Ok(ParsedState(instance, state, device, inode))
  {
    RenderedLines(instance, state, device, inode);
    ReadBack(Render(instance, state, device, inode));
    RecordFits(instance, state, device, inode);
    hide IsInstance, Render, Parse, ToBytes;
    ParseIff(ToBytes(Render(instance, state, device, inode)), instance, Some(SocketTarget(device, inode, true)),
             ParsedState(instance, state, device, inode));
  }

  // ---------------------------------------------------------------- epoch records

  function EpochHeader(): string { "ZCC_AUTHORITY_READINESS_EPOCH_V1" }

  const EPOCH_BYTES := 90

  function EpochRecord(instance: string): string {
    Text([EpochHeader(), "instance=" + instance])
  }

  /** `parseAuthorityReadinessEpoch`. */
  function ParseEpoch(bytes: seq<byte>): Result<string, ReadinessError> {
    var record := Ascii(bytes);
    if |bytes| != EPOCH_BYTES || !(EpochHeader() + "\n" <= record) || record[|record| - 1] != '\n' || 0 in bytes
    then Err(EpochInvalid)
    else
      var lines := Split(record);
      if |lines| != 3 then Err(EpochInvalid)
      else
        var instance := After("instance=", lines[1]);
        if instance.None? || !IsInstance(instance.value) then Err(EpochInvalid) else Ok(instance.value)
  }

  lemma {:induction false} EndsInEmptyLine(s: string)
    requires s != "" && s[|s| - 1] == '\n'
    ensures |Split(s)| > 1 && Split(s)[|Split(s)| - 1] == ""
  {
    if |s| > 1 {
      EndsInEmptyLine(s[1..]);
    } else {
      assert s[1..] == "";
    }
  }

  lemma EpochLines(instance: string)
    requires IsInstance(instance)
    ensures var record := EpochRecord(instance);
            && Split(record) == [EpochHeader(), "instance=" + instance, ""] && '\0' !in record && SevenBitText(record)
            && |record| == EPOCH_BYTES && record[|record| - 1] == '\n' && EpochHeader() + "\n" <= record
  {
    assert Plain(EpochHeader()) && |EpochHeader()| == 32;
    hide EpochHeader;
    InstancePlain(instance);
    PlainConcat("instance=", instance);
    var lines := [EpochHeader(), "instance=" + instance];
    TextPlain(lines);
    forall l | l in lines ensures OneLine(l) { PlainOneLine(l); }
    SplitText(lines);
    assert lines == [EpochHeader()] + (["instance=" + instance] + []);
    TextLength("instance=" + instance, []);
    TextLength(EpochHeader(), ["instance=" + instance] + []);
    assert Text(lines) == lines[0] + "\n" + Text(lines[1..]);
  }

  /** The epoch parser accepts exactly what masks to a printed epoch record. */
  lemma ParseEpochIff(bytes: seq<byte>, instance: string)
    ensures ParseEpoch(bytes) == Ok(instance) <==> IsInstance(instance) && Ascii(bytes) == EpochRecord(instance)
  {
    var record := Ascii(bytes);
    assert |record| == |bytes|;
    hide Ascii;
    if ParseEpoch(bytes) == Ok(instance) {
      assert OneLine(EpochHeader());
      hide EpochHeader, IsInstance;
      var lines := Split(record);
      var rest := record[|EpochHeader()| + 1..];
      assert record == EpochHeader() + "\n" + rest;
      SplitLine(EpochHeader(), rest);
      EndsInEmptyLine(record);
      AfterIff("instance=", lines[1], instance);
      assert lines == [EpochHeader(), "instance=" + instance] + [""];
      TextSplit(record, [EpochHeader(), "instance=" + instance]);
    }
    if IsInstance(instance) && record == EpochRecord(instance) {
      hide EpochHeader, IsInstance;
      EpochLines(instance);
      NulStays(bytes);
      AfterIff("instance=", "instance=" + instance, instance);
    }
  }
}
