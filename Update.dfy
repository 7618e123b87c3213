/**
  The firmware updater of the drone library: the 16-byte header at the start of a firmware
  image, its hex rendering, the two event handlers through which the device reports its
  state, and the block transfer loop that sends the image 16 bytes at a time.

  Serial I/O, timing and printing are not modelled: the device's replies arrive as
  `Response` values delivered before each pass of the transfer loop, and whether the
  retransmission timer has expired is a boolean of that pass.
*/
module Update {
  import opened Common

  type Byte = x: int | 0 <= x < 256

  // ----- little-endian integers -------------------------------------------------------------

  function Pow256(k: nat): (p: nat)
    ensures p > 0
  {
    if k == 0 then 1 else 256 * Pow256(k - 1)
  }

  /** The unsigned little-endian integer held in `bs` (`struct`'s `<I`, `<H`, `<B`). */
  function LittleEndian(bs: seq<Byte>): (x: nat)
    ensures x < Pow256(|bs|)
  {
    if bs == [] then 0 else bs[0] + 256 * LittleEndian(bs[1..])
  }

  /** The `k` low bytes of `x`, least significant first. */
  function ToLittleEndian(x: nat, k: nat): (bs: seq<Byte>)
    ensures |bs| == k
  {
    if k == 0 then [] else [x % 256] + ToLittleEndian(x / 256, k - 1)
  }

  lemma {:induction false} LittleEndianRoundTrip(x: nat, k: nat)
    requires x < Pow256(k)
    ensures LittleEndian(ToLittleEndian(x, k)) == x
  {
    if k > 0 {
      LittleEndianRoundTrip(x / 256, k - 1);
      var bs := ToLittleEndian(x, k);
      assert bs[1..] == ToLittleEndian(x / 256, k - 1);
    }
  }

  lemma {:induction false} ToLittleEndianRoundTrip(bs: seq<Byte>)
    ensures ToLittleEndian(LittleEndian(bs), |bs|) == bs
  {
    if bs != [] {
      ToLittleEndianRoundTrip(bs[1..]);
      var x := LittleEndian(bs);
      assert x % 256 == bs[0] && x / 256 == LittleEndian(bs[1..]);
    }
  }

  // ----- FirmwareHeader ----------------------------------------------------------------------

  /** The decoded header; the three version parts are derived from `version`. */
  datatype FirmwareHeader = FirmwareHeader(
    modelNumber: nat, version: nat, length: nat, year: nat, month: nat, day: nat,
    versionMajor: nat, versionMinor: nat, versionBuild: nat)

  const HeaderSize: nat := 16

  /** `versionMajor`: bits 24-31 of the version word. */
  function VersionMajor(v: nat): nat { (v / 0x100_0000) % 0x100 }

  /** `versionMinor`: bits 16-23. */
  function VersionMinor(v: nat): nat { (v / 0x1_0000) % 0x100 }

  /** `versionBuild`: bits 0-15. */
  function VersionBuild(v: nat): nat { v % 0x1_0000 }

  /**
    `FirmwareHeader.parse`: anything but exactly 16 bytes gives None; otherwise `<IIIHBB`,
    that is three 32-bit words, a 16-bit year and two single bytes, all little-endian.
  */
  function ParseHeader(data: seq<Byte>): (h: Option<FirmwareHeader>)
    ensures h.None? <==> |data| != HeaderSize
    ensures h.Some? ==>
      && h.value.modelNumber < 0x1_0000_0000 && h.value.version < 0x1_0000_0000
      && h.value.length < 0x1_0000_0000 && h.value.year < 0x1_0000
      && h.value.month < 0x100 && h.value.day < 0x100
  {
    if |data| != HeaderSize then None
    else
      var version := LittleEndian(data[4..8]);
      Some(FirmwareHeader(
        LittleEndian(data[0..4]), version, LittleEndian(data[8..12]),
        LittleEndian(data[12..14]), data[14], data[15],
        VersionMajor(version), VersionMinor(version), VersionBuild(version)))
  }

  /** The 16 bytes `parse` reads a header from: the six stored fields packed `<IIIHBB`. */
  function EncodeHeader(h: FirmwareHeader): (data: seq<Byte>)
    requires h.month < 0x100 && h.day < 0x100
    ensures |data| == HeaderSize
  {
    ToLittleEndian(h.modelNumber, 4) + ToLittleEndian(h.version, 4) + ToLittleEndian(h.length, 4)
    + ToLittleEndian(h.year, 2) + [h.month, h.day]
  }

  /** A header `parse` can produce: every field fits its width and the version parts agree. */
  predicate WellFormedHeader(h: FirmwareHeader)
  {
    && h.modelNumber < 0x1_0000_0000 && h.version < 0x1_0000_0000 && h.length < 0x1_0000_0000
    && h.year < 0x1_0000 && h.month < 0x100 && h.day < 0x100
    && h.versionMajor == VersionMajor(h.version)
    && h.versionMinor == VersionMinor(h.version)
    && h.versionBuild == VersionBuild(h.version)
  }

  /** Every header `parse` returns is well formed, and packing it gives back the input bytes. */
  lemma ParseThenEncode(data: seq<Byte>)
    requires |data| == HeaderSize
    ensures WellFormedHeader(ParseHeader(data).value)
    ensures EncodeHeader(ParseHeader(data).value) == data
  {
    var h := ParseHeader(data).value;
    assert WellFormedHeader(h);
    PackParsedFields(data);
  }

  /** Packing the fields `parse` read from `data` gives `data` back. */
  lemma PackParsedFields(data: seq<Byte>)
    requires |data| == HeaderSize
    ensures EncodeHeader(ParseHeader(data).value) == data
  {
    var h := ParseHeader(data).value;
    assert h.modelNumber == LittleEndian(data[0..4]) && h.version == LittleEndian(data[4..8]);
    assert h.length == LittleEndian(data[8..12]) && h.year == LittleEndian(data[12..14]);
    ToLittleEndianRoundTrip(data[0..4]);
    ToLittleEndianRoundTrip(data[4..8]);
    ToLittleEndianRoundTrip(data[8..12]);
    ToLittleEndianRoundTrip(data[12..14]);
    assert data == data[0..4] + data[4..8] + data[8..12] + data[12..14] + [data[14], data[15]];
  }

  /** Parsing the packed bytes of a well-formed header gives the header back. */
  lemma EncodeThenParse(h: FirmwareHeader)
    requires WellFormedHeader(h)
    ensures ParseHeader(EncodeHeader(h)) == Some(h)
  {
    var data := EncodeHeader(h);
    LittleEndianRoundTrip(h.modelNumber, 4);
    LittleEndianRoundTrip(h.version, 4);
    LittleEndianRoundTrip(h.length, 4);
    LittleEndianRoundTrip(h.year, 2);
    assert data[0..4] == ToLittleEndian(h.modelNumber, 4);
    assert data[4..8] == ToLittleEndian(h.version, 4);
    assert data[8..12] == ToLittleEndian(h.length, 4);
    assert data[12..14] == ToLittleEndian(h.year, 2);
  }

  /** The three version parts cover the 32-bit word exactly: `major.minor.build` loses nothing. */
  lemma VersionSplit(v: nat)
    requires v < 0x1_0000_0000
    ensures VersionMajor(v) < 0x100 && VersionMinor(v) < 0x100 && VersionBuild(v) < 0x1_0000
    ensures VersionMajor(v) * 0x100_0000 + VersionMinor(v) * 0x1_0000 + VersionBuild(v) == v
  {
    var a := v / 0x1_0000;
    var q := a / 0x100;
    var r := a % 0x100;
    assert v == a * 0x1_0000 + VersionBuild(v);
    assert a == q * 0x100 + r;
    assert v == q * 0x100_0000 + (r * 0x1_0000 + VersionBuild(v));
    assert v / 0x100_0000 == q;
    assert q < 0x100;
  }

  // ----- the hex rendering of the header -----------------------------------------------------

  const HexDigits: string := "0123456789ABCDEF"

  /** `"{0:02X} ".format(b)`: two upper-case hex digits and a space. */
  function HexByte(b: Byte): (s: string)
    ensures |s| == 3 && s[2] == ' '
  {
    [HexDigits[b / 16], HexDigits[b % 16], ' ']
  }

  /** The hex string `open` builds, byte after byte. */
  function HexString(raw: seq<Byte>): (s: string)
    ensures |s| == 3 * |raw|
  {
    if raw == [] then "" else HexString(raw[..|raw| - 1]) + HexByte(raw[|raw| - 1])
  }

  /** The value of a hex digit as `HexDigits` writes it; anything else reads as 0. */
  function DigitValue(c: char): (d: nat)
    ensures d < 16
  {
    if '0' <= c <= '9' then (c - '0') as nat
    else if 'A' <= c <= 'F' then (c - 'A') as nat + 10
    else 0
  }

  /** Reads a hex string back, three characters per byte. */
  function ReadHex(s: string): (raw: seq<Byte>)
    ensures |raw| == |s| / 3
  {
    if |s| < 3 then [] else [DigitValue(s[0]) * 16 + DigitValue(s[1])] + ReadHex(s[3..])
  }

  lemma DigitValueOf(d: nat)
    requires d < 16
    ensures DigitValue(HexDigits[d]) == d
  {
  }

  lemma ReadHexByte(b: Byte, rest: string)
    ensures ReadHex(HexByte(b) + rest) == [b] + ReadHex(rest)
  {
    DigitValueOf(b / 16);
    DigitValueOf(b % 16);
    assert (HexByte(b) + rest)[3..] == rest;
  }

  /** The hex string of a non-empty header starts with its first byte's digits. */
  lemma {:induction false} HexStringCons(raw: seq<Byte>)
    requires raw != []
    ensures HexString(raw) == HexByte(raw[0]) + HexString(raw[1..])
    decreases |raw|
  {
    if |raw| > 1 {
      var init := raw[..|raw| - 1];
      HexStringCons(init);
      assert init[1..] == raw[1..][..|raw| - 2];
    }
  }

  /** The header hex string determines the header bytes: reading it back gives them. */
  lemma {:induction false} ReadHexString(raw: seq<Byte>)
    ensures ReadHex(HexString(raw)) == raw
    decreases |raw|
  {
    if raw != [] {
      HexStringCons(raw);
      ReadHexString(raw[1..]);
      ReadHexByte(raw[0], HexString(raw[1..]));
      assert [raw[0]] + raw[1..] == raw;
    }
  }

  /** Byte `i` occupies characters `3i .. 3i+2`: its two digits, then a space. */
  lemma {:induction false} HexStringAt(raw: seq<Byte>, i: nat)
    requires i < |raw|
    ensures HexString(raw)[3 * i .. 3 * i + 3] == HexByte(raw[i])
    decreases |raw|
  {
    var init := raw[..|raw| - 1];
    if i < |raw| - 1 {
      HexStringAt(init, i);
      assert HexString(raw)[3 * i .. 3 * i + 3] == HexString(init)[3 * i .. 3 * i + 3];
    }
  }

  // ----- Firmware ----------------------------------------------------------------------------

  class Firmware {
    var filePath: Option<string>
    var resource: seq<Byte>
    var length: nat
    var rawHeader: seq<Byte>
    var header: Option<FirmwareHeader>
    var stringHeader: string

    /** `Firmware()` without a path: nothing loaded. */
    constructor Empty()
      ensures filePath == None && resource == [] && length == 0
      ensures rawHeader == [] && header == None && stringHeader == ""
    {
      filePath := None;
      resource := [];
      length := 0;
      rawHeader := [];
      header := None;
      stringHeader := "";
    }

    /**
      `open`: `contents` are the bytes read from `path`.  The header is the first 16 bytes;
      a shorter file leaves it None, and the summary printed next then fails on
      `self.header.modelNumber`, which `ok` reports.
    */
    method Open(path: string, contents: seq<Byte>) returns (ok: bool)
      modifies this
      ensures filePath == Some(path) && resource == contents && length == |contents|
      ensures rawHeader == contents[..if |contents| < 16 then |contents| else 16]
      ensures header == ParseHeader(rawHeader)
      ensures stringHeader == HexString(rawHeader)
      ensures ok <==> |contents| >= HeaderSize
    {
      filePath := Some(path);
      resource := contents;
      length := |contents|;
      rawHeader := contents[..if |contents| < 16 then |contents| else 16];
      header := ParseHeader(rawHeader);
      stringHeader := HeaderHex(rawHeader);
      ok := header.Some?;
    }
  }

  /** The string accumulation of `open`: one `"{0:02X} "` per byte. */
  method HeaderHex(raw: seq<Byte>) returns (s: string)
    ensures s == HexString(raw)
  {
    s := "";
    var i := 0;
    while i < |raw|
      invariant 0 <= i <= |raw|
      invariant s == HexString(raw[..i])
    {
      assert raw[..i + 1][..i] == raw[..i];
      s := s + HexByte(raw[i]);
      i := i + 1;
    }
    assert raw[..i] == raw;
  }

  // ----- the device's reports ----------------------------------------------------------------

  /** The device's update mode, as far as the updater distinguishes it. */
  datatype ModeUpdate = ModeNone | Ready | Updating | Complete | OtherMode

  /** The fields of an `Information` report the updater uses. */
  datatype Information = Information(modeUpdate: ModeUpdate, modelNumber: nat)

  /** What the device sends back: its information, or the next block it expects. */
  datatype Response = Info(info: Information) | UpdateLocation(indexBlockNext: nat)

  /** The device type: bits 8-15 of the model number. */
  function DeviceTypeOf(modelNumber: nat): (t: nat)
    ensures t < 0x100
  {
    (modelNumber / 0x100) % 0x100
  }

  /** In a header's model number the device type is the second byte on the wire. */
  lemma DeviceTypeIsSecondByte(bs: seq<Byte>)
    requires |bs| == 4
    ensures DeviceTypeOf(LittleEndian(bs)) == bs[1]
  {
    var rest := LittleEndian(bs[2..]);
    assert LittleEndian(bs[1..]) == bs[1] + 256 * rest by {
      assert bs[1..][1..] == bs[2..];
    }
    assert LittleEndian(bs) / 0x100 == bs[1] + 256 * rest;
  }

  /** The updater's fields, as a value. */
  datatype UpdaterState = UpdaterState(
    modelNumber: Option<nat>, deviceType: Option<nat>, modeUpdate: ModeUpdate,
    indexBlockNext: nat, flagUpdated: bool, flagUpdateComplete: bool)

  const InitialState: UpdaterState := UpdaterState(None, None, ModeNone, 0, false, false)

  /**
    `eventInformation`: the mode and model are recorded, the device type derived, the
    response flag set, and the completion flag set once the mode is Complete; the next
    block index is left alone.
  */
  function OnInformation(s: UpdaterState, info: Information): (r: UpdaterState)
    ensures r.flagUpdated && r.modeUpdate == info.modeUpdate
    ensures r.modelNumber == Some(info.modelNumber)
    ensures r.deviceType == Some(DeviceTypeOf(info.modelNumber))
    ensures r.flagUpdateComplete <==> s.flagUpdateComplete || info.modeUpdate == Complete
    ensures r.indexBlockNext == s.indexBlockNext
  {
    UpdaterState(Some(info.modelNumber), Some(DeviceTypeOf(info.modelNumber)), info.modeUpdate,
                 s.indexBlockNext, true,
                 if info.modeUpdate == Complete then true else s.flagUpdateComplete)
  }

  /** `eventUpdateLocation`: the device names the next block and the response flag is set. */
  function OnUpdateLocation(s: UpdaterState, index: nat): (r: UpdaterState)
    ensures r.flagUpdated && r.indexBlockNext == index
    ensures r == s.(indexBlockNext := index, flagUpdated := true)
  {
    s.(indexBlockNext := index, flagUpdated := true)
  }

  function OnResponse(s: UpdaterState, resp: Response): UpdaterState
  {
    match resp
    case Info(info) => OnInformation(s, info)
    case UpdateLocation(index) => OnUpdateLocation(s, index)
  }

  /** The state after the handlers have run for each response in turn. */
  function OnResponses(s: UpdaterState, resps: seq<Response>): (r: UpdaterState)
    ensures resps != [] ==> r.flagUpdated
    decreases resps
  {
    if resps == [] then s
    else OnResponses(OnResponse(s, resps[0]), resps[1..])
  }

  // ----- the transfer loop -------------------------------------------------------------------

  /** Why the transfer loop ended. */
  datatype Outcome = NoResponse | IndexOver | UpdateComplete | StillRunning

  /** Bytes per block and the error count above which the transfer is abandoned. */
  const BlockSize: nat := 16
  const MaxErrors: nat := 30

  /** An update packet (`header.length = 18`): the block index as 2 bytes LE, then the block. */
  function Packet(index: nat, image: seq<Byte>): (p: seq<Byte>)
    requires BlockSize * index + BlockSize <= |image|
    ensures |p| == 18
  {
    [index % 0x100, (index / 0x100) % 0x100] + image[BlockSize * index .. BlockSize * index + BlockSize]
  }

  /** What one pass of the loop sends and decides once it acts. */
  datatype StepResult = StepResult(countError: nat, run: bool, halt: Option<Outcome>, packet: Option<seq<Byte>>)

  /**
    One pass of the loop that acts (a response arrived or the timer expired): the error
    count is cleared by a response and counts up otherwise, past 30 the loop is told to stop
    after this pass; a block beyond the image stops it at once, as does completion, and
    otherwise the block is sent.
  */
  function TransferStep(s: UpdaterState, countError: nat, image: seq<Byte>): (r: StepResult)
    ensures r.countError == if s.flagUpdated then 0 else countError + 1
    ensures r.halt.Some? <==> r.packet.None?
    ensures r.halt == Some(IndexOver) <==> BlockSize * s.indexBlockNext + BlockSize > |image|
    ensures r.halt == Some(UpdateComplete) <==>
              BlockSize * s.indexBlockNext + BlockSize <= |image| && s.flagUpdateComplete
    ensures r.packet.Some? ==> r.packet.value == Packet(s.indexBlockNext, image)
    ensures r.packet.Some? ==> (r.run <==> r.countError <= MaxErrors)
    ensures r.halt.Some? ==> !r.run
  {
    var count := if !s.flagUpdated then countError + 1 else 0;
    var run := !(!s.flagUpdated && count > MaxErrors);
    var index := s.indexBlockNext * BlockSize;
    if index + BlockSize > |image| then StepResult(count, false, Some(IndexOver), None)
    else if s.flagUpdateComplete then StepResult(count, false, Some(UpdateComplete), None)
    else StepResult(count, run, None, Some(Packet(s.indexBlockNext, image)))
  }

  /** One pass of the loop: the responses that arrived, and whether the timer expired. */
  datatype Tick = Tick(responses: seq<Response>, timerExpired: bool)

  /** What the loop does over `ticks`: the packets it sends and how it ends. */
  function Transfer(s: UpdaterState, countError: nat, image: seq<Byte>, ticks: seq<Tick>)
    : (r: (seq<seq<Byte>>, Outcome, UpdaterState))
    decreases |ticks|
  {
    if ticks == [] then ([], StillRunning, s)
    else
      var s1 := OnResponses(s, ticks[0].responses);
      if !(s1.flagUpdated || ticks[0].timerExpired) then Transfer(s1, countError, image, ticks[1..])
      else
        var step := TransferStep(s1, countError, image);
        if step.halt.Some? then ([], step.halt.value, s1)
        else
          var s2 := s1.(flagUpdated := false);
          if !step.run then ([step.packet.value], NoResponse, s2)
          else
            var rest := Transfer(s2, step.countError, image, ticks[1..]);
            ([step.packet.value] + rest.0, rest.1, rest.2)
  }

  class Updater {
    var modelNumber: Option<nat>
    var deviceType: Option<nat>
    var modeUpdate: ModeUpdate
    var indexBlockNext: nat
    var flagUpdated: bool
    var flagUpdateComplete: bool

    function State(): UpdaterState
      reads this
    {
      UpdaterState(modelNumber, deviceType, modeUpdate, indexBlockNext, flagUpdated, flagUpdateComplete)
    }

    /** Nothing known yet: no device, mode None, block 0, no flag set. */
    constructor()
      ensures State() == InitialState
    {
      modelNumber := None;
      deviceType := None;
      modeUpdate := ModeNone;
      indexBlockNext := 0;
      flagUpdated := false;
      flagUpdateComplete := false;
    }

    method EventInformation(info: Information)
      modifies this
      ensures State() == OnInformation(old(State()), info)
    {
      modeUpdate := info.modeUpdate;
      flagUpdated := true;
      modelNumber := Some(info.modelNumber);
      deviceType := Some(DeviceTypeOf(info.modelNumber));
      if info.modeUpdate == Complete {
        flagUpdateComplete := true;
      }
    }

    method EventUpdateLocation(index: nat)
      modifies this
      ensures State() == OnUpdateLocation(old(State()), index)
    {
      flagUpdated := true;
      indexBlockNext := index;
    }

    /** The handlers run for each response in turn. */
    method Deliver(resps: seq<Response>)
      modifies this
      ensures State() == OnResponses(old(State()), resps)
    {
      var i := 0;
      while i < |resps|
        invariant 0 <= i <= |resps|
        invariant OnResponses(State(), resps[i..]) == OnResponses(old(State()), resps)
      {
        assert resps[i..][1..] == resps[i + 1..];
        match resps[i] {
          case Info(info) => EventInformation(info);
          case UpdateLocation(index) => EventUpdateLocation(index);
        }
        i := i + 1;
      }
    }

    /**
      The transfer loop of `update`, from its start (error count 0, running), over the passes
      `ticks`; a pass that neither follows a response nor finds the timer expired does nothing.
    */
    method RunTransfer(image: seq<Byte>, ticks: seq<Tick>) returns (packets: seq<seq<Byte>>, outcome: Outcome)
      modifies this
      ensures (packets, outcome, State()) == Transfer(old(State()), 0, image, ticks)
    {
      var countError := 0;
      var flagRun := true;
      packets := [];
      outcome := StillRunning;
      ghost var spec := Transfer(State(), 0, image, ticks);
      var i := 0;
      assert ticks[0..] == ticks;
      assert [] + spec.0 == spec.0;
      while flagRun && i < |ticks|
        invariant 0 <= i <= |ticks|
        invariant flagRun ==> outcome == StillRunning
        invariant flagRun ==> spec == Prepend(packets, Transfer(State(), countError, image, ticks[i..]))
        invariant !flagRun ==> spec == (packets, outcome, State())
        decreases |ticks| - i, flagRun
      {
        ghost var sent := packets;
        var packet;
        countError, flagRun, packet, outcome := TransferPass(image, ticks, i, countError);
        packets := packets + packet;
        if flagRun {
          PrependTwice(sent, packet, Transfer(State(), countError, image, ticks[i + 1..]));
        }
        i := i + 1;
      }
      assert flagRun ==> ticks[i..] == [] && packets + [] == packets;
    }

    /**
      One pass of the loop over the replies of `ticks[i]`: the packet it sends, if any, and
      whether the loop goes on.
    */
    method TransferPass(image: seq<Byte>, ticks: seq<Tick>, i: nat, countError: nat)
      returns (countError': nat, flagRun: bool, packet: seq<seq<Byte>>, outcome: Outcome)
      requires i < |ticks|
      modifies this
      ensures |packet| <= 1
      ensures flagRun ==> outcome == StillRunning
      ensures flagRun ==> Transfer(old(State()), countError, image, ticks[i..])
                          == Prepend(packet, Transfer(State(), countError', image, ticks[i + 1..]))
      ensures !flagRun ==> Transfer(old(State()), countError, image, ticks[i..]) == (packet, outcome, State())
    {
      ghost var here := Transfer(State(), countError, image, ticks[i..]);
      assert ticks[i..][0] == ticks[i] && ticks[i..][1..] == ticks[i + 1..];
      ghost var s0 := State();
      Deliver(ticks[i].responses);
      ghost var s1 := State();
      assert s1 == OnResponses(s0, ticks[i].responses);
      countError', flagRun, packet, outcome := countError, true, [], StillRunning;
      if flagUpdated || ticks[i].timerExpired {
        var step := TransferStep(State(), countError, image);
        countError' := step.countError;
        flagRun := step.run;
        if step.halt.Some? {
          outcome := step.halt.value;
          assert here == ([], outcome, s1);
        } else {
          packet := [step.packet.value];
          flagUpdated := false;
          assert State() == s1.(flagUpdated := false);
          if !flagRun {
            outcome := NoResponse;
          }
        }
      } else {
        assert here == Transfer(s1, countError, image, ticks[i + 1..]);
        assert [] + here.0 == here.0;
      }
    }
  }

  /** A loop result with `packets` sent before it. */
  function Prepend(packets: seq<seq<Byte>>, r: (seq<seq<Byte>>, Outcome, UpdaterState)): (seq<seq<Byte>>, Outcome, UpdaterState)
  {
    (packets + r.0, r.1, r.2)
  }

  lemma PrependTwice(a: seq<seq<Byte>>, b: seq<seq<Byte>>, r: (seq<seq<Byte>>, Outcome, UpdaterState))
    ensures Prepend(a, Prepend(b, r)) == Prepend(a + b, r)
  {
    assert a + (b + r.0) == a + b + r.0;
  }

  // ----- properties of the transfer ------------------------------------------------------------

  /** A packet names its block in its first two bytes (modulo 2^16) and carries exactly that block. */
  lemma PacketLayout(index: nat, image: seq<Byte>)
    requires BlockSize * index + BlockSize <= |image|
    ensures var p := Packet(index, image);
      && LittleEndian(p[..2]) == index % 0x1_0000
      && p[2..] == image[BlockSize * index .. BlockSize * index + BlockSize]
  {
    var p := Packet(index, image);
    var q, r := index / 0x1_0000, index % 0x1_0000;
    var hi, lo := r / 0x100, r % 0x100;
    assert index == 0x1_0000 * q + r && r == 0x100 * hi + lo && hi < 0x100;
    DivMod256(index, 0x100 * q + hi, lo);
    DivMod256(0x100 * q + hi, q, hi);
    assert p[..2] == [lo, hi] && [lo, hi][1..][1..] == [];
  }

  /** Division by 256 is determined by quotient and remainder. */
  lemma DivMod256(n: int, q: int, r: int)
    requires 0 <= r < 0x100 && n == 0x100 * q + r
    ensures n / 0x100 == q && n % 0x100 == r
  {
  }

  /** Every packet the loop sends is a whole block of the image inside its bounds. */
  lemma {:induction false} PacketsInBounds(s: UpdaterState, countError: nat, image: seq<Byte>, ticks: seq<Tick>)
    ensures forall p :: p in Transfer(s, countError, image, ticks).0 ==>
              exists index: nat :: BlockSize * index + BlockSize <= |image| && p == Packet(index, image)
    decreases |ticks|
  {
    if ticks != [] {
      var s1 := OnResponses(s, ticks[0].responses);
      if !(s1.flagUpdated || ticks[0].timerExpired) {
        PacketsInBounds(s1, countError, image, ticks[1..]);
      } else {
        var step := TransferStep(s1, countError, image);
        if step.halt.None? && step.run {
          PacketsInBounds(s1.(flagUpdated := false), step.countError, image, ticks[1..]);
        }
      }
    }
  }

  /**
    A silent device is given up on: with no response at all, after a packet has gone
    unanswered, `31 - countError` expiries of the timer end the loop with "No response", each
    of them resending the same block.
  */
  lemma {:induction false} SilenceGivesUp(s: UpdaterState, countError: nat, image: seq<Byte>, ticks: seq<Tick>)
    requires !s.flagUpdated && !s.flagUpdateComplete
    requires BlockSize * s.indexBlockNext + BlockSize <= |image|
    requires countError <= MaxErrors && |ticks| + countError > MaxErrors
    requires forall i :: 0 <= i < |ticks| ==> ticks[i] == Tick([], true)
    ensures var r := Transfer(s, countError, image, ticks);
      && r.1 == NoResponse
      && |r.0| == MaxErrors + 1 - countError
      && forall p :: p in r.0 ==> p == Packet(s.indexBlockNext, image)
    decreases |ticks|
  {
    var t := ticks[0];
    assert t == Tick([], true);
    assert OnResponses(s, t.responses) == s;
    var step := TransferStep(s, countError, image);
    assert s.(flagUpdated := false) == s;
    if countError < MaxErrors {
      SilenceGivesUp(s, countError + 1, image, ticks[1..]);
    }
  }

  /** The block index the device asks for is what the next packet carries. */
  lemma ResponseSelectsBlock(s: UpdaterState, countError: nat, image: seq<Byte>, index: nat, ticks: seq<Tick>)
    requires !s.flagUpdateComplete && BlockSize * index + BlockSize <= |image|
    ensures var r := Transfer(s, countError, image, [Tick([UpdateLocation(index)], false)] + ticks);
      |r.0| > 0 && r.0[0] == Packet(index, image)
  {
    var t := Tick([UpdateLocation(index)], false);
    assert ([t] + ticks)[1..] == ticks;
    assert OnResponses(s, t.responses) == OnUpdateLocation(s, index);
  }
}
