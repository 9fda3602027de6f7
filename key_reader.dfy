/** The EM4100 key-tag reader on a serial port (src/util/key_reader.py): opening and
    identifying readers, choosing one, reading tag readouts from the serial buffer and
    turning the last readout into the nine-digit Aptus tag id. The serial port and the
    attached hardware are modelled; bytes are taken as already-decoded characters. */
module KeyReader {
  import opened Wrappers
  import opened Text

  /** What a complete readout line starts with. */
  const READOUT_PREFIX: string := "DECODED: MANCHESTER="
  /** What the reader answers the identification request "?\n" with. */
  const ECHO_PREFIX: string := "EM4100 Reader"
  const APTUS_MODULUS: nat := 1000000000
  const APTUS_DIGITS: nat := 9

  datatype ReaderError =
    | NoReaderFound
    | KeyReaderInitError(message: string)
    | KeyReaderNeedsRebootError(message: string)

  /** A serial device as the hardware behaves: whether opening it fails (the port has
      hung or is gone) and the line it answers the identification request with
      ("" when it does not answer within the timeout). */
  datatype Device = Device(hangs: bool, identification: string)

  /** An open serial connection. `input` holds what has arrived and not been read;
      `disconnected` makes `in_waiting` fail. */
  class SerialPort {
    const name: string
    const identification: string
    var timeout: real
    var input: string
    var disconnected: bool
    var written: seq<string>
    var isOpen: bool

    /** serial.Serial(port=name, baudrate=115200, timeout=2) */
    constructor(name: string, identification: string)
      ensures this.name == name && this.identification == identification
      ensures timeout == 2.0 && input == [] && !disconnected && written == [] && isOpen
    {
      this.name := name;
      this.identification := identification;
      timeout := 2.0;
      input := [];
      disconnected := false;
      written := [];
      isOpen := true;
    }
  }

  /** "0x" followed by exactly ten hexadecimal digits: group 1 of the readout pattern. */
  predicate IsTagReadout(t: string)
  {
    |t| == 12 && t[..2] == "0x" && forall i | 2 <= i < 12 :: IsHexDigit(t[i])
  }

  /** re.match(r"^DECODED: MANCHESTER=(0x[a-fA-F0-9]{10})$", line), group 1. Python's
      `$` also matches just before a newline that ends the string. */
  function MatchReadout(line: string): (r: Option<string>)
    ensures r.Some? ==> IsTagReadout(r.value)
  {
    var n := |READOUT_PREFIX|;
    if (|line| == n + 12 || (|line| == n + 13 && line[n + 12] == '\n')) &&
       line[..n] == READOUT_PREFIX && IsTagReadout(line[n..n + 12])
    then Some(line[n..n + 12])
    else None
  }

  /** A line matches exactly when it is the prefix and a tag, with or without one
      final newline. */
  lemma MatchReadoutExactly(line: string, t: string)
    ensures MatchReadout(line) == Some(t) <==>
      IsTagReadout(t) && (line == READOUT_PREFIX + t || line == READOUT_PREFIX + t + "\n")
  {
    var n := |READOUT_PREFIX|;
    if line == READOUT_PREFIX + t || line == READOUT_PREFIX + t + "\n" {
      assert line[..n] == READOUT_PREFIX;
      if |t| == 12 {
        assert line[n..n + 12] == t;
      }
    }
    if MatchReadout(line) == Some(t) {
      if |line| == n + 12 {
        assert line == line[..n] + line[n..n + 12];
      } else {
        assert line == line[..n] + line[n..n + 12] + [line[n + 12]];
      }
    }
  }

  /** The tags of the matching lines, in order. */
  function Readouts(lines: seq<string>): (r: seq<string>)
    ensures forall i | 0 <= i < |r| :: IsTagReadout(r[i])
    ensures |r| > 0 <==> exists i | 0 <= i < |lines| :: MatchReadout(lines[i]).Some?
  {
    if lines == [] then []
    else
      var last := lines[|lines| - 1];
      var front := lines[..|lines| - 1];
      assert forall i | 0 <= i < |front| :: front[i] == lines[i];
      Readouts(front) + (if MatchReadout(last).Some? then [MatchReadout(last).value] else [])
  }

  /** A readout that is followed only by lines that do not match is the last one. */
  lemma {:induction false} LastReadoutWins(before: seq<string>, t: string, after: seq<string>)
    requires IsTagReadout(t)
    requires forall i | 0 <= i < |after| :: MatchReadout(after[i]).None?
    ensures var r := Readouts(before + [READOUT_PREFIX + t] + after);
            |r| > 0 && r[|r| - 1] == t
    decreases |after|
  {
    MatchReadoutExactly(READOUT_PREFIX + t, t);
    if after == [] {
      assert (before + [READOUT_PREFIX + t] + after)[..|before|] == before;
    } else {
      var all := before + [READOUT_PREFIX + t] + after;
      var front := after[..|after| - 1];
      assert all[..|all| - 1] == before + [READOUT_PREFIX + t] + front;
      assert all[|all| - 1] == after[|after| - 1];
      LastReadoutWins(before, t, front);
    }
  }

  /** The identification answer is accepted: non-empty and starting with the reader's name. */
  predicate EchoOk(reply: string)
  {
    |reply| > 0 && StartsWith(reply, ECHO_PREFIX)
  }

  /** int(tag, 16) % 10**9, formatted with at least nine digits. */
  function AptusTagId(t: string): (r: string)
    requires IsTagReadout(t)
    ensures |r| == APTUS_DIGITS && AllAsciiDigits(r)
    ensures DecimalValue(r) == HexValue(t[2..]) % APTUS_MODULUS
  {
    var n := HexValue(t[2..]) % APTUS_MODULUS;
    assert Pow10(9) == APTUS_MODULUS;
    DecimalLength(n, 9);
    ZeroPadValue(n, APTUS_DIGITS);
    ZeroPad(n, APTUS_DIGITS)
  }

  class EM4100 {
    const serialDevice: string
    const com: SerialPort
    var lastTagId: Option<string>

    constructor(serialDevice: string, com: SerialPort)
      ensures this.serialDevice == serialDevice && this.com == com && lastTagId.None?
    {
      this.serialDevice := serialDevice;
      this.com := com;
      lastTagId := None;
    }

    /** The last tag id, when there is one, is a readout. */
    predicate Valid()
      reads this
    {
      lastTagId.Some? ==> IsTagReadout(lastTagId.value)
    }

    /** check_echo: ask the reader to identify itself with a short timeout. On success
        the previous timeout is restored; on failure the short one stays. */
    method CheckEcho() returns (r: Result<(), ReaderError>)
      modifies com
      ensures r.Ok? <==> EchoOk(com.identification)
      ensures r.Err? ==> r.error.KeyReaderInitError?
      ensures com.timeout == if r.Ok? then old(com.timeout) else 0.2
      ensures com.input == [] && com.written == old(com.written) + ["?\n"]
      ensures com.isOpen == old(com.isOpen) && com.disconnected == old(com.disconnected)
    {
      var previous := com.timeout;
      com.timeout := 0.2;
      com.input := [];
      com.written := com.written + ["?\n"];
      var response := com.identification;
      if |response| == 0 {
        return Err(KeyReaderInitError("Got no identification reponse from reader"));
      }
      if !StartsWith(response, ECHO_PREFIX) {
        return Err(KeyReaderInitError("Wrong response from reader: " + response));
      }
      com.timeout := previous;
      return Ok(());
    }

    /** tag_was_read: drain the waiting input, split it into lines and remember the
        last complete readout. */
    method TagWasRead() returns (r: Result<bool, ReaderError>)
      requires Valid()
      modifies this, com
      ensures Valid()
      ensures com.timeout == old(com.timeout) && com.written == old(com.written) &&
              com.isOpen == old(com.isOpen) && com.disconnected == old(com.disconnected)
      ensures old(com.disconnected) ==>
        r.Err? && r.error.KeyReaderNeedsRebootError? && lastTagId == old(lastTagId) && com.input == old(com.input)
      ensures !old(com.disconnected) && old(com.input) == [] ==>
        r == Ok(false) && lastTagId == old(lastTagId) && com.input == []
      ensures !old(com.disconnected) && old(com.input) != [] ==>
        var found := Readouts(Split(old(com.input), "\r\n"));
        com.input == [] && r == Ok(|found| > 0) &&
        lastTagId == if |found| > 0 then Some(found[|found| - 1]) else old(lastTagId)
    {
      if com.disconnected {
        return Err(KeyReaderNeedsRebootError("The key reader has been disconnected"));
      }
      if |com.input| == 0 {
        return Ok(false);
      }
      var data := com.input;
      com.input := [];
      var lines := Split(data, "\r\n");
      var completeReadouts: seq<string> := [];
      var i := 0;
      while i < |lines|
        invariant 0 <= i <= |lines|
        invariant completeReadouts == Readouts(lines[..i])
      {
        assert lines[..i + 1][..i] == lines[..i];
        var m := MatchReadout(lines[i]);
        if m.Some? {
          completeReadouts := completeReadouts + [m.value];
        }
        i := i + 1;
      }
      assert lines[..i] == lines;
      if |completeReadouts| == 0 {
        return Ok(false);
      }
      lastTagId := Some(completeReadouts[|completeReadouts| - 1]);
      return Ok(true);
    }

    /** get_aptus_tag_id; without a readout, int(None, 16) raises. */
    function GetAptusTagId(): (r: Option<string>)
      requires Valid()
      reads this
      ensures r.None? <==> lastTagId.None?
      ensures r.Some? ==> |r.value| == APTUS_DIGITS && AllAsciiDigits(r.value) &&
                          DecimalValue(r.value) == HexValue(lastTagId.value[2..]) % APTUS_MODULUS
    {
      if lastTagId.None? then None else Some(AptusTagId(lastTagId.value))
    }

    method Close()
      modifies com
      ensures !com.isOpen && com.input == old(com.input) && com.timeout == old(com.timeout)
    {
      com.isOpen := false;
    }
  }

  /** A device that cannot be opened: not there, or hung. */
  predicate Hangs(attached: map<string, Device>, device: string)
  {
    device !in attached || attached[device].hangs
  }

  /** A device that opens and identifies itself as a reader. */
  predicate Usable(attached: map<string, Device>, device: string)
  {
    !Hangs(attached, device) && EchoOk(attached[device].identification)
  }

  /** EM4100(serial_device): open the port, wait for the start-up output, set a zero
      timeout and check the identification. */
  method Connect(device: string, attached: map<string, Device>) returns (r: Result<EM4100, ReaderError>)
    ensures r.Err? <==> !Usable(attached, device)
    ensures r.Err? ==> (r.error.KeyReaderNeedsRebootError? <==> Hangs(attached, device))
    ensures r.Err? ==> r.error.KeyReaderNeedsRebootError? || r.error.KeyReaderInitError?
    ensures r.Ok? ==> fresh(r.value) && fresh(r.value.com) && r.value.Valid()
    ensures r.Ok? ==> r.value.serialDevice == device && r.value.lastTagId.None?
    ensures r.Ok? ==> r.value.com.isOpen && r.value.com.timeout == 0.0 && r.value.com.input == []
  {
    if Hangs(attached, device) {
      return Err(KeyReaderNeedsRebootError("Serial port to key reader seems to have hanged. Perhaps unplug it and plug it in again."));
    }
    var com := new SerialPort(device, attached[device].identification);
    com.timeout := 0.0;
    var reader := new EM4100(device, com);
    var echo := reader.CheckEcho();
    if echo.Err? {
      return Err(echo.error);
    }
    return Ok(reader);
  }

  /** The non-empty lines of the device-listing script's output. */
  function DeviceNames(output: string): seq<string>
  {
    NonEmpty(Split(output, "\n"))
  }

  /** The lines that are not empty, in order: every non-empty line is kept. */
  function NonEmpty(lines: seq<string>): (r: seq<string>)
    ensures forall i | 0 <= i < |r| :: |r[i]| > 0
    ensures forall s :: s in r <==> s in lines && |s| > 0
  {
    if lines == [] then []
    else
      var front := lines[..|lines| - 1];
      assert lines == front + [lines[|lines| - 1]];
      NonEmpty(front) + (if |lines[|lines| - 1]| > 0 then [lines[|lines| - 1]] else [])
  }

  /** The devices that become readers, in listing order. */
  function Accepted(devices: seq<string>, attached: map<string, Device>): seq<string>
  {
    if devices == [] then []
    else
      var last := devices[|devices| - 1];
      Accepted(devices[..|devices| - 1], attached) + (if Usable(attached, last) then [last] else [])
  }

  function Names(readers: seq<EM4100>): seq<string>
  {
    seq(|readers|, i requires 0 <= i < |readers| => readers[i].serialDevice)
  }

  /** The readers own distinct, open connections. */
  predicate Independent(readers: seq<EM4100>)
    reads set i | 0 <= i < |readers| :: readers[i]
    reads set i | 0 <= i < |readers| :: readers[i].com
  {
    (forall i | 0 <= i < |readers| :: readers[i].com.isOpen && readers[i].Valid()) &&
    (forall i, j | 0 <= i < j < |readers| :: readers[i].com != readers[j].com)
  }

  lemma AcceptedStep(devices: seq<string>, i: nat, attached: map<string, Device>)
    requires i < |devices|
    ensures Accepted(devices[..i + 1], attached) ==
      Accepted(devices[..i], attached) + (if Usable(attached, devices[i]) then [devices[i]] else [])
  {
    assert devices[..i + 1][..i] == devices[..i];
  }

  lemma IndependentAppend(readers: seq<EM4100>, reader: EM4100)
    requires Independent(readers) && reader.com.isOpen && reader.Valid()
    requires forall k | 0 <= k < |readers| :: readers[k].com != reader.com
    ensures Independent(readers + [reader])
    ensures Names(readers + [reader]) == Names(readers) + [reader.serialDevice]
  {
  }

  /** The loop of get_devices over the listed devices: a reader for every device that
      answers; one that does not answer is skipped, one that cannot be opened aborts. */
  method OpenReaders(devices: seq<string>, attached: map<string, Device>) returns (r: Result<seq<EM4100>, ReaderError>)
    ensures r.Err? <==> exists i | 0 <= i < |devices| :: Hangs(attached, devices[i])
    ensures r.Err? ==> r.error.KeyReaderNeedsRebootError?
    ensures r.Ok? ==> Names(r.value) == Accepted(devices, attached)
    ensures r.Ok? ==> Independent(r.value)
    ensures r.Ok? ==> forall i | 0 <= i < |r.value| :: fresh(r.value[i]) && fresh(r.value[i].com)
  {
    var readers: seq<EM4100> := [];
    var i := 0;
    while i < |devices|
      invariant 0 <= i <= |devices|
      invariant forall k | 0 <= k < i :: !Hangs(attached, devices[k])
      invariant Names(readers) == Accepted(devices[..i], attached)
      invariant Independent(readers)
      invariant forall k | 0 <= k < |readers| :: fresh(readers[k]) && fresh(readers[k].com)
    {
      AcceptedStep(devices, i, attached);
      var c := Connect(devices[i], attached);
      if c.Err? {
        if c.error.KeyReaderNeedsRebootError? {
          assert Hangs(attached, devices[i]);
          return Err(c.error);
        }
      } else {
        var reader := c.value;
        IndependentAppend(readers, reader);
        readers := readers + [reader];
      }
      i := i + 1;
    }
    assert devices[..i] == devices;
    return Ok(readers);
  }

  /** EM4100.get_devices, given the output of the device-listing script. */
  method GetDevices(output: string, attached: map<string, Device>) returns (r: Result<seq<EM4100>, ReaderError>)
    ensures r.Err? <==> exists i | 0 <= i < |DeviceNames(output)| :: Hangs(attached, DeviceNames(output)[i])
    ensures r.Err? ==> r.error.KeyReaderNeedsRebootError?
    ensures r.Ok? ==> Names(r.value) == Accepted(DeviceNames(output), attached)
    ensures r.Ok? ==> Independent(r.value)
    ensures r.Ok? ==> forall i | 0 <= i < |r.value| :: fresh(r.value[i]) && fresh(r.value[i].com)
  {
    r := OpenReaders(DeviceNames(output), attached);
  }

  /** The loop of get_reader: keep the first reader and close every other one. */
  method ChooseReader(readers: seq<EM4100>) returns (r: Result<EM4100, ReaderError>)
    requires Independent(readers)
    modifies set i | 0 <= i < |readers| :: readers[i].com
    ensures r.Err? <==> readers == []
    ensures r.Err? ==> r.error == NoReaderFound
    ensures r.Ok? ==> r.value == readers[0] && r.value.com.isOpen
    ensures forall i | 1 <= i < |readers| :: !readers[i].com.isOpen
  {
    if |readers| == 0 {
      return Err(NoReaderFound);
    }
    var i := 1;
    while i < |readers|
      invariant 1 <= i <= |readers|
      invariant readers[0].com.isOpen
      invariant forall k | 1 <= k < i :: !readers[k].com.isOpen
    {
      readers[i].Close();
      i := i + 1;
    }
    return Ok(readers[0]);
  }

  /** KeyReader.get_reader for the EM4100 readers. */
  method GetReader(output: string, attached: map<string, Device>) returns (r: Result<EM4100, ReaderError>)
    ensures r.Err? <==>
      (exists i | 0 <= i < |DeviceNames(output)| :: Hangs(attached, DeviceNames(output)[i])) ||
      Accepted(DeviceNames(output), attached) == []
    ensures r.Ok? ==> fresh(r.value) && r.value.com.isOpen && r.value.Valid()
    ensures r.Ok? ==> r.value.serialDevice == Accepted(DeviceNames(output), attached)[0]
  {
    var devices := GetDevices(output, attached);
    if devices.Err? {
      return Err(devices.error);
    }
    r := ChooseReader(devices.value);
    if r.Ok? {
      assert Names(devices.value)[0] == r.value.serialDevice;
    }
  }
}
