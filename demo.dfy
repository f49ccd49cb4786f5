/**
 * The demonstration form (`QuantisDemoForm`): on load it reports the devices found and
 * picks the first one; "Generate" reads random bytes and shows them as hexadecimal.
 * The text boxes are string fields, the data group's enabled flag a boolean field and
 * the size spinner an integer field.
 */
module QuantisDemo {
  import opened Wrappers
  import opened Ints
  import opened Numerals
  import opened QuantisWrapper

  /** `Environment.NewLine` on Windows. */
  const NewLine: string := "\r\n"

  /** The bounds and the initial value of the size spinner. */
  const MinRequestedSize: int := 1
  const MaxRequestedSize: int := 1000
  const InitialRequestedSize: int := 250

  const NoDeviceText: string := "ERROR: No Quantis found!" + NewLine

  // ---------------------------------------------------------------------------
  // Hexadecimal rendering of the random buffer

  /** A character the `x2` format can write: a digit or a lower-case 'a'-'f'. */
  predicate IsLowerHexDigit(c: char)
  {
    '0' <= c <= '9' || 'a' <= c <= 'f'
  }

  /** `AppendFormat("{0:x2} ", b)`: two lower-case digits and a space, which read
      as the displayed chunk once upper-cased. */
  function LowerHexByte(b: byte): (s: string)
    ensures |s| == 3 && IsLowerHexDigit(s[0]) && IsLowerHexDigit(s[1]) && s[2] == ' '
    ensures ToUpper(s) == HexByte(b)
  {
    [LowerDigit(b as nat / 16), LowerDigit(b as nat % 16), ' ']
  }

  /** What the `foreach` loop has built in the `StringBuilder` after `bs`. */
  function LowerHexText(bs: seq<byte>): (s: string)
    ensures |s| == 3 * |bs|
    ensures forall k :: 0 <= k < |s| ==> IsLowerHexDigit(s[k]) || s[k] == ' '
  {
    if |bs| == 0 then "" else LowerHexText(bs[..|bs| - 1]) + LowerHexByte(bs[|bs| - 1])
  }

  /** `Char.ToUpper` on the characters that can occur here (ASCII letters). */
  function UpperChar(c: char): char
  {
    if 'a' <= c <= 'z' then (c as int - ('a' as int - 'A' as int)) as char else c
  }

  /** `String.ToUpper`. */
  function ToUpper(s: string): (r: string)
    ensures |r| == |s|
    ensures forall i :: 0 <= i < |s| ==> r[i] == UpperChar(s[i])
  {
    seq(|s|, i requires 0 <= i < |s| => UpperChar(s[i]))
  }

  /** The displayed chunk for one byte: high digit, low digit (upper case), space. */
  function HexByte(b: byte): string
  {
    [Digit(b as nat / 16), Digit(b as nat % 16), ' ']
  }

  /** The text the buffer box shows for a successful read of `bs`. */
  function HexText(bs: seq<byte>): string
  {
    if |bs| == 0 then "" else HexText(bs[..|bs| - 1]) + HexByte(bs[|bs| - 1])
  }

  /** The characters that may appear in the hexadecimal rendering. */
  predicate IsHexTextChar(c: char)
  {
    '0' <= c <= '9' || 'A' <= c <= 'F' || c == ' '
  }

  lemma {:induction false} HexTextLength(bs: seq<byte>)
    ensures |HexText(bs)| == 3 * |bs|
  {
    if |bs| > 0 {
      HexTextLength(bs[..|bs| - 1]);
    }
  }

  /** Chunk `i` of the rendering is the rendering of byte `i`. */
  lemma {:induction false} HexTextChunk(bs: seq<byte>, i: nat)
    requires i < |bs|
    ensures |HexText(bs)| == 3 * |bs|
    ensures HexText(bs)[3 * i .. 3 * i + 3] == HexByte(bs[i])
  {
    HexTextLength(bs);
    var init := bs[..|bs| - 1];
    HexTextLength(init);
    if i < |bs| - 1 {
      HexTextChunk(init, i);
      assert HexText(bs)[3 * i .. 3 * i + 3] == HexText(init)[3 * i .. 3 * i + 3];
    } else {
      assert HexText(bs)[3 * i .. 3 * i + 3] == HexByte(bs[i]);
    }
  }

  /** Only digits, upper-case 'A'-'F' and spaces appear in the rendering. */
  lemma {:induction false} HexTextAlphabet(bs: seq<byte>)
    ensures forall k :: 0 <= k < |HexText(bs)| ==> IsHexTextChar(HexText(bs)[k])
  {
    if |bs| > 0 {
      var init := bs[..|bs| - 1];
      HexTextAlphabet(init);
      var b := bs[|bs| - 1];
      assert forall k :: 0 <= k < 3 ==> IsHexTextChar(HexByte(b)[k]);
    }
  }

  /** Reads a rendering back, three characters per byte. */
  function FromHexText(s: string): Option<seq<byte>>
    decreases |s|
  {
    if |s| == 0 then Some([])
    else if |s| < 3 then None
    else
      var hi, lo := DigitValue(s[|s| - 3]), DigitValue(s[|s| - 2]);
      if hi < 16 && lo < 16 && s[|s| - 1] == ' ' then
        match FromHexText(s[..|s| - 3])
        case None => None
        case Some(init) => Some(init + [(hi * 16 + lo) as byte])
      else None
  }

  /** The rendering loses nothing: reading it back gives the buffer. */
  lemma {:induction false} HexTextRoundTrip(bs: seq<byte>)
    ensures FromHexText(HexText(bs)) == Some(bs)
  {
    if |bs| > 0 {
      var init, b := bs[..|bs| - 1], bs[|bs| - 1];
      assert HexText(bs) == HexText(init) + HexByte(b);
      HexTextRoundTrip(init);
      FromHexTextSnoc(HexText(init), init, b);
      assert init + [b] == bs;
    }
  }

  /** Reading back one more rendered byte extends the decoded buffer by that byte. */
  lemma FromHexTextSnoc(t: string, init: seq<byte>, b: byte)
    requires FromHexText(t) == Some(init)
    ensures FromHexText(t + HexByte(b)) == Some(init + [b])
  {
    var u := t + HexByte(b);
    assert u[..|u| - 3] == t;
    var hi, lo := b as nat / 16, b as nat % 16;
    assert DigitValue(u[|u| - 3]) == hi && DigitValue(u[|u| - 2]) == lo && u[|u| - 1] == ' ';
    assert (hi * 16 + lo) as byte == b;
  }

  /** Different buffers are shown as different texts. */
  lemma HexTextInjective(a: seq<byte>, b: seq<byte>)
    requires HexText(a) == HexText(b)
    ensures a == b
  {
    HexTextRoundTrip(a);
    HexTextRoundTrip(b);
  }

  /** Upper-casing the built text chunk by chunk gives the displayed rendering. */
  lemma {:induction false} UpperLowerHexText(bs: seq<byte>)
    ensures ToUpper(LowerHexText(bs)) == HexText(bs)
  {
    if |bs| > 0 {
      var init, b := bs[..|bs| - 1], bs[|bs| - 1];
      UpperLowerHexText(init);
      assert ToUpper(LowerHexText(init) + LowerHexByte(b))
          == ToUpper(LowerHexText(init)) + ToUpper(LowerHexByte(b));
    }
  }

  /** The rendering loop of `buttonGenerate_Click`, then `ToUpper`. */
  method HexDump(buffer: seq<byte>) returns (text: string)
    ensures text == HexText(buffer)
    ensures |text| == 3 * |buffer|
  {
    var hex := "";
    var i := 0;
    while i < |buffer|
      invariant 0 <= i <= |buffer|
      invariant hex == LowerHexText(buffer[..i])
    {
      assert buffer[..i + 1][..i] == buffer[..i];
      hex := hex + LowerHexByte(buffer[i]);
      i := i + 1;
    }
    assert buffer[..i] == buffer;
    UpperLowerHexText(buffer);
    HexTextLength(buffer);
    text := ToUpper(hex);
  }

  // ---------------------------------------------------------------------------
  // Device selection and the information text

  /** The device the form picks: PCI #0 if any PCI device is counted, else USB #0
      if any USB device is, else none. */
  function SelectDevice(countPci: int, countUsb: int): (r: Option<DeviceType>)
    ensures r == Some(Pci) <==> countPci > 0
    ensures r == Some(Usb) <==> countPci <= 0 && countUsb > 0
    ensures r == None <==> countPci <= 0 && countUsb <= 0
  {
    if countPci > 0 then Some(Pci) else if countUsb > 0 then Some(Usb) else None
  }

  /** The library version and the two counts, as written before a device is chosen;
      each parenthesised piece is one `string.Concat` appended to the box. */
  function FoundText(libVersion: string, countPci: int32, countUsb: int32): string
  {
    ("Using Quantis library version " + libVersion + NewLine)
    + ("Found: " + NewLine)
    + ("   - " + Decimal(countPci as int) + " Quantis PCI/PCIe" + NewLine)
    + ("   - " + Decimal(countUsb as int) + " Quantis USB" + NewLine)
    + NewLine
  }

  /** The found-devices text opens with the version line and closes with an empty line. */
  lemma FoundTextShape(libVersion: string, countPci: int32, countUsb: int32)
    ensures var s, first := FoundText(libVersion, countPci, countUsb),
                            "Using Quantis library version " + libVersion + NewLine;
      && |first| <= |s| && s[..|first|] == first
      && |s| >= 4 && s[|s| - 4..] == NewLine + NewLine
  {
    AppendParts("Using Quantis library version " + libVersion + NewLine,
                "Found: " + NewLine,
                "   - " + Decimal(countPci as int) + " Quantis PCI/PCIe" + NewLine,
                "   - " + Decimal(countUsb as int) + " Quantis USB");
  }

  /** The first and the last parts of a text assembled as `FoundText` does it. */
  lemma AppendParts(a: string, b: string, c: string, d: string)
    ensures var s := a + b + c + (d + NewLine) + NewLine;
      |a| <= |s| && s[..|a|] == a && |s| >= 4 && s[|s| - 4..] == NewLine + NewLine
  {
    var s := a + b + c + (d + NewLine) + NewLine;
    assert s == a + (b + c + d + (NewLine + NewLine));
  }

  /** The line naming the chosen device, as written once the selection is made. */
  function SelectionLine(deviceType: DeviceType, deviceNumber: uint32): string
  {
    (if deviceType == Pci then "Using PCI card #" else "Using USB device #")
    + NatToString(deviceNumber as nat, 10) + NewLine
  }

  /** What the `try` block of `Form1_Load` adds: the version in upper-case hex, the serial
      number and the manufacturer, or the error line if the version query throws (the
      version is queried before anything of the block is appended). */
  function DeviceInfoText(lib: Native, q: Quantis): string
    requires lib.Valid()
  {
    match q.GetBoardVersion(lib)
    case Fail(e) => "ERROR while retrieving Quantis information: " + e.Message() + NewLine
    case Ok(version) =>
      ("   core version:  " + NatToString(version as nat, 16) + NewLine)
      + ("   serial number: " + q.GetSerialNumber(lib) + NewLine)
      + ("   manufacturer: " + q.GetManufacturer(lib) + NewLine)
  }

  /** The first device of either family is announced as device #0. */
  lemma SelectionLineOfFirstDevice(deviceType: DeviceType)
    ensures SelectionLine(deviceType, 0)
      == (if deviceType == Pci then "Using PCI card #0" else "Using USB device #0") + NewLine
  {
    assert NatToString(0, 10) == "0";
  }

  /** When the version query fails, the block is the single error line carrying the
      native description; otherwise it opens with the version in upper-case hex. */
  lemma DeviceInfoTextShape(lib: Native, q: Quantis)
    requires lib.Valid()
    ensures var status, s := lib.getBoardVersion(q.deviceType, q.deviceNumber), DeviceInfoText(lib, q);
      && (status < 0 ==>
            s == "ERROR while retrieving Quantis information: "
                 + NativeFailure(lib, status).description + NewLine)
      && (status >= 0 ==>
            var core := "   core version:  " + NatToString(status as nat, 16) + NewLine;
            |core| <= |s| && s[..|core|] == core)
  {
    var status := lib.getBoardVersion(q.deviceType, q.deviceNumber);
    if status < 0 {
      assert q.GetBoardVersion(lib) == Fail(NativeFailure(lib, status));
    } else {
      assert q.GetBoardVersion(lib) == Ok(status);
      var core := "   core version:  " + NatToString(status as nat, 16) + NewLine;
      var rest := ("   serial number: " + q.GetSerialNumber(lib) + NewLine)
                  + ("   manufacturer: " + q.GetManufacturer(lib) + NewLine);
      assert DeviceInfoText(lib, q) == core + rest;
    }
  }

  class QuantisDemoForm {
    var deviceType: DeviceType
    var deviceNumber: uint32
    var infoText: string       // textBoxInfo.Text
    var bufferText: string     // textBoxBuffer.Text
    var dataEnabled: bool      // groupBoxData.Enabled
    var requestedSize: int     // numericUpDown1.Value

    ghost predicate Valid()
      reads this
    {
      MinRequestedSize <= requestedSize <= MaxRequestedSize
    }

    constructor ()
      ensures Valid()
      ensures deviceType == Pci && deviceNumber == 0
      ensures infoText == "" && bufferText == "" && dataEnabled
      ensures requestedSize == InitialRequestedSize
    {
      deviceType, deviceNumber := Pci, 0;
      infoText, bufferText := "", "";
      dataEnabled := true;
      requestedSize := InitialRequestedSize;
    }

    /** The user moves the spinner; the control keeps its value within its bounds. */
    method SetRequestedSize(v: int)
      requires MinRequestedSize <= v <= MaxRequestedSize
      modifies this`requestedSize
      ensures Valid() && requestedSize == v
    {
      requestedSize := v;
    }

    /** `Form1_Load`; `libVersion` is the text of the library version number. */
    method Load(lib: Native, libVersion: string)
      requires lib.Valid()
      modifies this`infoText, this`deviceType, this`deviceNumber, this`dataEnabled
      ensures var countPci, countUsb := Count(lib, Pci), Count(lib, Usb);
        var selected := SelectDevice(countPci as int, countUsb as int);
        match selected
        case None =>
          && infoText == NoDeviceText
          && !dataEnabled
          && deviceType == old(deviceType) && deviceNumber == old(deviceNumber)
        case Some(t) =>
          && deviceType == t && deviceNumber == 0
          && dataEnabled == old(dataEnabled)
          && infoText == FoundText(libVersion, countPci, countUsb)
                         + SelectionLine(t, 0) + DeviceInfoText(lib, Quantis(t, 0))
    {
      var countPci, countUsb := ShowCounts(lib, libVersion);
      var selected := SelectFirst(countPci, countUsb);
      if !selected {
        return;
      }
      ghost var chosen := infoText;
      ShowDeviceInfo(lib);
      assert infoText == chosen + DeviceInfoText(lib, Quantis(deviceType, 0));
    }

    /** The selection part of `Form1_Load`: the first PCI device if any is present, else the
        first USB device, else the no-device text replaces the box and data are disabled. */
    method SelectFirst(countPci: int32, countUsb: int32) returns (selected: bool)
      modifies this`infoText, this`deviceType, this`deviceNumber, this`dataEnabled
      ensures selected <==> SelectDevice(countPci as int, countUsb as int).Some?
      ensures match SelectDevice(countPci as int, countUsb as int)
        case None =>
          && infoText == NoDeviceText
          && !dataEnabled
          && deviceType == old(deviceType) && deviceNumber == old(deviceNumber)
        case Some(t) =>
          && deviceType == t && deviceNumber == 0
          && dataEnabled == old(dataEnabled)
          && infoText == old(infoText) + SelectionLine(t, 0)
    {
      if countPci > 0 {
        deviceType := Pci;
        deviceNumber := 0;
        infoText := infoText + SelectionLine(deviceType, deviceNumber);
      } else if countUsb > 0 {
        deviceType := Usb;
        deviceNumber := 0;
        infoText := infoText + SelectionLine(deviceType, deviceNumber);
      } else {
        infoText := NoDeviceText;
        dataEnabled := false;
        return false;
      }
      return true;
    }

    /** The first part of `Form1_Load`: the library version and the device counts. */
    method ShowCounts(lib: Native, libVersion: string) returns (countPci: int32, countUsb: int32)
      modifies this`infoText
      ensures countPci == Count(lib, Pci) && countUsb == Count(lib, Usb)
      ensures infoText == FoundText(libVersion, countPci, countUsb)
    {
      infoText := "Using Quantis library version " + libVersion + NewLine;
      countPci := Count(lib, Pci);
      countUsb := Count(lib, Usb);
      infoText := infoText + ("Found: " + NewLine);
      infoText := infoText + ("   - " + Decimal(countPci as int) + " Quantis PCI/PCIe" + NewLine);
      infoText := infoText + ("   - " + Decimal(countUsb as int) + " Quantis USB" + NewLine);
      infoText := infoText + NewLine;
    }

    /** The `try` block of `Form1_Load`: the chosen device's version, serial number and
        manufacturer, or the error line if the version query throws. */
    method ShowDeviceInfo(lib: Native)
      requires lib.Valid()
      modifies this`infoText
      ensures infoText == old(infoText) + DeviceInfoText(lib, Quantis(deviceType, deviceNumber))
    {
      var quantis := Quantis(deviceType, deviceNumber);
      match quantis.GetBoardVersion(lib)
      case Fail(e) =>
        infoText := infoText + ("ERROR while retrieving Quantis information: " + e.Message() + NewLine);
      case Ok(version) =>
        var core := "   core version:  " + NatToString(version as nat, 16) + NewLine;
        var serial := "   serial number: " + quantis.GetSerialNumber(lib) + NewLine;
        var manufacturer := "   manufacturer: " + quantis.GetManufacturer(lib) + NewLine;
        infoText := infoText + core;
        infoText := infoText + serial;
        infoText := infoText + manufacturer;
    }

    /** `buttonGenerate_Click`: on success the buffer box is replaced by the rendering,
        on failure the error line is appended to what it held. */
    method Generate(lib: Native)
      requires lib.Valid() && Valid()
      modifies this`bufferText
      ensures match Quantis(deviceType, deviceNumber).Read(lib, requestedSize as uint32)
        case Ok(buffer) =>
          && |buffer| == requestedSize
          && bufferText == HexText(buffer)
          && |bufferText| == 3 * requestedSize
        case Fail(e) =>
          bufferText == old(bufferText) + "ERROR while retrieving random data: " + e.Message() + NewLine
    {
      var quantis := Quantis(deviceType, deviceNumber);
      match quantis.Read(lib, requestedSize as uint32)
      case Ok(buffer) =>
        var hex := HexDump(buffer);
        bufferText := hex;
      case Fail(e) =>
        bufferText := bufferText + "ERROR while retrieving random data: " + e.Message() + NewLine;
    }
  }
}
