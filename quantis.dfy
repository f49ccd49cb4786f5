/**
 * The device facade of the Quantis binding (`class Quantis`). Every operation makes
 * one call into the native library and translates a negative status into a failure
 * whose message is the library's own description of the code. The native library is
 * represented by `Native`, a record of functions standing for its entry points.
 */
module QuantisWrapper {
  import opened Wrappers
  import opened Ints
  import opened CStrings
  import opened Numerals

  /** The device families; the native library sees PCI as 1 and USB as 2. */
  datatype DeviceType = Pci | Usb

  /** The failures the wrapper raises as `QuantisException`. */
  datatype QuantisError =
    | NativeError(description: string)       // a negative native status
    | Incomplete(got: nat, wanted: nat)       // `Read` received fewer bytes than asked
  {
    /** The exception's `Message`: the native description, or the text `Read` builds
        from the two counts in decimal. */
    function Message(): (m: string)
      ensures NativeError? ==> m == description
      ensures Incomplete? ==>
        m == "Read " + NatToString(got, 10) + " bytes instead of " + NatToString(wanted, 10)
    {
      match this
      case NativeError(d) => d
      case Incomplete(got, wanted) =>
        "Read " + NatToString(got, 10) + " bytes instead of " + NatToString(wanted, 10)
    }
  }

  /** The result of a wrapper operation: a value, or the exception it throws. */
  datatype Outcome<+T> = Ok(value: T) | Fail(error: QuantisError)

  /** What a native call that writes one value through an `out` parameter gives back. */
  datatype ScalarReply<T> = ScalarReply(status: int32, data: T)

  /** What `QuantisRead` gives back: its status and the bytes it wrote at the
      front of the caller's buffer. */
  datatype ReadReply = ReadReply(status: int32, written: seq<byte>)

  /** The native entry points the wrapper uses, one field per entry point, each taking
      exactly the arguments the wrapper passes. */
  datatype Native = Native(
    count: DeviceType -> int32,
    boardReset: (DeviceType, uint32) -> int32,
    getBoardVersion: (DeviceType, uint32) -> int32,
    getManufacturer: (DeviceType, uint32) -> Pointer,
    getModulesCount: (DeviceType, uint32) -> int32,
    getModulesDataRate: (DeviceType, uint32) -> int32,
    getModulesMask: (DeviceType, uint32) -> int32,
    getModulesPower: (DeviceType, uint32) -> int32,
    getModulesStatus: (DeviceType, uint32) -> int32,
    getSerialNumber: (DeviceType, uint32) -> Pointer,
    modulesDisable: (DeviceType, uint32, int32) -> int32,
    modulesEnable: (DeviceType, uint32, int32) -> int32,
    modulesReset: (DeviceType, uint32, int32) -> int32,
    read: (DeviceType, uint32, int32) -> ReadReply,
    readInt: (DeviceType, uint32) -> ScalarReply<int32>,
    readScaledInt: (DeviceType, uint32, int32, int32) -> ScalarReply<int32>,
    readShort: (DeviceType, uint32) -> ScalarReply<int16>,
    readScaledShort: (DeviceType, uint32, int16, int16) -> ScalarReply<int16>,
    strError: int32 -> Pointer)
  {
    /** Every text pointer the library returns can be read for the decoder's
        full 1024-byte window. */
    predicate Valid()
    {
      && (forall code: int32 :: Readable(strError(code), DefaultMaxStrLength))
      && (forall t: DeviceType, n: uint32 :: Readable(getManufacturer(t, n), DefaultMaxStrLength))
      && (forall t: DeviceType, n: uint32 :: Readable(getSerialNumber(t, n), DefaultMaxStrLength))
    }
  }

  /** The exception `CheckError` throws for a negative code: the decoded text of
      `QuantisStrError(code)`. */
  function NativeFailure(lib: Native, code: int32): (e: QuantisError)
    requires lib.Valid()
    ensures e.NativeError? && |e.description| <= DefaultMaxStrLength
    ensures lib.strError(code).None? ==> e.description == ""
  {
    NativeError(CString(lib.strError(code), DefaultMaxStrLength))
  }

  /** `CheckError(result)`: the exception it throws, or `None` when it returns normally. */
  function CheckError(lib: Native, result: int32): (r: Option<QuantisError>)
    requires lib.Valid()
    ensures r.Some? <==> result < 0
    ensures r.Some? ==> r.value == NativeError(CString(lib.strError(result), DefaultMaxStrLength))
  {
    if result < 0 then Some(NativeFailure(lib, result)) else None
  }

  /** Runs `CheckError(status)` and then returns `value`. */
  function Checked<T>(lib: Native, status: int32, value: T): (r: Outcome<T>)
    requires lib.Valid()
    ensures r.Ok? <==> status >= 0
    ensures r.Ok? ==> r.value == value
    ensures r.Fail? ==> r.error == NativeFailure(lib, status)
  {
    match CheckError(lib, status)
    case Some(e) => Fail(e)
    case None => Ok(value)
  }

  /** The static `Quantis.Count(deviceType)`: the native count, returned without
      `CheckError`, so whatever the library reports (even a negative number) comes back. */
  function Count(lib: Native, deviceType: DeviceType): (n: int32)
    ensures n == lib.count(deviceType)
  {
    lib.count(deviceType)
  }

  /** A `Quantis` object: the device family and index given to its constructor, passed
      unchanged to every native call. Its fields are never reassigned, so it is a value. */
  datatype Quantis = Quantis(deviceType: DeviceType, deviceNumber: uint32)
  {
    /** `Count()`: the same as the static `Count` for this object's device family. */
    function Count(lib: Native): (n: int32)
      ensures n == lib.count(deviceType)
    {
      lib.count(deviceType)
    }

    function BoardReset(lib: Native): (r: Outcome<()>)
      requires lib.Valid()
      ensures r.Ok? <==> lib.boardReset(deviceType, deviceNumber) >= 0
      ensures r.Fail? ==> r.error == NativeFailure(lib, lib.boardReset(deviceType, deviceNumber))
    {
      Checked(lib, lib.boardReset(deviceType, deviceNumber), ())
    }

    function GetBoardVersion(lib: Native): (r: Outcome<int32>)
      requires lib.Valid()
      ensures var status := lib.getBoardVersion(deviceType, deviceNumber);
        && (r.Ok? <==> status >= 0)
        && (r.Ok? ==> r.value == status)
        && (r.Fail? ==> r.error == NativeFailure(lib, status))
    {
      var result := lib.getBoardVersion(deviceType, deviceNumber);
      Checked(lib, result, result)
    }

    /** `GetManufacturer()`: the decoded native text, never an exception. */
    function GetManufacturer(lib: Native): (s: string)
      requires lib.Valid()
      ensures s == CString(lib.getManufacturer(deviceType, deviceNumber), DefaultMaxStrLength)
      ensures |s| <= 1024
    {
      CString(lib.getManufacturer(deviceType, deviceNumber), DefaultMaxStrLength)
    }

    function GetModulesCount(lib: Native): (r: Outcome<int32>)
      requires lib.Valid()
      ensures var status := lib.getModulesCount(deviceType, deviceNumber);
        && (r.Ok? <==> status >= 0)
        && (r.Ok? ==> r.value == status)
        && (r.Fail? ==> r.error == NativeFailure(lib, status))
    {
      var result := lib.getModulesCount(deviceType, deviceNumber);
      Checked(lib, result, result)
    }

    function GetModulesDataRate(lib: Native): (r: Outcome<int32>)
      requires lib.Valid()
      ensures var status := lib.getModulesDataRate(deviceType, deviceNumber);
        && (r.Ok? <==> status >= 0)
        && (r.Ok? ==> r.value == status)
        && (r.Fail? ==> r.error == NativeFailure(lib, status))
    {
      var result := lib.getModulesDataRate(deviceType, deviceNumber);
      Checked(lib, result, result)
    }

    function GetModulesMask(lib: Native): (r: Outcome<int32>)
      requires lib.Valid()
      ensures var status := lib.getModulesMask(deviceType, deviceNumber);
        && (r.Ok? <==> status >= 0)
        && (r.Ok? ==> r.value == status)
        && (r.Fail? ==> r.error == NativeFailure(lib, status))
    {
      var result := lib.getModulesMask(deviceType, deviceNumber);
      Checked(lib, result, result)
    }

    /** `GetModulesPower()`: a non-negative status is read as a boolean. */
    function GetModulesPower(lib: Native): (r: Outcome<bool>)
      requires lib.Valid()
      ensures var status := lib.getModulesPower(deviceType, deviceNumber);
        && (r.Ok? <==> status >= 0)
        && (r.Ok? ==> (r.value <==> status > 0))
        && (r.Fail? ==> r.error == NativeFailure(lib, status))
    {
      var result := lib.getModulesPower(deviceType, deviceNumber);
      Checked(lib, result, result != 0)
    }

    function GetModulesStatus(lib: Native): (r: Outcome<int32>)
      requires lib.Valid()
      ensures var status := lib.getModulesStatus(deviceType, deviceNumber);
        && (r.Ok? <==> status >= 0)
        && (r.Ok? ==> r.value == status)
        && (r.Fail? ==> r.error == NativeFailure(lib, status))
    {
      var result := lib.getModulesStatus(deviceType, deviceNumber);
      Checked(lib, result, result)
    }

    /** `GetSerialNumber()`: the decoded native text, never an exception. */
    function GetSerialNumber(lib: Native): (s: string)
      requires lib.Valid()
      ensures s == CString(lib.getSerialNumber(deviceType, deviceNumber), DefaultMaxStrLength)
      ensures |s| <= 1024
    {
      CString(lib.getSerialNumber(deviceType, deviceNumber), DefaultMaxStrLength)
    }

    function ModulesDisable(lib: Native, modulesMask: int32): (r: Outcome<()>)
      requires lib.Valid()
      ensures r.Ok? <==> lib.modulesDisable(deviceType, deviceNumber, modulesMask) >= 0
      ensures r.Fail? ==>
        r.error == NativeFailure(lib, lib.modulesDisable(deviceType, deviceNumber, modulesMask))
    {
      Checked(lib, lib.modulesDisable(deviceType, deviceNumber, modulesMask), ())
    }

    function ModulesEnable(lib: Native, modulesMask: int32): (r: Outcome<()>)
      requires lib.Valid()
      ensures r.Ok? <==> lib.modulesEnable(deviceType, deviceNumber, modulesMask) >= 0
      ensures r.Fail? ==>
        r.error == NativeFailure(lib, lib.modulesEnable(deviceType, deviceNumber, modulesMask))
    {
      Checked(lib, lib.modulesEnable(deviceType, deviceNumber, modulesMask), ())
    }

    /** `ModulesReset(mask)`: a single call of the native reset entry point. */
    function ModulesReset(lib: Native, modulesMask: int32): (r: Outcome<()>)
      requires lib.Valid()
      ensures r.Ok? <==> lib.modulesReset(deviceType, deviceNumber, modulesMask) >= 0
      ensures r.Fail? ==>
        r.error == NativeFailure(lib, lib.modulesReset(deviceType, deviceNumber, modulesMask))
    {
      Checked(lib, lib.modulesReset(deviceType, deviceNumber, modulesMask), ())
    }

    /** `Read(size)`: the native call fills a fresh zeroed buffer of `size` bytes;
        it is told the size through the unchecked cast `(int)size`. */
    function Read(lib: Native, size: uint32): (r: Outcome<seq<byte>>)
      requires lib.Valid()
      ensures var reply := lib.read(deviceType, deviceNumber, ToInt32Unchecked(size));
        && (r.Fail? && r.error.NativeError? <==> reply.status < 0)
        && (r.Fail? && r.error.NativeError? ==> r.error == NativeFailure(lib, reply.status))
        && (r.Fail? && r.error.Incomplete? <==>
              0 <= reply.status && reply.status != ToInt32Unchecked(size))
        && (r.Fail? && r.error.Incomplete? ==>
              r.error.got == reply.status as nat && r.error.wanted == size as nat)
        && (r.Ok? <==> 0 <= reply.status && reply.status as int == size as int)
        && (r.Ok? ==> |r.value| == size as int && FilledBy(r.value, reply.written))
    {
      var requested := ToInt32Unchecked(size);
      var reply := lib.read(deviceType, deviceNumber, requested);
      match CheckError(lib, reply.status)
      case Some(e) => Fail(e)
      case None =>
        if reply.status != requested then Fail(Incomplete(reply.status as nat, size as nat))
        else Ok(Fill(size as nat, reply.written))
    }

    function ReadInt(lib: Native): (r: Outcome<int32>)
      requires lib.Valid()
      ensures var reply := lib.readInt(deviceType, deviceNumber);
        && (r.Ok? <==> reply.status >= 0)
        && (r.Ok? ==> r.value == reply.data)
        && (r.Fail? ==> r.error == NativeFailure(lib, reply.status))
    {
      var reply := lib.readInt(deviceType, deviceNumber);
      Checked(lib, reply.status, reply.data)
    }

    /** `ReadInt(min, max)`: the bounds reach the native call unchanged and unchecked. */
    function ReadScaledInt(lib: Native, min: int32, max: int32): (r: Outcome<int32>)
      requires lib.Valid()
      ensures var reply := lib.readScaledInt(deviceType, deviceNumber, min, max);
        && (r.Ok? <==> reply.status >= 0)
        && (r.Ok? ==> r.value == reply.data)
        && (r.Fail? ==> r.error == NativeFailure(lib, reply.status))
    {
      var reply := lib.readScaledInt(deviceType, deviceNumber, min, max);
      Checked(lib, reply.status, reply.data)
    }

    function ReadShort(lib: Native): (r: Outcome<int16>)
      requires lib.Valid()
      ensures var reply := lib.readShort(deviceType, deviceNumber);
        && (r.Ok? <==> reply.status >= 0)
        && (r.Ok? ==> r.value == reply.data)
        && (r.Fail? ==> r.error == NativeFailure(lib, reply.status))
    {
      var reply := lib.readShort(deviceType, deviceNumber);
      Checked(lib, reply.status, reply.data)
    }

    /** `ReadShort(min, max)`: the bounds reach the native call unchanged and unchecked. */
    function ReadScaledShort(lib: Native, min: int16, max: int16): (r: Outcome<int16>)
      requires lib.Valid()
      ensures var reply := lib.readScaledShort(deviceType, deviceNumber, min, max);
        && (r.Ok? <==> reply.status >= 0)
        && (r.Ok? ==> r.value == reply.data)
        && (r.Fail? ==> r.error == NativeFailure(lib, reply.status))
    {
      var reply := lib.readScaledShort(deviceType, deviceNumber, min, max);
      Checked(lib, reply.status, reply.data)
    }
  }

  /** `buffer` holds the native's bytes at the front and the allocation's zeros after them. */
  predicate FilledBy(buffer: seq<byte>, written: seq<byte>)
  {
    forall i :: 0 <= i < |buffer| ==> buffer[i] == if i < |written| then written[i] else 0
  }

  /** A fresh `byte[size]` after the native call has written `written` at its start. */
  function Fill(size: nat, written: seq<byte>): (buffer: seq<byte>)
    ensures |buffer| == size && FilledBy(buffer, written)
  {
    seq(size, i requires 0 <= i < size => if i < |written| then written[i] else 0)
  }

  /** In this model a request of 2^31 bytes or more is cast to a negative size, which
      no non-negative status can match, so such a `Read` never succeeds. (In the
      program the allocation of the buffer fails first for sizes that large.) */
  lemma ReadOfHugeSizeFails(lib: Native, q: Quantis, size: uint32)
    requires lib.Valid()
    requires size >= 0x8000_0000
    ensures q.Read(lib, size).Fail?
  {
  }

  /** The message of every native failure is bounded by the decoder's window
      and holds no NUL character. */
  lemma NativeFailureMessage(lib: Native, code: int32)
    requires lib.Valid()
    ensures var m := NativeFailure(lib, code).Message();
      |m| <= DefaultMaxStrLength && forall i :: 0 <= i < |m| ==> m[i] != '\0'
  {
  }

  /** The index of the first `c` in `s`, or `|s|` when there is none. */
  function FirstIndexOf(s: string, c: char): (k: nat)
    ensures k <= |s|
    ensures forall i :: 0 <= i < k ==> s[i] != c
    ensures k < |s| ==> s[k] == c
  {
    if |s| == 0 || s[0] == c then 0 else 1 + FirstIndexOf(s[1..], c)
  }

  lemma FirstIndexOfUnique(s: string, c: char, k: nat)
    requires k <= |s|
    requires forall i :: 0 <= i < k ==> s[i] != c
    requires k < |s| ==> s[k] == c
    ensures FirstIndexOf(s, c) == k
  {
  }

  /** Two texts of the shape `p + x + q + y`, where `x` has no space and `q` starts
      with one, agree on `x` and on `y` when they are equal. */
  lemma SplitAtSpace(p: string, x: string, q: string, y: string, x': string, y': string)
    requires forall i :: 0 <= i < |x| ==> x[i] != ' '
    requires forall i :: 0 <= i < |x'| ==> x'[i] != ' '
    requires |q| > 0 && q[0] == ' '
    requires p + x + q + y == p + x' + q + y'
    ensures x == x' && y == y'
  {
    var m := p + x + q + y;
    var rest := m[|p|..];
    assert rest == x + q + y;
    assert rest == x' + q + y';
    FirstIndexOfUnique(x + q + y, ' ', |x|);
    FirstIndexOfUnique(x' + q + y', ' ', |x'|);
    assert x == rest[..|x|];
    assert x' == rest[..|x'|];
    assert y == rest[|x| + |q|..];
    assert y' == rest[|x'| + |q|..];
  }

  /** The message of a short read determines both counts it reports. */
  lemma {:induction false} IncompleteMessageInjective(a: QuantisError, b: QuantisError)
    requires a.Incomplete? && b.Incomplete?
    requires a.Message() == b.Message()
    ensures a == b
  {
    var x, y := NatToString(a.got, 10), NatToString(a.wanted, 10);
    var x', y' := NatToString(b.got, 10), NatToString(b.wanted, 10);
    assert forall i :: 0 <= i < |x| ==> x[i] != ' ' by {
      forall i | 0 <= i < |x| ensures x[i] != ' ' { assert DigitValue(x[i]) < 10; }
    }
    assert forall i :: 0 <= i < |x'| ==> x'[i] != ' ' by {
      forall i | 0 <= i < |x'| ensures x'[i] != ' ' { assert DigitValue(x'[i]) < 10; }
    }
    SplitAtSpace("Read ", x, " bytes instead of ", y, x', y');
    NatToStringInjective(a.got, b.got, 10);
    NatToStringInjective(a.wanted, b.wanted, 10);
  }
}
