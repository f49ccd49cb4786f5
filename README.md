# Quantis wrapper for C#, modelled in Dafny

This project models the C# binding for the ID Quantique "Quantis" hardware random number
generator, together with the demonstration form that uses it. The binding (`class Quantis`)
forwards every operation to one entry point of the native `quantis.dll`. A negative native
status is turned into a `QuantisException` whose message is the library's description of
the error code. The `char*` texts the library returns are decoded by `ptrToString`, which
copies a bounded window and cuts it at the first zero byte. The form picks the first
available device when it loads. Its "Generate" button reads random bytes and shows them
as upper-case hexadecimal.

Layout, one module per file:

- `wrappers.dfy` — `Option`.
- `ints.dfy` — the C# fixed-width integers (`byte`, `short`, `int`, `uint`) and the
  unchecked `(int)` cast on a `uint`.
- `numerals.dfy` — decimal `Int32.ToString()` and hexadecimal `ToString("X")`, with a
  parser that reads them back.
- `cstrings.dfy` — `ptrToString`. The two-argument overload is a method that copies into
  an array and scans it in a loop, the way the C# does; it is proved equal to the function
  `CString`. The one-argument overload only delegates to it with the bound 1024
  (Quantis.cs:145).
- `quantis.dfy` — `CheckError` and the `Quantis` facade. The native library is a value of
  the datatype `Native`: it has one function per entry point, and each takes the arguments
  the wrapper passes by value. Buffers and `out` parameters are results instead:
  `QuantisRead` also receives the `byte[]` buffer (Quantis.cs:457), which always holds
  `size` zero bytes on entry, and what it writes comes back as `ReadReply.written`; each
  `out` value of the `QuantisReadInt`/`Short` family comes back as `ScalarReply.data`. A `Quantis` object's two fields are set only by its
  constructor, so the object is the immutable datatype `Quantis(deviceType, deviceNumber)`.
  A thrown `QuantisException` becomes `Fail(e)` of `Outcome`. There are two kinds of
  error: `NativeError(description)` for a negative status, and `Incomplete(got, wanted)`
  for a short read.
- `demo.dfy` — the form as a class. Its fields are the device selection, the two text
  boxes, the data group's enabled flag and the spinner value. It also holds the hex
  rendering with its read-back function.

Where the code and its own doc comments disagree, this model follows the code:

- The doc comments of both `Count` overloads (Quantis.cs:216, 227) say that 0 is returned
  when counting fails. The code returns the native count unchanged and never calls
  `CheckError` (Quantis.cs:219, 230), so any value the native library gives, negative ones
  included, reaches the caller. Yielding 0 is left to the native library.
- The remark on `ModulesReset` (Quantis.cs:429-431) says it calls the native disable and
  then the native enable with the mask. The wrapper itself makes one call, to the native
  reset entry point (Quantis.cs:438). What that native reset does internally is not part of
  this model.
- "Not available" and "S/N not available" are strings the native library returns. The
  wrapper only decodes them.
- `Read` does not check that the size is positive. It passes the size through the
  unchecked cast `(int)size` (Quantis.cs:455). In this model a size of 2^31 or more
  becomes negative, so a non-negative status can never match it, and such a `Read` never
  succeeds (`ReadOfHugeSizeFails`). In the program, `new byte[size]` (Quantis.cs:456)
  throws first for sizes that large. That runtime exception is not a `QuantisException`,
  so the form's `catch` (QuantisDemoForm.cs:88) would not handle it. `ReadOfHugeSizeFails`
  describes the model's path only.

`ptrToString` always copies `maxStrLength` bytes, even when the string ends sooner (Quantis.cs:164-167).
The model therefore requires every pointer the library returns to have 1024 readable bytes
(`Readable`, `Native.Valid`). `Encoding.ASCII` decodes one character per byte. Bytes above
0x7F become '?'.

## Model

| member | source | states |
|---|---|---|
| `CStrings.FirstZero` | Quantis.cs:170-177 | the index found is within the window; every earlier byte is non-zero; the byte at it, if any, is zero |
| `CStrings.CString` | Quantis.cs:156-181 | a null pointer gives ""; the result never has more than `maxStrLength` characters and contains no NUL |
| `CStrings.CStringTerminated` | Quantis.cs:170-180 | a string whose terminator lies inside the window decodes to exactly the bytes before it, whatever follows |
| `CStrings.CStringTruncated` | Quantis.cs:164-180 | with no zero in the window, the result is the whole `maxStrLength`-byte window |
| `CStrings.CStringIsPrefix` | Quantis.cs:170-180 | the result is the decoded prefix of the window, and whenever it is shorter than the window it stops at a zero byte |
| `CStrings.AsciiChar` | Quantis.cs:180 | a byte decodes to NUL exactly when it is zero; ASCII bytes keep their code |
| `CStrings.PtrToStringMax` | Quantis.cs:156-181 | the copy-and-scan loop returns exactly `CString(ptr, maxStrLength)` |
| `CStrings.PtrToString` | Quantis.cs:143-146 | the one-argument overload decodes with the bound 1024 and returns at most 1024 characters |
| `Ints.ToInt32Unchecked` | Quantis.cs:455 | `(int)size` keeps the value modulo 2^32 and is negative exactly when `size` is at least 2^31 |
| `Numerals.NatToString` | QuantisDemoForm.cs:60 | a numeral is non-empty, is one digit exactly when the number is below the base, uses only digits of the base, and has no leading zero |
| `Numerals.ParseNatToString` | QuantisDemoForm.cs:60 | reading a numeral back gives the number |
| `Numerals.NatToStringInjective` | QuantisDemoForm.cs:60 | distinct numbers have distinct numerals |
| `Numerals.Decimal` | QuantisDemoForm.cs:31-32 | `int` to decimal text: a '-' for a negative value, then only decimal digits; reading the digits back gives the magnitude; no leading zero, after the sign or otherwise |
| `CStrings.AsciiString` | Quantis.cs:180 | the decoded text has one character per byte, each the ASCII decoding of its byte |
| `QuantisWrapper.QuantisError.Message` | Quantis.cs:461 | a native error's message is its description; a short read's message is "Read ", the decimal count, " bytes instead of " and the decimal size |
| `QuantisWrapper.IncompleteMessageInjective` | Quantis.cs:461 | two short-read messages are equal only when both the count read and the size requested are equal |
| `QuantisWrapper.NativeFailure` | Quantis.cs:132 | the exception for a code carries the decoded error text: at most 1024 characters, and "" for a null text pointer |
| `QuantisWrapper.CheckError` | Quantis.cs:127-134 | throws exactly when the status is negative, with the decoded text of `QuantisStrError(status)` as message |
| `QuantisWrapper.Checked` | Quantis.cs:241-246 | succeeds exactly on a non-negative status, with the given value; otherwise fails with the native description |
| `QuantisWrapper.NativeFailureMessage` | Quantis.cs:127-181 | every native-error message is at most 1024 characters and holds no NUL |
| `QuantisWrapper.Count` | Quantis.cs:228-231 | the static count is the native count verbatim, unchecked |
| `QuantisWrapper.Quantis.Count` | Quantis.cs:217-220 | the instance count is the native count for the object's device type, unchecked |
| `QuantisWrapper.Quantis.BoardReset` | Quantis.cs:205-208 | succeeds exactly when the native status is non-negative, else fails with its description |
| `QuantisWrapper.Quantis.GetBoardVersion` | Quantis.cs:241-246 | a negative status fails with its description; otherwise the status itself is returned |
| `QuantisWrapper.Quantis.GetManufacturer` | Quantis.cs:283-286 | the decoded native text, at most 1024 characters, never a failure |
| `QuantisWrapper.Quantis.GetModulesCount` | Quantis.cs:297-302 | a negative status fails with its description; otherwise the status itself is returned |
| `QuantisWrapper.Quantis.GetModulesDataRate` | Quantis.cs:312-317 | a negative status fails with its description; otherwise the status itself is returned |
| `QuantisWrapper.Quantis.GetModulesMask` | Quantis.cs:333-338 | a negative status fails with its description; otherwise the status itself is returned |
| `QuantisWrapper.Quantis.GetModulesPower` | Quantis.cs:351-356 | a negative status fails; otherwise the result is true exactly when the status is non-zero |
| `QuantisWrapper.Quantis.GetModulesStatus` | Quantis.cs:369-374 | a negative status fails with its description; otherwise the status itself is returned |
| `QuantisWrapper.Quantis.GetSerialNumber` | Quantis.cs:384-387 | the decoded native text, at most 1024 characters, never a failure |
| `QuantisWrapper.Quantis.ModulesDisable` | Quantis.cs:400-403 | the mask reaches the native disable call unchanged; fails exactly on a negative status |
| `QuantisWrapper.Quantis.ModulesEnable` | Quantis.cs:416-419 | the mask reaches the native enable call unchanged; fails exactly on a negative status |
| `QuantisWrapper.Quantis.ModulesReset` | Quantis.cs:436-439 | one native reset call with the mask unchanged; fails exactly on a negative status |
| `QuantisWrapper.Quantis.Read` | Quantis.cs:453-464 | three outcomes: a negative status is a native error; a non-negative status other than `(int)size` is `Incomplete(status, size)`; otherwise a buffer of exactly `size` bytes holding what the native call wrote |
| `QuantisWrapper.Fill` | Quantis.cs:456-457 | the zero-initialised buffer has length `size` and holds the native bytes at its front |
| `QuantisWrapper.ReadOfHugeSizeFails` | Quantis.cs:455-461 | a request of 2^31 bytes or more never succeeds |
| `QuantisWrapper.Quantis.ReadInt` | Quantis.cs:542-547 | the out-value is returned exactly when the status is non-negative |
| `QuantisWrapper.Quantis.ReadScaledInt` | Quantis.cs:559-564 | `min` and `max` are forwarded unchanged and unchecked; the out-value is returned exactly when the status is non-negative |
| `QuantisWrapper.Quantis.ReadShort` | Quantis.cs:574-579 | the out-value is returned exactly when the status is non-negative |
| `QuantisWrapper.Quantis.ReadScaledShort` | Quantis.cs:591-596 | `min` and `max` are forwarded unchanged and unchecked; the out-value is returned exactly when the status is non-negative |
| `QuantisDemo.ToUpper` | QuantisDemoForm.cs:86 | upper-casing keeps the length and maps each character |
| `QuantisDemo.HexTextLength` | QuantisDemoForm.cs:80-86 | the text for n bytes has exactly 3·n characters |
| `QuantisDemo.HexTextChunk` | QuantisDemoForm.cs:81-84 | chunk i is the high digit, the low digit and a space of byte i, in buffer order |
| `QuantisDemo.HexTextAlphabet` | QuantisDemoForm.cs:83-86 | every character is 0-9, A-F or a space |
| `QuantisDemo.LowerHexByte` | QuantisDemoForm.cs:83 | `{0:x2} ` gives two lower-case hex digits and a space, which upper-case to the displayed chunk of the byte |
| `QuantisDemo.LowerHexText` | QuantisDemoForm.cs:81-84 | the built text has 3·n characters, each a lower-case hex digit or a space |
| `QuantisDemo.FromHexTextSnoc` | QuantisDemoForm.cs:81-84 | reading back one more rendered byte extends the decoded buffer by that byte |
| `QuantisDemo.HexTextRoundTrip` | QuantisDemoForm.cs:81-84 | reading the text back in 3-character chunks recovers the bytes |
| `QuantisDemo.HexTextInjective` | QuantisDemoForm.cs:81-84 | different buffers give different texts |
| `QuantisDemo.UpperLowerHexText` | QuantisDemoForm.cs:83-86 | upper-casing the lower-case `x2` text gives the displayed rendering |
| `QuantisDemo.HexDump` | QuantisDemoForm.cs:80-86 | the `foreach` loop followed by `ToUpper` yields exactly the rendering, of length 3·n |
| `QuantisDemo.SelectDevice` | QuantisDemoForm.cs:37-54 | PCI exactly when `countPci > 0`, whatever `countUsb`; USB exactly when `countPci <= 0` and `countUsb > 0`; none exactly when both are `<= 0` |
| `QuantisDemo.FoundTextShape` | QuantisDemoForm.cs:25-33 | the text written before selection opens with the library-version line and ends with an empty line |
| `QuantisDemo.SelectionLineOfFirstDevice` | QuantisDemoForm.cs:39-47 | the chosen device is announced as "Using PCI card #0" or "Using USB device #0" |
| `QuantisDemo.DeviceInfoTextShape` | QuantisDemoForm.cs:58-67 | a failing version query gives only the error line with the native description; otherwise the block opens with the version in upper-case hex |
| `QuantisDemo.QuantisDemoForm.constructor` | QuantisDemoForm.cs:14-15 | starts on PCI #0, with empty text boxes, the data group enabled and the spinner at 250 |
| `QuantisDemo.QuantisDemoForm.SetRequestedSize` | QuantisDemoForm.Designer.cs:97-106 | the spinner value stays within 1..1000 |
| `QuantisDemo.QuantisDemoForm.ShowCounts` | QuantisDemoForm.cs:24-33 | writes the version line and both native counts, unchecked |
| `QuantisDemo.QuantisDemoForm.ShowDeviceInfo` | QuantisDemoForm.cs:56-67 | appends the version (hex), serial and manufacturer lines, or only the error line when the version query fails |
| `QuantisDemo.QuantisDemoForm.SelectFirst` | QuantisDemoForm.cs:37-54 | takes PCI #0 if any PCI device is present, else USB #0, appending the selection line; else replaces the info text by "ERROR: No Quantis found!" and disables the data group |
| `QuantisDemo.QuantisDemoForm.Load` | QuantisDemoForm.cs:22-68 | selects per `SelectDevice` with device number 0; with no device the info text is only "ERROR: No Quantis found!", the data group is disabled and no device query follows |
| `QuantisDemo.QuantisDemoForm.Generate` | QuantisDemoForm.cs:70-92 | reads the spinner's size; on success the buffer box is replaced by the rendering of exactly that many bytes; on failure the old text is kept and the error line appended |

## Left out

- The `DllImport` entry points (Quantis.cs:599-714) are the fields of `Native`. Each is a function of its arguments, so the library's own state is not modelled. Neither is the fact that two reads give different random data.
- `GetDriverVersion`, `GetLibVersion`, `ReadDouble` and `ReadFloat` (plain and scaled) work on floating point, which this model leaves out. That includes the `(int)` cast of the driver version. The form's library-version text is a parameter of `Load`.
- `Marshal.Copy` is the copy of a byte sequence into the array. Reading unmapped memory is excluded by `Readable`.
- `Encoding.ASCII` and `String.ToUpper` are modelled only on the characters that occur (ASCII, with '?' for other bytes). Culture settings are not modelled.
- `Environment.NewLine` is the Windows value "\r\n".
- `Read`: an allocation of more bytes than the runtime's array limit allows is not modelled.
- The `QuantisException` constructors and inner exceptions: only the message is kept.
- The `GetModulesMask` doc example (Quantis.cs:322-324) gives no property, because its binary figure is wrong.
- Form layout, event wiring, threading and rendering (QuantisDemoForm.Designer.cs) are left out, except the spinner's bounds and initial value.
