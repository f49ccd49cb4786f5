/**
 * Decoding of a native `char*` into managed text (`ptrToString`): a bounded
 * window is copied out of native memory, scanned for the first zero byte,
 * and the bytes before it are decoded as ASCII.
 */
module CStrings {
  import opened Wrappers
  import opened Ints

  /** A native pointer: null, or the bytes readable from where it points. */
  type Pointer = Option<seq<byte>>

  /** The bound used by the one-argument overload. */
  const DefaultMaxStrLength: nat := 1024

  /** `n` bytes can be copied from `p` (always true of null, which is never read). */
  predicate Readable(p: Pointer, n: nat)
  {
    p.Some? ==> |p.value| >= n
  }

  /** ASCII decoding of one byte: non-ASCII bytes become '?'. */
  function AsciiChar(b: byte): (c: char)
    ensures c == '\0' <==> b == 0
    ensures b < 0x80 ==> c as int == b as int
  {
    if b < 0x80 then b as int as char else '?'
  }

  /** ASCII decoding of a byte sequence, one character per byte. */
  function AsciiString(bs: seq<byte>): (s: string)
    ensures |s| == |bs|
    ensures forall i :: 0 <= i < |bs| ==> s[i] == AsciiChar(bs[i])
  {
    seq(|bs|, i requires 0 <= i < |bs| => AsciiChar(bs[i]))
  }

  /** The index of the first zero byte of `w`, or `|w|` when there is none. */
  function FirstZero(w: seq<byte>): (k: nat)
    ensures k <= |w|
    ensures forall i :: 0 <= i < k ==> w[i] != 0
    ensures k < |w| ==> w[k] == 0
  {
    if |w| == 0 || w[0] == 0 then 0 else 1 + FirstZero(w[1..])
  }

  /** The three properties of `FirstZero` determine it. */
  lemma FirstZeroUnique(w: seq<byte>, k: nat)
    requires k <= |w|
    requires forall i :: 0 <= i < k ==> w[i] != 0
    requires k < |w| ==> w[k] == 0
    ensures FirstZero(w) == k
  {
  }

  /** What `ptrToString(ptr, maxStrLength)` returns. */
  function CString(p: Pointer, maxStrLength: nat): (s: string)
    requires Readable(p, maxStrLength)
    ensures p.None? ==> s == ""
    ensures |s| <= maxStrLength
    ensures forall i :: 0 <= i < |s| ==> s[i] != '\0'
  {
    if p.None? then ""
    else
      var window := p.value[..maxStrLength];
      AsciiString(window[..FirstZero(window)])
  }

  /** A string terminated inside the window decodes to the bytes before its terminator,
      whatever follows the terminator. */
  lemma CStringTerminated(bs: seq<byte>, rest: seq<byte>, maxStrLength: nat)
    requires forall i :: 0 <= i < |bs| ==> bs[i] != 0
    requires |bs| < maxStrLength <= |bs| + 1 + |rest|
    ensures CString(Some(bs + [0] + rest), maxStrLength) == AsciiString(bs)
  {
    var window := (bs + [0] + rest)[..maxStrLength];
    assert window[|bs|] == 0;
    FirstZeroUnique(window, |bs|);
    assert window[..|bs|] == bs;
  }

  /** Without a zero byte in the window, the decoded text is the whole window. */
  lemma CStringTruncated(bs: seq<byte>, maxStrLength: nat)
    requires maxStrLength <= |bs|
    requires forall i :: 0 <= i < maxStrLength ==> bs[i] != 0
    ensures CString(Some(bs), maxStrLength) == AsciiString(bs[..maxStrLength])
  {
  }

  /** Every decoded string is a decoded prefix of the window, cut at the first zero. */
  lemma CStringIsPrefix(bs: seq<byte>, maxStrLength: nat)
    requires maxStrLength <= |bs|
    ensures var s := CString(Some(bs), maxStrLength);
      && (forall i :: 0 <= i < |s| ==> s[i] == AsciiChar(bs[i]) && bs[i] != 0)
      && (|s| < maxStrLength ==> bs[|s|] == 0)
  {
  }

  /** `ptrToString(ptr, maxStrLength)`: null gives the empty string without touching
      memory; otherwise `maxStrLength` bytes are copied and scanned for the terminator. */
  method PtrToStringMax(ptr: Pointer, maxStrLength: int32) returns (s: string)
    requires 0 <= maxStrLength
    requires Readable(ptr, maxStrLength as nat)
    ensures s == CString(ptr, maxStrLength as nat)
  {
    if ptr.None? {
      return "";
    }
    var byteArray := new byte[maxStrLength];
    // the copy out of native memory
    forall i | 0 <= i < byteArray.Length {
      byteArray[i] := ptr.value[i];
    }
    var idx := 0;
    while idx < byteArray.Length
      invariant 0 <= idx <= byteArray.Length
      invariant forall i :: 0 <= i < idx ==> byteArray[i] != 0
    {
      if byteArray[idx] == 0 {
        break;
      }
      idx := idx + 1;
    }
    ghost var window := ptr.value[..maxStrLength];
    assert byteArray[..] == window;
    FirstZeroUnique(window, idx);
    s := AsciiString(byteArray[..idx]);
  }

  /** `ptrToString(ptr)`: the same decoding with the default bound of 1024 bytes. */
  method PtrToString(ptr: Pointer) returns (s: string)
    requires Readable(ptr, DefaultMaxStrLength)
    ensures s == CString(ptr, DefaultMaxStrLength)
    ensures |s| <= 1024
  {
    s := PtrToStringMax(ptr, 1024);
  }
}
