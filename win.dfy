/**
 * Fixed-width Windows and COM types shared by every layer of the model:
 * integer widths, GUIDs, result codes, FILETIME timestamps, the opaque
 * VARIANT and the string conversion that can fail.
 */
module Win {

  type uint8 = x: int | 0 <= x < 0x100
  type uint16 = x: int | 0 <= x < 0x1_0000
  type uint32 = x: int | 0 <= x < 0x1_0000_0000
  type int32 = x: int | -0x8000_0000 <= x < 0x8000_0000
  type int64 = x: int | -0x8000_0000_0000_0000 <= x < 0x8000_0000_0000_0000
  type uint64 = x: int | 0 <= x < 0x1_0000_0000_0000_0000

  /** Two's-complement wrap-around of an exact integer into 32 bits. */
  function Wrap32(x: int): (r: int32)
    ensures -0x8000_0000 <= x < 0x8000_0000 ==> r == x
    ensures (r - x) % 0x1_0000_0000 == 0
  {
    (x + 0x8000_0000) % 0x1_0000_0000 - 0x8000_0000
  }

  /** Two's-complement wrap-around of an exact integer into 64 bits. */
  function Wrap64(x: int): (r: int64)
    ensures -0x8000_0000_0000_0000 <= x < 0x8000_0000_0000_0000 ==> r == x
  {
    (x + 0x8000_0000_0000_0000) % 0x1_0000_0000_0000_0000 - 0x8000_0000_0000_0000
  }

  /** Unsigned 32-bit wrap-around, as `atomic.AddUint32` performs it. */
  function WrapU32(x: int): (r: uint32)
    ensures 0 <= x < 0x1_0000_0000 ==> r == x
  {
    x % 0x1_0000_0000
  }

  /** A GUID; two GUIDs are the same interface exactly when they are equal. */
  datatype Guid = Guid(data1: uint32, data2: uint16, data3: uint16, data4: seq<uint8>)

  const IID_IUnknown: Guid := Guid(0x00000000, 0x0000, 0x0000, [0xC0, 0x00, 0x00, 0x00, 0x00, 0x00, 0x00, 0x46])
  const IID_IOPCEventSink: Guid := Guid(0x6516885F, 0x5783, 0x11D1, [0x84, 0xA0, 0x00, 0x60, 0x8C, 0xB8, 0xA7, 0xE9])
  const IID_IOPCEventServer: Guid := Guid(0x65168851, 0x5783, 0x11D1, [0x84, 0xA0, 0x00, 0x60, 0x8C, 0xB8, 0xA7, 0xE9])
  const IID_IOPCEventSubscriptionMgt: Guid := Guid(0x65168855, 0x5783, 0x11D1, [0x84, 0xA0, 0x00, 0x60, 0x8C, 0xB8, 0xA7, 0xE9])
  const IID_IConnectionPointContainer: Guid := Guid(0xB196B284, 0xBAB4, 0x101A, [0xB6, 0x9C, 0x00, 0xAA, 0x00, 0x34, 0x1D, 0x07])

  /** Result codes handed back across the COM boundary, as unsigned 32-bit values. */
  const S_OK: uint32 := 0
  const E_POINTER: uint32 := 0x8000_4003

  /** Error values surfaced to Go callers: a failing result code, or EINVAL from a string conversion. */
  datatype Error = Errno(code: uint32) | InvalidString

  datatype Option<T> = None | Some(value: T)

  /** An interface pointer held by the client, named by an identity; 0 is nil. */
  type ComObj = nat

  /** `syscall.UTF16PtrFromString` fails exactly when the string holds a NUL character. */
  predicate HasNul(s: string) {
    '\0' in s
  }

  /** A FILETIME: 100-nanosecond ticks since 1601-01-01, split in two 32-bit halves. */
  datatype Filetime = Filetime(lowDateTime: uint32, highDateTime: uint32)

  /** Ticks between 1601-01-01 and the Unix epoch. */
  const EpochTicks: int := 116444736000000000

  function Ticks(ft: Filetime): nat {
    ft.highDateTime * 0x1_0000_0000 + ft.lowDateTime
  }

  /**
   * `Filetime.Nanoseconds` of golang.org/x/sys/windows: the tick count moved
   * to the Unix epoch and scaled to nanoseconds, all in wrapping int64
   * arithmetic; `time.Unix(0, n)` then names that instant.
   */
  function UnixNanos(ft: Filetime): (nanos: int64)
    ensures var exact := (Ticks(ft) - EpochTicks) * 100;
            -0x8000_0000_0000_0000 <= exact < 0x8000_0000_0000_0000 ==> nanos == exact
    ensures (nanos - (Ticks(ft) - EpochTicks) * 100) % 0x1_0000_0000_0000_0000 == 0
  {
    Wrap64((Ticks(ft) - EpochTicks) * 100)
  }

  /** The FILETIME a writer would store for an instant given in Unix nanoseconds. */
  function FiletimeOf(nanos: int64): Filetime
    requires nanos % 100 == 0
  {
    var t := nanos / 100 + EpochTicks;
    Filetime(t % 0x1_0000_0000, t / 0x1_0000_0000)
  }

  /** Every instant on a 100-nanosecond boundary survives the trip through a FILETIME. */
  lemma UnixNanosRoundTrip(nanos: int64)
    requires nanos % 100 == 0
    ensures UnixNanos(FiletimeOf(nanos)) == nanos
  {
    var t := nanos / 100 + EpochTicks;
    assert 0 < t < 0x1_0000_0000_0000_0000;
    assert Ticks(FiletimeOf(nanos)) == t;
    assert (t - EpochTicks) * 100 == nanos;
  }

  /** An attribute value in its wire form; decoding it is not part of this model. */
  datatype Variant = Variant(vt: uint16, payload: seq<uint8>)
}
