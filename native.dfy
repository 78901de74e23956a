/** The DLL and the device behind it, as far as the camera layer sees them:
    a function from the calls made so far and the next call to the answer.
    Nothing here models what the Sentech driver actually does. */
module Native {
  /** A byte of an image buffer. */
  type byte = b: int | 0 <= b < 256

  /** `c_ulong(x)`: ctypes keeps the low 32 bits of a Windows `unsigned long`. */
  function ULong(x: int): (r: int)
    ensures 0 <= r < 0x1_0000_0000
    ensures 0 <= x < 0x1_0000_0000 ==> r == x
    ensures (r - x) % 0x1_0000_0000 == 0
  {
    x % 0x1_0000_0000
  }

  /** An argument as the foreign function receives it. */
  datatype Arg =
    | ByVal(value: int)    // a number, or a ctypes number object passed by value
    | ByRef(value: int)    // `byref(cell)`: the function may write the cell
    | Buffer(length: nat)  // the image buffer of a frame
    | Text(text: string)   // an encoded path

  datatype NativeCall = NativeCall(symbol: string, args: seq<Arg>)

  /** The answer to one call: the return value, what the function wrote
      through by-reference arguments (keyed by argument position), and the
      bytes it transferred into a buffer argument. */
  datatype Reply = Reply(result: int, written: map<nat, int>, data: seq<byte>)

  /** A deterministic device: each answer may depend on every earlier call. */
  type Respond = (seq<NativeCall>, NativeCall) -> Reply

  /** The buffer after the driver wrote `data` into it from the start, as
      many bytes as fit. */
  function Overlay(before: seq<byte>, data: seq<byte>): (r: seq<byte>)
    ensures |r| == |before|
    ensures forall i :: 0 <= i < |r| ==> r[i] == if i < |data| then data[i] else before[i]
  {
    if |data| >= |before| then data[..|before|] else data + before[|data|..]
  }

  /** The loaded DLL: it answers calls and remembers them. */
  class Driver {
    const respond: Respond
    var history: seq<NativeCall>

    constructor (respond: Respond)
      ensures this.respond == respond && history == []
    {
      this.respond := respond;
      history := [];
    }

    method Call(c: NativeCall) returns (r: Reply)
      modifies this
      ensures history == old(history) + [c]
      ensures r == respond(old(history), c)
    {
      r := respond(history, c);
      history := history + [c];
    }

    /** A call handed a buffer, which the driver fills from the start. */
    method CallInto(c: NativeCall, buf: array<byte>) returns (r: Reply)
      modifies this, buf
      ensures history == old(history) + [c]
      ensures r == respond(old(history), c)
      ensures buf[..] == Overlay(old(buf[..]), r.data)
    {
      r := respond(history, c);
      history := history + [c];
      ghost var before := buf[..];
      forall i | 0 <= i < buf.Length && i < |r.data| {
        buf[i] := r.data[i];
      }
      assert buf[..] == Overlay(before, r.data) by {
        forall i | 0 <= i < buf.Length ensures buf[..][i] == Overlay(before, r.data)[i] {
        }
      }
    }
  }
}
