/** `Buffer` in its default mode (sep_ == 1), the one every Connection uses. */
module Buffers {
  import opened Framing

  class Buffer {
    var buf: Bytes

    constructor ()
      ensures buf == []
    {
      buf := [];
    }

    method Append(data: Bytes)
      modifies this
      ensures buf == old(buf) + data
    {
      buf := buf + data;
    }

    /** `data` is the memory allocated at the pointer; an append of more bytes than it holds is
        undefined behaviour, reported by `ok`. */
    method AppendWithSep(data: Bytes, size: nat) returns (ok: bool)
      modifies this
      ensures ok <==> Print(data, size).Printed?
      ensures ok ==> buf == old(buf) + Print(data, size).frame == old(buf) + Frame(data[..size])
      ensures !ok ==> buf == old(buf)
    {
      ok := size <= |data|;
      if ok {
        buf := buf + LowBytes(size);
        buf := buf + data[..size];
        assert buf == old(buf) + (LowBytes(size) + data[..size]);
      }
    }

    /** std::string::erase throws when `pos` lies behind the end and clamps `nn`. */
    method Erase(pos: nat, nn: nat) returns (ok: bool)
      modifies this
      ensures ok <==> pos <= |old(buf)|
      ensures !ok ==> buf == old(buf)
      ensures ok && pos + nn <= |old(buf)| ==> buf == old(buf)[..pos] + old(buf)[pos + nn..]
      ensures ok && pos + nn > |old(buf)| ==> buf == old(buf)[..pos]
    {
      ok := pos <= |buf|;
      if ok {
        if pos + nn <= |buf| {
          buf := buf[..pos] + buf[pos + nn..];
        } else {
          buf := buf[..pos];
        }
      }
    }

    method Size() returns (n: nat)
      ensures n == |buf|
    {
      n := |buf|;
    }

    /** `pickmessage`, reading four bytes of raw memory as the code does: `beyond` is the memory
        behind the terminating NUL. The outcome is what the memory-free reading says. */
    method PickMessage(beyond: Bytes) returns (o: Outcome)
      requires |buf| <= MAX_STRING && |beyond| >= 3
      modifies this
      ensures o == Pick(old(buf))
      ensures buf == if o.Message? then o.rest else old(buf)
    {
      PickMessageIsPick(buf, beyond);
      if |buf| == 0 { return Incomplete; }
      var len := Header((buf + [0] + beyond)[..4]);
      if len > TWO_31 - 5 { return Overflow; }
      if |buf| < SizeT(len + 4) { return Incomplete; }
      if |buf| < 4 { return OutOfRange; }
      var count := if SizeT(len) < |buf| - 4 then SizeT(len) else |buf| - 4;
      var ss := buf[4..4 + count];
      buf := buf[len + 4..];
      return Message(ss, buf);
    }
  }
}
