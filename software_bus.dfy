/**
 * The software-bus services the inbound transcoder uses: message buffers
 * obtained from and returned to the bus's buffer pool, and the message
 * length field.  The pool's internals are not part of this model; a ghost
 * ownership flag and a ghost log of releases record what the transcoder does
 * with each buffer.
 */
module SoftwareBus {
  import opened Cfe
  import opened SizeAccounting

  /** A native message buffer (CFE_SB_Buffer_t) handed out by the pool. */
  class MessageBuffer {
    /** The message bytes, header first. */
    const Data: array<bv8>
    /** The message length field, as CFE_MSG_GetSize and CFE_MSG_SetSize see it. */
    var Size: SizeT
    /** Allocated and not yet released (ghost ownership state). */
    ghost var Held: bool

    constructor (capacity: nat)
      ensures fresh(Data) && Data.Length == capacity
      ensures Held
    {
      Data := new bv8[capacity];
      Size := 0;
      Held := true;
    }

    /** CFE_MSG_SetSize: sets the length field when the message services accept the length. */
    method SetSize(api: MsgApi, n: SizeT) returns (status: Status)
      modifies this`Size
      ensures status == SetSizeStatus(api, n)
      ensures Size == if status == Success then n else old(Size)
    {
      status := SetSizeStatus(api, n);
      if status == Success {
        Size := n;
      }
    }
  }

  /** The message services CFE_MSG_*, reduced to which lengths CFE_MSG_SetSize accepts. */
  datatype MsgApi = MsgApi(SetSizeAccepts: SizeT -> bool)

  /** CFE_MSG_SetSize: the status it returns for a requested length. */
  function SetSizeStatus(api: MsgApi, n: SizeT): (s: Status)
    ensures s == Success || s == MsgBadArgument
    ensures s == Success <==> api.SetSizeAccepts(n)
  {
    if api.SetSizeAccepts(n) then Success else MsgBadArgument
  }

  /** The software-bus buffer pool (CFE_SB_AllocateMessageBuffer / CFE_SB_ReleaseMessageBuffer). */
  class BufferPool {
    /** Whether the pool cannot satisfy an allocation request right now. */
    var Exhausted: bool
    /** Every buffer returned to the pool, in order. */
    ghost var Released: seq<MessageBuffer>

    constructor (exhausted: bool)
      ensures Exhausted == exhausted && Released == []
    {
      Exhausted := exhausted;
      Released := [];
    }

    /** CFE_SB_AllocateMessageBuffer: a fresh buffer of the requested size, or null. */
    method Allocate(size: SizeT) returns (buf: MessageBuffer?)
      ensures (buf == null) == Exhausted
      ensures buf != null ==> fresh(buf) && fresh(buf.Data) && buf.Data.Length == size && buf.Held
    {
      if Exhausted {
        buf := null;
      } else {
        buf := new MessageBuffer(size);
      }
    }

    /** CFE_SB_ReleaseMessageBuffer: only a held buffer can be released, so never twice. */
    method Release(buf: MessageBuffer)
      requires buf.Held
      modifies this`Released, buf`Held
      ensures !buf.Held
      ensures Released == old(Released) + [buf]
    {
      buf.Held := false;
      Released := Released + [buf];
    }
  }
}
