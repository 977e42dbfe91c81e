/** The buffer of a `message_stream`: a window of pending bytes in an array that grows and is recycled. */
module MessageStream {
  import opened Basics
  import opened Framing

  datatype Status = Running | Eof | Error

  /** What a receive gives its caller. At the end of the stream the program returns an empty string. */
  datatype Result = Waiting | Ended | Failed | Got(data: Bytes)

  /** What a system call did: moved up to `limit` bytes, found the end, would block, or failed. */
  datatype Kernel = Moved(limit: nat) | End | Retry | Fault

  class Stream {
    var buf: array<Byte>
    var pos: nat
    var len: nat
    var status: Status

    ghost predicate Valid() reads this { buf.Length >= 4096 && pos + len <= buf.Length }

    /** The bytes not yet written, or not yet received. */
    ghost function Pending(): Bytes reads this, buf requires Valid() { buf[pos..pos + len] }

    constructor (open: bool)
      ensures Valid() && Pending() == [] && fresh(buf) && status == if open then Running else Error
    {
      buf := new Byte[4096];
      pos, len := 0, 0;
      status := if open then Running else Error;
    }

    /** Move the pending bytes to the start of an array twice the size. */
    method Grow()
      requires Valid()
      modifies this`buf, this`pos
      ensures Valid() && fresh(buf) && buf.Length == 2 * old(buf.Length) && pos == 0
      ensures Pending() == old(Pending())
    {
      var wider := new Byte[buf.Length * 2];
      forall i | 0 <= i < len {
        wider[i] := buf[pos + i];
      }
      buf, pos := wider, 0;
      assert buf[pos..pos + len] == old(buf[pos..pos + len]);
    }

    /** Append bytes behind the pending ones. */
    method Put(data: Bytes)
      requires Valid() && pos + len + |data| <= buf.Length
      modifies this`len, buf
      ensures Valid() && Pending() == old(Pending()) + data
    {
      forall i | 0 <= i < |data| {
        buf[pos + len + i] := data[i];
      }
      len := len + |data|;
      assert forall k | 0 <= k < len :: buf[pos + k] == (old(Pending()) + data)[k];
    }

    /** Make room for `n` bytes more, however large. */
    method Reserve(n: nat)
      requires Valid()
      modifies this`buf, this`pos
      ensures Valid() && pos + len + n <= buf.Length && Pending() == old(Pending())
      ensures buf == old(buf) || fresh(buf)
    {
      if len == 0 {
        pos := 0;
      }
      while pos + len + n > buf.Length
        invariant Valid() && Pending() == old(Pending()) && (buf == old(buf) || fresh(buf))
        decreases pos + len + n - buf.Length
      {
        Grow();
      }
    }

    /** Queue a message behind those not yet written; refused once the stream is closed. */
    method Send(data: Bytes) returns (ok: bool)
      requires Valid() && |data| < WRAP
      modifies this, buf
      ensures Valid() && (buf == old(buf) || fresh(buf)) && status == old(status)
      ensures ok <==> status == Running
      ensures Pending() == if ok then old(Pending()) + Frame(data) else old(Pending())
    {
      if status != Running {
        return false;
      }
      Reserve(|data| + 4);
      Put(Encode32(|data|));
      Put(data);
      ok := true;
      assert old(Pending()) + Encode32(|data|) + data == old(Pending()) + Frame(data);
    }

    /** Advance past the first `n` pending bytes. */
    method Take(n: nat) returns (chunk: Bytes)
      requires Valid() && n <= len
      modifies this`pos, this`len
      ensures Valid() && old(Pending()) == chunk + Pending() && |chunk| == n
    {
      chunk := buf[pos..pos + n];
      pos, len := pos + n, len - n;
    }

    /** One pass of `writer_loop` with bytes to write: the kernel takes some from the front. */
    method WriterStep(k: Kernel) returns (chunk: Bytes)
      requires Valid() && len > 0 && (k.Moved? ==> k.limit > 0)
      modifies this`pos, this`len, this`status
      ensures Valid() && old(Pending()) == chunk + Pending()
      ensures k.Moved? ==> 0 < |chunk| <= k.limit
      ensures !k.Moved? ==> chunk == []
      ensures status == if k.Moved? || k.Retry? then old(status) else Error
    {
      chunk := [];
      match k
      case Moved(limit) =>
        var n := if limit < len then limit else len;
        chunk := Take(n);
      case Retry =>
      case End => status := Error;
      case Fault => status := Error;
    }

    /** Make room to read: never less than 512 bytes, so that reading nothing means the end. */
    method Room() returns (n: nat)
      requires Valid()
      modifies this`buf, this`pos
      ensures Valid() && Pending() == old(Pending()) && (buf == old(buf) || fresh(buf))
      ensures n == buf.Length - (pos + len) && n >= 512
    {
      if len == 0 {
        pos := 0;
      }
      if pos + len + 512 > buf.Length {
        Grow();
      }
      n := buf.Length - (pos + len);
    }

    /** One pass of `reader_loop`: the kernel gives some of the `ready` bytes. */
    method ReaderStep(ready: Bytes, k: Kernel) returns (taken: nat)
      requires Valid() && (k.Moved? ==> k.limit > 0 && ready != [])
      modifies this, buf
      ensures Valid() && (buf == old(buf) || fresh(buf))
      ensures taken <= |ready| && (taken > 0 <==> k.Moved?)
      ensures Pending() == old(Pending()) + ready[..taken]
      ensures status == if k.End? then Eof else if k.Fault? then Error else old(status)
    {
      taken := 0;
      var room := Room();
      match k
      case Moved(limit) =>
        taken := if limit < room then limit else room;
        taken := if |ready| < taken then |ready| else taken;
        Put(ready[..taken]);
      case End => status := Eof;
      case Retry =>
      case Fault => status := Error;
    }

    /** The length of the first message with its prefix, or none while the prefix is incomplete. */
    method FirstMessageLength() returns (known: bool, n: nat)
      requires Valid()
      ensures known <==> |Pending()| >= 4
      ensures known ==> n == FirstLength(Pending())
    {
      if len < 4 {
        return false, 0;
      }
      assert Pending()[..4] == buf[pos..pos + 4];
      n := (Decode32(buf[pos..pos + 4]) + 4) % WRAP;
      known := true;
    }

    /** Take the first message if all of it has arrived. */
    method Recv() returns (r: Result)
      requires Valid()
      modifies this`pos, this`len
      ensures Valid()
      ensures match Receive(old(Pending()))
              case Incomplete => r == (if status == Running then Waiting else Ended) && Pending() == old(Pending())
              case Broken => r == Failed && Pending() == old(Pending())[FirstLength(old(Pending()))..]
              case Message(data, rest) => r == Got(data) && Pending() == rest
    {
      var known, n := FirstMessageLength();
      if !known || n > len {
        return if status == Running then Waiting else Ended;
      }
      ghost var b := Pending();
      var chunk := Take(n);
      if n < 4 {
        return Failed;
      }
      r := Got(chunk[4..]);
      assert b[4..n] == chunk[4..] && b[n..] == Pending();
    }
  }
}
