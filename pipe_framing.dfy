/** The frame the Python task runner's child process writes to its parent
    over a pipe: a 4-byte big-endian payload length followed by the payload.
    The pipe ends are modelled as byte sequences; how the operating system
    splits reads and writes into chunks is left to nondeterministic choice. */
module PipeFraming {
  import opened Common

  newtype byte = x: int | 0 <= x < 256

  const FrameLimit: int := 0x1_0000_0000

  datatype FramingError =
    | LengthOverflow        // `int.to_bytes(4, "big")` of a length that needs more than 4 bytes
    | EndOfFile             // "Pipe closed before reading all data"
    | WriteFailed           // "Write failed"

  /** `len(data).to_bytes(4, "big")` */
  function EncodeLength(n: nat): (r: Result<seq<byte>, FramingError>)
    ensures r.Ok? <==> n < FrameLimit
    ensures r.Ok? ==> |r.value| == 4
  {
    if n >= FrameLimit then Err(LengthOverflow)
    else Ok([(n / 0x100_0000) as byte, (n / 0x1_0000 % 0x100) as byte, (n / 0x100 % 0x100) as byte, (n % 0x100) as byte])
  }

  /** `int.from_bytes(length_bytes, "big")` */
  function DecodeLength(b: seq<byte>): (n: nat)
    requires |b| == 4
    ensures n < FrameLimit
  {
    (b[0] as int) * 0x100_0000 + (b[1] as int) * 0x1_0000 + (b[2] as int) * 0x100 + (b[3] as int)
  }

  lemma DecodeEncodeLength(n: nat)
    requires n < FrameLimit
    ensures EncodeLength(n).Ok? && DecodeLength(EncodeLength(n).value) == n
  {
    var b := EncodeLength(n).value;
    var q2 := n / 0x100;
    var q1 := q2 / 0x100;
    assert n == q2 * 0x100 + n % 0x100;
    assert q2 == q1 * 0x100 + q2 % 0x100;
    assert n / 0x1_0000 == q1;
    assert q1 == (n / 0x100_0000) * 0x100 + q1 % 0x100;
    assert n / 0x100_0000 == q1 / 0x100;
  }

  lemma EncodeDecodeLength(b: seq<byte>)
    requires |b| == 4
    ensures EncodeLength(DecodeLength(b)) == Ok(b)
  {
    var n := DecodeLength(b);
    var x0, x1, x2, x3 := b[0] as int, b[1] as int, b[2] as int, b[3] as int;
    assert n == ((x0 * 0x100 + x1) * 0x100 + x2) * 0x100 + x3;
    assert n % 0x100 == x3 && n / 0x100 == (x0 * 0x100 + x1) * 0x100 + x2;
    assert n / 0x100 % 0x100 == x2 && n / 0x100 / 0x100 == x0 * 0x100 + x1;
    assert n / 0x1_0000 == n / 0x100 / 0x100;
    assert n / 0x1_0000 % 0x100 == x1;
    assert n / 0x100_0000 == n / 0x1_0000 / 0x100;
    assert n / 0x100_0000 == x0;
    var e := EncodeLength(n).value;
    assert e[0] == b[0] && e[1] == b[1] && e[2] == b[2] && e[3] == b[3];
    assert e == b;
  }

  /** The bytes `_put_result` and `_put_error` write for an encoded message. */
  function Frame(data: seq<byte>): (r: Result<seq<byte>, FramingError>)
    ensures r.Ok? <==> |data| < FrameLimit
    ensures r.Ok? ==> |r.value| == 4 + |data| && r.value[4..] == data
  {
    match EncodeLength(|data|)
    case Err(e) => Err(e)
    case Ok(header) => Ok(header + data)
  }

  /** What the parent's reader makes of the bytes in the pipe: the payload
      and the bytes after it, or end-of-file when the pipe holds too few. */
  function Unframe(stream: seq<byte>): (r: Result<(seq<byte>, seq<byte>), FramingError>)
    ensures r.Ok? ==> |stream| >= 4 && stream == stream[..4] + r.value.0 + r.value.1 && |r.value.0| == DecodeLength(stream[..4])
    ensures r.Err? ==> r.error == EndOfFile
  {
    if |stream| < 4 then Err(EndOfFile)
    else
      var n := DecodeLength(stream[..4]);
      if |stream| - 4 < n then Err(EndOfFile)
      else
        assert stream == stream[..4] + stream[4..4 + n] + stream[4 + n..];
        Ok((stream[4..4 + n], stream[4 + n..]))
  }

  /** Every payload that fits the 4-byte length comes back whole from the
      reader, whatever follows it in the pipe. */
  lemma UnframeFrame(data: seq<byte>, rest: seq<byte>)
    requires |data| < FrameLimit
    ensures Frame(data).Ok? && Unframe(Frame(data).value + rest) == Ok((data, rest))
  {
    DecodeEncodeLength(|data|);
    var s := Frame(data).value + rest;
    assert s[..4] == EncodeLength(|data|).value;
    assert s[4..4 + |data|] == data;
    assert s[4 + |data|..] == rest;
  }

  /** A pipe that holds fewer bytes than its header announces is reported as
      end-of-file, never as a short payload. */
  lemma TruncatedFrameIsEndOfFile(data: seq<byte>, k: nat)
    requires |data| < FrameLimit && k < 4 + |data|
    ensures Frame(data).Ok? && Unframe(Frame(data).value[..k]) == Err(EndOfFile)
  {
    DecodeEncodeLength(|data|);
    var s := Frame(data).value[..k];
    if k >= 4 {
      assert s[..4] == EncodeLength(|data|).value;
    }
  }

  /** The read end of the pipe once the child has closed its end: the bytes
      not yet read. */
  class PipeReader {
    var unread: seq<byte>

    constructor(contents: seq<byte>)
      ensures unread == contents
    {
      unread := contents;
    }

    /** `os.read(fd, k)`: some bytes from the front, at most `k`, and at
        least one unless the pipe is drained. */
    method Read(k: nat) returns (chunk: seq<byte>)
      requires k > 0
      modifies this
      ensures old(unread) == chunk + unread
      ensures |chunk| <= k
      ensures chunk == [] <==> old(unread) == []
    {
      if unread == [] {
        chunk := [];
      } else {
        var m :| 1 <= m <= k && m <= |unread|;
        chunk := unread[..m];
        unread := unread[m..];
      }
    }

    /** `_read_exact`: exactly `n` bytes, or end-of-file once the pipe runs dry. */
    method ReadExact(n: nat) returns (r: Result<seq<byte>, FramingError>)
      modifies this
      ensures n <= |old(unread)| ==> r == Ok(old(unread)[..n]) && unread == old(unread)[n..]
      ensures n > |old(unread)| ==> r == Err(EndOfFile) && unread == []
    {
      var result: seq<byte> := [];
      while |result| < n
        invariant |result| <= n
        invariant old(unread) == result + unread
        decreases n - |result|
      {
        var chunk := Read(n - |result|);
        if chunk == [] {
          return Err(EndOfFile);
        }
        result := result + chunk;
      }
      assert old(unread)[..n] == result;
      r := Ok(result);
    }

    /** `read_from_pipe`: the header, then the payload it announces. */
    method ReadFrame() returns (r: Result<seq<byte>, FramingError>)
      modifies this
      ensures Unframe(old(unread)).Ok? ==> r == Ok(Unframe(old(unread)).value.0) && unread == Unframe(old(unread)).value.1
      ensures Unframe(old(unread)).Err? ==> r == Err(EndOfFile)
    {
      var header := ReadExact(4);
      if header.Err? {
        return Err(EndOfFile);
      }
      assert header.value == old(unread)[..4];
      var length := DecodeLength(header.value);
      var data := ReadExact(length);
      if data.Err? {
        return Err(EndOfFile);
      }
      assert old(unread)[4..][..length] == old(unread)[4..4 + length];
      assert old(unread)[4..][length..] == old(unread)[4 + length..];
      r := data;
    }
  }

  /** The write end of the pipe: the bytes the reader will see. */
  class PipeWriter {
    var written: seq<byte>

    constructor()
      ensures written == []
    {
      written := [];
    }

    /** `os.write(fd, data)`: some prefix of `data` is accepted, its length returned. */
    method Write(data: seq<byte>) returns (count: nat)
      modifies this
      ensures count <= |data| && written == old(written) + data[..count]
    {
      count :| count <= |data|;
      written := written + data[..count];
    }

    /** `_write_all`: keeps writing the remainder; a write that accepts
        nothing fails, leaving a strict prefix of `data` in the pipe. */
    method WriteAll(data: seq<byte>) returns (r: Result<(), FramingError>)
      modifies this
      ensures r.Ok? ==> written == old(written) + data
      ensures r.Err? ==> (r.error == WriteFailed &&
                          |old(written)| <= |written| < |old(written)| + |data| &&
                          written == old(written) + data[..|written| - |old(written)|])
      ensures data == [] ==> r.Ok? && written == old(written)
    {
      var total := 0;
      while total < |data|
        invariant 0 <= total <= |data|
        invariant written == old(written) + data[..total]
        decreases |data| - total
      {
        var count := Write(data[total..]);
        if count == 0 {
          return Err(WriteFailed);
        }
        assert data[..total] + data[total..][..count] == data[..total + count];
        total := total + count;
      }
      assert data[..total] == data;
      r := Ok(());
    }

    /** The header and payload writes of `_put_result`: an oversized payload
        fails before anything is written. */
    method WriteFrame(data: seq<byte>) returns (r: Result<(), FramingError>)
      modifies this
      ensures |data| >= FrameLimit ==> r == Err(LengthOverflow) && written == old(written)
      ensures r.Ok? ==> Frame(data).Ok? && written == old(written) + Frame(data).value
      ensures r.Err? ==> r.error != EndOfFile
    {
      var header := EncodeLength(|data|);
      if header.Err? {
        return Err(LengthOverflow);
      }
      var wroteHeader := WriteAll(header.value);
      if wroteHeader.Err? {
        return wroteHeader;
      }
      r := WriteAll(data);
    }
  }
}
