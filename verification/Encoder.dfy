// The encoder clients fill a request buffer with. Once something does not fit,
// nothing more is written and the buffer is never sane again.

module Encoders {
  import opened Types
  import opened WireBytes

  const REQ_BUFFER_SIZE := 580

  // What a sane buffer holds, None once it has overflowed.
  type Content = Option<seq<Byte>>

  function Put(c: Content, bytes: seq<Byte>): Content {
    if c.Some? && |c.value| + |bytes| < REQ_BUFFER_SIZE then Some(c.value + bytes) else None
  }

  // Overflow is sticky, so only the total size matters, not how it is cut up.
  lemma PutTwice(c: Content, a: seq<Byte>, b: seq<Byte>)
    ensures Put(Put(c, a), b) == Put(c, a + b)
  {
    if c.Some? {
      assert c.value + a + b == c.value + (a + b);
    }
  }

  function Zeros(n: nat): (r: seq<Byte>)
    ensures |r| == n
  {
    seq(n, _ => 0)
  }

  class FlatBuffEncoder {
    var buffer: array?<Byte>
    var cur: nat
    var runningIndex: int

    // Everything behind the cursor is still zero.
    ghost predicate Valid()
      reads this, buffer
    {
      buffer != null ==>
        && buffer.Length == REQ_BUFFER_SIZE && cur < REQ_BUFFER_SIZE
        && (runningIndex == cur || runningIndex == REQ_BUFFER_SIZE)
        && forall i :: cur <= i < REQ_BUFFER_SIZE ==> buffer[i] == 0
    }

    ghost function Content(): Content
      reads this, buffer
      requires Valid()
    {
      if buffer == null || runningIndex == REQ_BUFFER_SIZE then None else Some(buffer[..cur])
    }

    constructor ()
      ensures Valid() && buffer == null
    {
      buffer := null;
      cur := 0;
      runningIndex := 0;
    }

    method SetBuf(buf: array<Byte>)
      requires buf.Length == REQ_BUFFER_SIZE && forall i :: 0 <= i < buf.Length ==> buf[i] == 0
      modifies this
      ensures Valid() && buffer == buf && Content() == Some([])
    {
      buffer := buf;
      cur := 0;
      runningIndex := 0;
    }

    // Appends the bytes of one value.
    method Append(bytes: seq<Byte>)
      requires Valid()
      modifies this`cur, this`runningIndex, buffer
      ensures Valid() && Content() == Put(old(Content()), bytes)
    {
      if buffer == null {
        return;
      }
      if runningIndex + |bytes| < REQ_BUFFER_SIZE {
        for i := 0 to |bytes|
          invariant cur == old(cur) && runningIndex == old(runningIndex)
          invariant buffer[..cur] == old(buffer[..cur])
          invariant forall j :: 0 <= j < i ==> buffer[cur + j] == bytes[j]
          invariant forall j :: cur + i <= j < REQ_BUFFER_SIZE ==> buffer[j] == 0
        {
          buffer[cur + i] := bytes[i];
        }
        cur := cur + |bytes|;
        runningIndex := runningIndex + |bytes|;
        assert buffer[..cur] == old(buffer[..cur]) + bytes;
      } else {
        runningIndex := REQ_BUFFER_SIZE;
      }
    }

    method IsBufSane() returns (sane: bool)
      requires Valid()
      ensures sane <==> Content().Some?
    {
      sane := !(runningIndex >= REQ_BUFFER_SIZE || buffer == null);
    }
  }

  function Join(pieces: seq<seq<Byte>>): seq<Byte> {
    if pieces == [] then [] else Join(pieces[..|pieces| - 1]) + pieces[|pieces| - 1]
  }

  // One piece after another.
  function PutAll(c: Content, pieces: seq<seq<Byte>>): Content {
    if pieces == [] then c else Put(PutAll(c, pieces[..|pieces| - 1]), pieces[|pieces| - 1])
  }

  // Whatever pieces are appended to an empty buffer, it is sane exactly if they
  // are shorter than it all together, and then it holds all of them in order.
  lemma {:induction false} SaneIff(pieces: seq<seq<Byte>>)
    ensures PutAll(Some([]), pieces) == if |Join(pieces)| < REQ_BUFFER_SIZE then Some(Join(pieces)) else None
  {
    if pieces != [] {
      var init, last := pieces[..|pieces| - 1], pieces[|pieces| - 1];
      SaneIff(init);
      assert |Join(pieces)| == |Join(init)| + |last|;
    }
  }
}
