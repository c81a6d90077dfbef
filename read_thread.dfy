/**
 * The socket reader of the captioning client: each block read from the
 * input stream is decoded, trimmed and split on NUL into packets, which wait
 * in a FIFO list until the wizard reads them.
 */
module Reader {
  import opened Wrappers
  import opened Wire
  import JavaText

  const Nul: char := '\0'

  /** The non-empty pieces, in order (`if (pieces[i].length() > 0) packets.add(pieces[i])`). */
  function NonEmpty(pieces: seq<string>): (r: seq<string>)
    ensures |r| <= |pieces|
    ensures forall k :: 0 <= k < |r| ==> r[k] != "" && r[k] in pieces
    ensures forall p :: p in pieces && p != "" ==> p in r
    decreases |pieces|
  {
    if |pieces| == 0 then []
    else if pieces[0] == "" then NonEmpty(pieces[1..])
    else [pieces[0]] + NonEmpty(pieces[1..])
  }

  /** The packets one block of input contributes: decode, trim, split on NUL, drop empties. */
  function Frames(buffer: seq<byte>): seq<string>
  {
    NonEmpty(JavaText.Split(JavaText.Trim(Decode(buffer)), Nul))
  }

  /** What the reader keeps: no packet is empty and no packet holds a NUL. */
  predicate WellFormed(packets: seq<string>)
  {
    forall k :: 0 <= k < |packets| ==> packets[k] != "" && Nul !in packets[k]
  }

  /** The frames of any block are well formed. */
  lemma FramesWellFormed(buffer: seq<byte>)
    ensures WellFormed(Frames(buffer))
  {
    var pieces := JavaText.Split(JavaText.Trim(Decode(buffer)), Nul);
    var r := Frames(buffer);
    forall k | 0 <= k < |r| ensures r[k] != "" && Nul !in r[k] {
      assert r[k] in pieces;
    }
  }

  /** Trimming leaves text alone that starts and ends above U+0020. */
  lemma TrimKeeps(s: string)
    requires s != "" && !JavaText.IsTrimmed(s[0]) && !JavaText.IsTrimmed(s[|s| - 1])
    ensures JavaText.Trim(s) == s
  {
  }

  /** Two NUL-separated packets in one block arrive as two packets, in order. */
  lemma TwoFramesInOneBlock(a: string, b: string)
    requires a != "" && b != "" && Nul !in a && Nul !in b
    requires !JavaText.IsTrimmed(a[0]) && !JavaText.IsTrimmed(b[|b| - 1])
    ensures NonEmpty(JavaText.Split(JavaText.Trim(a + [Nul] + b), Nul)) == [a, b]
  {
    var s := a + [Nul] + b;
    TrimKeeps(s);
    assert s[|a|] == Nul;
    JavaText.PiecesOfTwo(a, b, Nul);
    assert JavaText.Split(s, Nul) == [a, b];
  }

  /** What one pass of the reader loop did. */
  datatype ReadStep =
    | Inserted      // a block was read and its packets added
    | StreamEnded   // the read returned -1: CONNECTION_LOST was reported

  class ReadThread {
    var hasStream: bool
    var run: bool
    var packets: seq<string>

    predicate Valid()
      reads this
    {
      WellFormed(packets)
    }

    constructor ()
      ensures Valid() && !hasStream && run && packets == []
    {
      hasStream := false;
      run := true;
      packets := [];
    }

    /** `done()`: no stream, or told to quit. */
    method Done() returns (d: bool)
      ensures d <==> !hasStream || !run
    {
      d := !hasStream || !run;
    }

    /** `quit()`. */
    method Quit()
      modifies this
      ensures run == false && hasStream == old(hasStream) && packets == old(packets)
    {
      run := false;
    }

    /**
     * `insert(buffer, size)`: the whole buffer is decoded, whatever `size`
     * says; each non-empty NUL-separated piece of the trimmed text is added.
     */
    method Insert(buffer: seq<byte>, size: int)
      requires Valid()
      modifies this
      ensures Valid()
      ensures packets == old(packets) + Frames(buffer)
      ensures hasStream == old(hasStream) && run == old(run)
    {
      var data := JavaText.Trim(Decode(buffer));
      var pieces := JavaText.Split(data, Nul);
      ghost var before := packets;
      AddPieces(pieces);
      FramesWellFormed(buffer);
      WellFormedAppend(before, Frames(buffer));
    }

    /** The loop of `insert`: every non-empty piece is added, in order. */
    method AddPieces(pieces: seq<string>)
      modifies this
      ensures packets == old(packets) + NonEmpty(pieces)
      ensures hasStream == old(hasStream) && run == old(run)
    {
      var i := 0;
      while i < |pieces|
        invariant 0 <= i <= |pieces|
        invariant packets == old(packets) + NonEmpty(pieces[..i])
        invariant hasStream == old(hasStream) && run == old(run)
      {
        if |pieces[i]| > 0 {
          packets := packets + [pieces[i]];
        }
        i := i + 1;
        NonEmptySnoc(pieces, i);
      }
      assert pieces[..|pieces|] == pieces;
    }

    /**
     * `SetInputStream(is)`: setting null closes the current stream, but only
     * while the writer's queue is empty; the field is replaced either way.
     * `closed` says whether the old stream was closed.
     */
    method SetInputStream(present: bool, writeQueueSize: int) returns (closed: bool)
      modifies this
      ensures closed <==> !present && old(hasStream) && writeQueueSize == 0
      ensures hasStream == present && run == old(run) && packets == old(packets)
    {
      closed := false;
      if !present && hasStream {
        if writeQueueSize == 0 {
          closed := true;
        }
      }
      hasStream := present;
    }

    /**
     * One pass of the `run` loop, entered while `done()` is false: `count` is
     * what the blocking read of a 1024-byte `block` returned. A block is
     * inserted; the end of the stream reports CONNECTION_LOST and the loop
     * goes round again, since nothing stops it.
     */
    method RunStep(block: seq<byte>, count: int) returns (step: ReadStep)
      requires Valid() && hasStream && run
      modifies this
      ensures Valid()
      ensures count >= 0 ==> step == Inserted && packets == old(packets) + Frames(block)
      ensures count < 0 ==> step == StreamEnded && packets == old(packets)
      ensures hasStream && run
    {
      if count >= 0 {
        Insert(block, count);
        step := Inserted;
      } else {
        step := StreamEnded;
      }
    }

    /** `available()`: the number of packets waiting. */
    method Available() returns (n: int)
      ensures n == |packets|
    {
      n := |packets|;
    }

    /** `read()`: removes and returns the oldest packet; an empty list throws. */
    method Read() returns (r: Result<string>)
      requires Valid()
      modifies this
      ensures Valid()
      ensures |old(packets)| > 0 ==> r == Ok(old(packets)[0]) && packets == old(packets)[1..]
      ensures |old(packets)| == 0 ==> r.Fail? && packets == old(packets)
      ensures hasStream == old(hasStream) && run == old(run)
    {
      if |packets| == 0 {
        return Fail("IndexOutOfBoundsException");
      }
      r := Ok(packets[0]);
      packets := packets[1..];
    }
  }

  lemma NonEmptySnoc(pieces: seq<string>, i: nat)
    requires 0 < i <= |pieces|
    ensures NonEmpty(pieces[..i]) ==
      NonEmpty(pieces[..i - 1]) + (if pieces[i - 1] == "" then [] else [pieces[i - 1]])
  {
    NonEmptyAppend(pieces[..i - 1], [pieces[i - 1]]);
    assert pieces[..i] == pieces[..i - 1] + [pieces[i - 1]];
  }

  lemma {:induction false} NonEmptyAppend(a: seq<string>, b: seq<string>)
    ensures NonEmpty(a + b) == NonEmpty(a) + NonEmpty(b)
    decreases |a|
  {
    if |a| > 0 {
      assert (a + b)[1..] == a[1..] + b;
      NonEmptyAppend(a[1..], b);
    } else {
      assert a + b == b;
    }
  }

  lemma WellFormedAppend(a: seq<string>, b: seq<string>)
    requires WellFormed(a) && WellFormed(b)
    ensures WellFormed(a + b)
  {
    assert forall k :: |a| <= k < |a + b| ==> (a + b)[k] == b[k - |a|];
  }
}
