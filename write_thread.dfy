/**
 * The socket writer of the captioning client: an append-only byte queue that
 * the writer loop moves into a send buffer (copy-then-send) and writes to the
 * output stream.
 */
module Writer {
  import opened Wrappers
  import opened Wire

  /** The writer's fields as values; `None` is a null array or stream field. */
  datatype WriterState = WriterState(
    queue: Option<seq<byte>>,
    buffer: Option<seq<byte>>,
    hasStream: bool,
    sent: seq<byte>,    // every byte the output streams have accepted, in order
    run: bool)

  function OrEmpty(a: Option<seq<byte>>): seq<byte>
  {
    if a.Some? then a.value else []
  }

  /** The bytes written but not yet sent: the send buffer, then the queue. */
  function Pending(st: WriterState): seq<byte>
  {
    OrEmpty(st.buffer) + OrEmpty(st.queue)
  }

  /** How a call of `send` ends. */
  datatype SendOutcome =
    | Delivered
    | IOError            // the stream threw; the writer dropped its queue, buffer and stream
    | NullPointer        // no stream or no buffer: the call threw before writing

  /** `write(data)`: a new queue holding the old queue (null as empty) and then `data`. */
  function WriteSpec(st: WriterState, data: seq<byte>): WriterState
  {
    st.(queue := Some(OrEmpty(st.queue) + data))
  }

  /** `copyQueue()`: the buffer takes the queue, and the queue becomes null. */
  function CopySpec(st: WriterState): WriterState
  {
    st.(buffer := st.queue, queue := None)
  }

  /**
   * `send()`: with a stream and a buffer, either the stream accepts the
   * buffer, which is then dropped, or it throws and queue, buffer and stream
   * are all cleared.
   */
  function SendSpec(st: WriterState, ioFails: bool): (WriterState, SendOutcome)
  {
    if !st.hasStream || st.buffer.None? then (st, NullPointer)
    else if ioFails then (st.(queue := None, buffer := None, hasStream := false), IOError)
    else (st.(sent := st.sent + st.buffer.value, buffer := None), Delivered)
  }

  /** What one pass of the writer loop does after its copyQueue. */
  datatype Step =
    | Sent                    // the buffer went out
    | Lost(message: string)   // the send failed: CONNECTION_LOST was reported and the loop ended
    | Ended                   // the thread was told to quit: CALL_ENDED was reported
    | Idle                    // nothing to send: the loop sleeps and goes round again

  /** The copy loops of `write`: a new array holding `queue` (null as empty) and then `data`. */
  method Joined(queue: array?<byte>, data: array<byte>) returns (newData: array<byte>)
    ensures fresh(newData)
    ensures newData[..] == (if queue == null then [] else queue[..]) + data[..]
  {
    var start := 0;
    var newSize := data.Length;
    if queue != null {
      newSize := queue.Length + data.Length;
    }
    newData := new byte[newSize];
    if queue != null {
      var i := 0;
      while i < queue.Length
        modifies newData
        invariant 0 <= i <= queue.Length <= newData.Length
        invariant newData[..i] == queue[..i]
      {
        newData[i] := queue[i];
        i := i + 1;
      }
      start := queue.Length;
    }
    ghost var front := if queue == null then [] else queue[..];
    assert newData[..start] == front && newData.Length == start + data.Length;
    var i := 0;
    while i < data.Length
      modifies newData
      invariant 0 <= i <= data.Length
      invariant newData[..start] == front
      invariant newData[start..start + i] == data[..i]
    {
      newData[start + i] := data[i];
      i := i + 1;
    }
    assert newData[..] == newData[..start] + newData[start..start + data.Length];
  }

  class WriteThread {
    var queue: array?<byte>
    var buffer: array?<byte>
    var hasStream: bool
    var sent: seq<byte>
    var run: bool

    function Snap(): WriterState
      reads this, queue, buffer
    {
      WriterState(
        if queue == null then None else Some(queue[..]),
        if buffer == null then None else Some(buffer[..]),
        hasStream, sent, run)
    }

    constructor ()
      ensures Snap() == WriterState(None, None, false, [], true)
    {
      queue := null;
      buffer := null;
      hasStream := false;
      sent := [];
      run := true;
    }

    /** `SetOutputStream`: a stream is attached (`present`) or the field is set to null. */
    method SetOutputStream(present: bool)
      modifies this
      ensures Snap() == old(Snap()).(hasStream := present)
    {
      hasStream := present;
    }

    /** `write(data)`: copies the old queue and then `data` into a new array. */
    method Write(data: array<byte>)
      modifies this
      ensures fresh(queue)
      ensures Snap() == WriteSpec(old(Snap()), data[..])
    {
      var newData := Joined(queue, data);
      queue := newData;
    }

    /** `copyQueue()`. */
    method CopyQueue()
      modifies this
      ensures Snap() == CopySpec(old(Snap()))
    {
      buffer := queue;
      queue := null;
    }

    /** `queueSize()`: the length of the queue, 0 when it is null. */
    method QueueSize() returns (n: int)
      ensures n == |OrEmpty(Snap().queue)|
      ensures n == 0 <==> queue == null || queue.Length == 0
    {
      if queue != null {
        n := queue.Length;
      } else {
        n := 0;
      }
    }

    /** `send()`; `ioFails` stands for the stream throwing IOException. */
    method Send(ioFails: bool) returns (outcome: SendOutcome)
      modifies this
      ensures (Snap(), outcome) == SendSpec(old(Snap()), ioFails)
    {
      if !hasStream || buffer == null {
        return NullPointer;
      }
      if ioFails {
        queue := null;
        buffer := null;
        hasStream := false;
        return IOError;
      }
      sent := sent + buffer[..];
      buffer := null;
      return Delivered;
    }

    /** `done()`. */
    method Done() returns (d: bool)
      ensures d <==> !run
    {
      d := !run;
    }

    /** `quit()`. */
    method Quit()
      modifies this
      ensures Snap() == old(Snap()).(run := false)
    {
      run := false;
    }

    /**
     * One pass of the `run` loop, entered while `done()` is false: copy the
     * queue, then send when there is both a stream and a buffer; otherwise,
     * if the thread has been told to quit, report CALL_ENDED and quit, else
     * sleep. `ioMessage` is the text of the IOException when the send fails.
     */
    method RunStep(ioFails: bool, ioMessage: string) returns (step: Step)
      modifies this
      ensures var c := CopySpec(old(Snap()));
        if c.hasStream && c.buffer.Some? then
          (Snap(), if ioFails then Lost(ioMessage) else Sent) == (SendSpec(c, ioFails).0, step)
        else if !c.run then step == Ended && Snap() == c
        else step == Idle && Snap() == c
    {
      CopyQueue();
      if hasStream && buffer != null {
        var outcome := Send(ioFails);
        if outcome == IOError {
          return Lost(ioMessage);
        }
        return Sent;
      }
      var d := Done();
      if d {
        Quit();
        return Ended;
      }
      return Idle;
    }
  }

  // ---------------------------------------------------------------------
  // What the operations preserve
  // ---------------------------------------------------------------------

  /** The operations of the writer, as they are applied by its clients and its loop. */
  datatype Op = WriteOp(data: seq<byte>) | CopyOp | SendOp(ioFails: bool) | QuitOp

  function Apply(st: WriterState, op: Op): WriterState
  {
    match op
    case WriteOp(d) => WriteSpec(st, d)
    case CopyOp => CopySpec(st)
    case SendOp(f) => SendSpec(st, f).0
    case QuitOp => st.(run := false)
  }

  function RunOps(st: WriterState, ops: seq<Op>): WriterState
    decreases |ops|
  {
    if |ops| == 0 then st else RunOps(Apply(st, ops[0]), ops[1..])
  }

  /** The bytes the operations hand to `write`, in order. */
  function Written(ops: seq<Op>): seq<byte>
    decreases |ops|
  {
    if |ops| == 0 then []
    else (if ops[0].WriteOp? then ops[0].data else []) + Written(ops[1..])
  }

  /**
   * A trace that never copies over an unsent buffer and whose sends never
   * fail: the conditions under which the writer keeps every byte.
   */
  predicate Careful(st: WriterState, ops: seq<Op>)
    decreases |ops|
  {
    |ops| == 0 ||
    (!(ops[0].CopyOp? && st.buffer.Some? && st.buffer.value != []) &&
     !(ops[0].SendOp? && ops[0].ioFails) &&
     Careful(Apply(st, ops[0]), ops[1..]))
  }

  /** One operation of a careful trace moves bytes only from `write` towards the stream. */
  lemma ApplyConserves(st: WriterState, op: Op)
    requires !(op.CopyOp? && st.buffer.Some? && st.buffer.value != [])
    requires !(op.SendOp? && op.ioFails)
    ensures var n := Apply(st, op);
      n.sent + Pending(n) == st.sent + Pending(st) + (if op.WriteOp? then op.data else [])
  {
    match op
    case WriteOp(d) =>
      assert Pending(Apply(st, op)) == OrEmpty(st.buffer) + (OrEmpty(st.queue) + d);
    case CopyOp =>
    case SendOp(f) =>
      if st.hasStream && st.buffer.Some? {
        assert Pending(st) == st.buffer.value + OrEmpty(st.queue);
      }
    case QuitOp =>
  }

  /**
   * No byte is lost or duplicated: along a careful trace, what the streams
   * accepted followed by what is still pending is what was there before,
   * followed by everything written.
   */
  lemma {:induction false} Conservation(st: WriterState, ops: seq<Op>)
    requires Careful(st, ops)
    ensures var n := RunOps(st, ops);
      n.sent + Pending(n) == st.sent + Pending(st) + Written(ops)
    decreases |ops|
  {
    if |ops| > 0 {
      var m := Apply(st, ops[0]);
      ApplyConserves(st, ops[0]);
      Conservation(m, ops[1..]);
      var w := if ops[0].WriteOp? then ops[0].data else [];
      assert Written(ops) == w + Written(ops[1..]);
    }
  }

  /** What has been sent is never taken back, whatever the trace. */
  lemma {:induction false} SentGrows(st: WriterState, ops: seq<Op>)
    ensures var n := RunOps(st, ops); |st.sent| <= |n.sent| && n.sent[..|st.sent|] == st.sent
    decreases |ops|
  {
    if |ops| > 0 {
      var m := Apply(st, ops[0]);
      assert |st.sent| <= |m.sent| && m.sent[..|st.sent|] == st.sent;
      SentGrows(m, ops[1..]);
    }
  }

  /** Nothing sets `run` again: once quit, the thread stays done along any trace. */
  lemma {:induction false} QuitIsFinal(st: WriterState, ops: seq<Op>)
    requires !st.run
    ensures !RunOps(st, ops).run
    decreases |ops|
  {
    if |ops| > 0 {
      QuitIsFinal(Apply(st, ops[0]), ops[1..]);
    }
  }

  /**
   * `copyQueue` over a buffer that was not sent (the loop skips the send
   * while the stream is null) discards that buffer's bytes.
   */
  lemma CopyDiscardsUnsentBuffer(st: WriterState)
    requires st.buffer.Some? && st.buffer.value != []
    ensures |Pending(CopySpec(st))| < |Pending(st)|
  {
  }
}
