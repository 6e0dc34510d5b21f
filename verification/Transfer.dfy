/** sources/CommonFuncs.c: the loops every transfer goes through. */
module Transfer {
  import opened Wire

  /** An open descriptor: the bytes still to be read from it, the bytes written to it, and how many
      bytes the coming `read` and `write` calls move. Once the schedule is used up every call moves
      all it is asked for. */
  class Descriptor {
    var input: string
    var output: string
    var schedule: seq<nat>

    constructor (input: string)
      ensures this.input == input && output == "" && schedule == []
    {
      this.input, output, schedule := input, "", [];
    }

    /** `write`: the first bytes of the buffer, as many as this call moves. */
    method Write(buffer: array<char>, count: nat) returns (n: nat)
      requires 1 <= count <= buffer.Length
      modifies this`output, this`schedule
      ensures n == Moved(old(schedule), count) && schedule == Rest(old(schedule))
      ensures output == old(output) + buffer[..n]
    {
      n := Moved(schedule, count);
      schedule := Rest(schedule);
      output := output + buffer[..n];
    }

    /** `read`: into the beginning of the buffer, as many bytes as this call moves. */
    method Read(buffer: array<char>, count: nat) returns (n: nat)
      requires 1 <= count <= buffer.Length && count <= |input|
      modifies this`input, this`schedule, buffer
      ensures n == Moved(old(schedule), count) && schedule == Rest(old(schedule))
      ensures input == old(input)[n..]
      ensures buffer[..] == old(input)[..n] + old(buffer[..])[n..]
    {
      n := Moved(schedule, count);
      schedule := Rest(schedule);
      forall i | 0 <= i < n {
        buffer[i] := input[i];
      }
      assert buffer[..] == input[..n] + old(buffer[..])[n..];
      input := input[n..];
    }
  }

  /** A call moves at least one byte and at most what it is asked for. */
  function Moved(schedule: seq<nat>, count: nat): (n: nat)
    requires count >= 1
    ensures 1 <= n <= count
  {
    if schedule == [] then count else if schedule[0] == 0 then 1 else if schedule[0] < count then schedule[0] else count
  }

  function Rest(schedule: seq<nat>): seq<nat> {
    if schedule == [] then [] else schedule[1..]
  }

  /** The sizes of the successive calls that move `total` bytes. */
  function Chunks(schedule: seq<nat>, total: nat): (chunks: seq<nat>)
    ensures Total(chunks) == total
    ensures forall i | 0 <= i < |chunks| :: 1 <= chunks[i] <= total
    ensures schedule == [] && total > 0 ==> chunks == [total]
    decreases total
  {
    if total == 0 then [] else [Moved(schedule, total)] + Chunks(Rest(schedule), total - Moved(schedule, total))
  }

  function Total(chunks: seq<nat>): nat {
    if chunks == [] then 0 else chunks[0] + Total(chunks[1..])
  }

  // ---------------------------------------------------------------- sending

  /** What the send loop emits: every call starts again at the beginning of the buffer. */
  function Emitted(buffer: string, chunks: seq<nat>): (r: string)
    requires forall i | 0 <= i < |chunks| :: chunks[i] <= |buffer|
    ensures |r| == Total(chunks)
  {
    if chunks == [] then "" else buffer[..chunks[0]] + Emitted(buffer, chunks[1..])
  }

  /** `Send_Data` */
  method SendData(fd: Descriptor, buffer: array<char>, total: nat)
    requires total <= buffer.Length && total < TWO_31
    modifies fd`output, fd`schedule
    ensures |fd.output| == |old(fd.output)| + total
    ensures fd.output == old(fd.output) + Emitted(buffer[..], Chunks(old(fd.schedule), total))
    ensures old(fd.schedule) == [] ==> fd.schedule == [] && fd.output == old(fd.output) + buffer[..total]
  {
    hide Emitted, Chunks, Total, Moved, Rest;
    var bytesToSend: nat := total;
    ghost var goal := fd.output + Emitted(buffer[..], Chunks(fd.schedule, total));
    while bytesToSend != 0
      invariant bytesToSend <= total
      invariant fd.output + Emitted(buffer[..], Chunks(fd.schedule, bytesToSend)) == goal
      invariant old(fd.schedule) == [] ==> fd.schedule == []
      decreases bytesToSend
    {
      EmittedStep(fd.output, buffer[..], fd.schedule, bytesToSend);
      var bytesWritten := fd.Write(buffer, bytesToSend);
      bytesToSend := bytesToSend - bytesWritten;
    }
    EmittedNothing(buffer[..], fd.schedule);
    if old(fd.schedule) == [] && total > 0 {
      EmittedStep(old(fd.output), buffer[..], [], total);
    }
  }

  lemma EmittedNothing(buffer: string, schedule: seq<nat>)
    ensures Emitted(buffer, Chunks(schedule, 0)) == ""
    ensures Rest([]) == []
  {
  }

  lemma EmittedStep(output: string, buffer: string, schedule: seq<nat>, count: nat)
    requires 1 <= count <= |buffer|
    ensures output + Emitted(buffer, Chunks(schedule, count))
         == output + buffer[..Moved(schedule, count)]
          + Emitted(buffer, Chunks(Rest(schedule), count - Moved(schedule, count)))
    ensures schedule == [] ==> Rest(schedule) == []
    ensures schedule == [] ==> Emitted(buffer, Chunks(schedule, count)) == buffer[..count]
  {
    var n := Moved(schedule, count);
    var chunks := Chunks(schedule, count);
    assert chunks[1..] == Chunks(Rest(schedule), count - n);
    assert Emitted(buffer, chunks) == buffer[..n] + Emitted(buffer, chunks[1..]);
    assert output + (buffer[..n] + Emitted(buffer, chunks[1..])) == output + buffer[..n] + Emitted(buffer, chunks[1..]);
  }

  // ---------------------------------------------------------------- receiving

  /** The buffer after the receive loop: every call overwrites its beginning. */
  function Overwritten(buffer: string, data: string, chunks: seq<nat>): (r: string)
    requires |data| == Total(chunks) && forall i | 0 <= i < |chunks| :: chunks[i] <= |buffer|
    ensures |r| == |buffer|
    decreases |chunks|
  {
    if chunks == [] then buffer
    else Overwritten(data[..chunks[0]] + buffer[chunks[0]..], data[chunks[0]..], chunks[1..])
  }

  /** `Receive_Data`; the bytes asked for arrive sooner or later. */
  method ReceiveData(fd: Descriptor, buffer: array<char>, total: nat)
    requires total <= buffer.Length && total < TWO_31 && total <= |fd.input|
    modifies fd`input, fd`schedule, buffer
    ensures fd.input == old(fd.input)[total..]
    ensures buffer[..] == Overwritten(old(buffer[..]), old(fd.input)[..total], Chunks(old(fd.schedule), total))
    ensures old(fd.schedule) == [] ==>
              fd.schedule == [] && buffer[..] == old(fd.input)[..total] + old(buffer[..])[total..]
  {
    hide Overwritten, Chunks, Total, Moved, Rest;
    var bytesToReceive: nat := total;
    ghost var all, goal := fd.input, Overwritten(buffer[..], fd.input[..total], Chunks(fd.schedule, total));
    while bytesToReceive != 0
      invariant bytesToReceive <= total && fd.input == all[total - bytesToReceive..]
      invariant Overwritten(buffer[..], fd.input[..bytesToReceive], Chunks(fd.schedule, bytesToReceive)) == goal
      invariant old(fd.schedule) == [] ==> fd.schedule == []
      decreases bytesToReceive
    {
      OverwrittenStep(buffer[..], fd.input, fd.schedule, bytesToReceive);
      var bytesRead := fd.Read(buffer, bytesToReceive);
      bytesToReceive := bytesToReceive - bytesRead;
    }
    OverwrittenNothing(buffer[..], fd.schedule);
    assert fd.input[..0] == "";
    assert buffer[..] == goal;
    if total == 0 {
      OverwrittenNothing(old(buffer[..]), old(fd.schedule));
      assert old(fd.input)[..0] == "";
    } else if old(fd.schedule) == [] {
      OverwrittenStep(old(buffer[..]), all, [], total);
    }
  }

  lemma OverwrittenNothing(buffer: string, schedule: seq<nat>)
    ensures Chunks(schedule, 0) == [] && Total([]) == 0 && Overwritten(buffer, "", []) == buffer
  {
  }

  lemma OverwrittenStep(buffer: string, input: string, schedule: seq<nat>, count: nat)
    requires 1 <= count <= |buffer| && count <= |input|
    ensures (var n := Moved(schedule, count);
             Overwritten(buffer, input[..count], Chunks(schedule, count))
             == Overwritten(input[..n] + buffer[n..], input[n..][..count - n], Chunks(Rest(schedule), count - n)))
    ensures schedule == [] ==> Rest(schedule) == []
    ensures schedule == [] ==>
              Overwritten(buffer, input[..count], Chunks(schedule, count)) == input[..count] + buffer[count..]
  {
    var n := Moved(schedule, count);
    var data, chunks := input[..count], Chunks(schedule, count);
    assert chunks[1..] == Chunks(Rest(schedule), count - n);
    assert data[..n] == input[..n] && data[n..] == input[n..][..count - n];
  }

  /** The pair both copy loops are made of: one block is received and sent on. */
  method CopyBlock(from: Descriptor, to: Descriptor, buffer: array<char>, n: nat)
    requires from != to && from.schedule == [] && to.schedule == []
    requires n <= buffer.Length && n < TWO_31 && n <= |from.input|
    modifies from`input, from`schedule, to`output, to`schedule, buffer
    ensures from.schedule == [] && to.schedule == []
    ensures from.input == old(from.input)[n..] && to.output == old(to.output) + old(from.input)[..n]
  {
    hide Overwritten, Emitted, Chunks, Total;
    ReceiveData(from, buffer, n);
    assert buffer[..n] == old(from.input)[..n];
    SendData(to, buffer, n);
  }

  // ---------------------------------------------------------------- when the loops are exact

  /** Whatever it is asked to send, the loop emits exactly that if and only if one call does it all. */
  lemma SendIsExactIff(chunks: seq<nat>)
    requires chunks != [] && forall i | 0 <= i < |chunks| :: 1 <= chunks[i] <= Total(chunks)
    ensures (forall buffer: string | |buffer| == Total(chunks) :: Emitted(buffer, chunks) == buffer) <==> |chunks| == 1
  {
    hide Emitted, Total;
    if |chunks| == 1 {
      forall buffer: string | |buffer| == Total(chunks)
        ensures Emitted(buffer, chunks) == buffer
      {
        OneCallSends(buffer, chunks);
      }
    } else {
      var marked := SecondCallRepeats(chunks);
    }
  }

  lemma OneCallSends(buffer: string, chunks: seq<nat>)
    requires |chunks| == 1 && |buffer| == Total(chunks) && chunks[0] <= Total(chunks)
    ensures Emitted(buffer, chunks) == buffer
  {
    assert Total(chunks[1..]) == 0 && Emitted(buffer, chunks[1..]) == "";
  }

  /** The second call sends the first byte of the buffer again. */
  lemma SecondCallRepeats(chunks: seq<nat>) returns (buffer: string)
    requires |chunks| >= 2 && forall i | 0 <= i < |chunks| :: 1 <= chunks[i] <= Total(chunks)
    ensures |buffer| == Total(chunks) && Emitted(buffer, chunks) != buffer
  {
    var k, rest := chunks[0], chunks[1..];
    assert Total(rest) == rest[0] + Total(rest[1..]);
    buffer := seq(Total(chunks), i => if i == 0 then 'a' else 'b');
    var emitted := Emitted(buffer, rest);
    assert emitted == buffer[..rest[0]] + Emitted(buffer, rest[1..]);
    assert Emitted(buffer, chunks) == buffer[..k] + emitted;
    assert Emitted(buffer, chunks)[k] == emitted[0] == 'a';
    assert buffer[k] == 'b';
  }

  /** Likewise for receiving into a buffer of the right size. */
  lemma ReceiveIsExactIff(chunks: seq<nat>)
    requires chunks != [] && forall i | 0 <= i < |chunks| :: 1 <= chunks[i] <= Total(chunks)
    ensures (forall buffer: string, data: string | |buffer| == |data| == Total(chunks) ::
            Overwritten(buffer, data, chunks) == data)
       <==> |chunks| == 1
  {
    hide Overwritten, Total;
    if |chunks| == 1 {
      forall buffer: string, data: string | |buffer| == |data| == Total(chunks)
        ensures Overwritten(buffer, data, chunks) == data
      {
        OneCallReceives(buffer, data, chunks);
      }
    } else {
      var buffer, data := LastByteIsLost(chunks);
    }
  }

  lemma OneCallReceives(buffer: string, data: string, chunks: seq<nat>)
    requires |chunks| == 1 && |buffer| == |data| == Total(chunks) && chunks[0] <= Total(chunks)
    ensures Overwritten(buffer, data, chunks) == data
  {
    assert Total(chunks[1..]) == 0;
    assert data[..chunks[0]] + buffer[chunks[0]..] == data;
  }

  lemma LastByteIsLost(chunks: seq<nat>) returns (buffer: string, data: string)
    requires |chunks| >= 2 && forall i | 0 <= i < |chunks| :: 1 <= chunks[i] <= Total(chunks)
    ensures |buffer| == |data| == Total(chunks) && Overwritten(buffer, data, chunks) != data
  {
    hide Overwritten;
    var n := Total(chunks);
    buffer := seq(n, i => 'b');
    data := seq(n, i => if i == n - 1 then 'a' else 'b');
    KeepsTail(buffer, data, chunks);
    assert data[n - 1] == 'a' && buffer[n - 1] == 'b';
  }

  /** With more than one call, the last place of the buffer is not reached by any of them. */
  lemma {:induction false} LastPlaceUntouched(buffer: string, data: string, chunks: seq<nat>)
    requires |buffer| > 0 && |data| == Total(chunks) && forall i | 0 <= i < |chunks| :: chunks[i] < |buffer|
    ensures Overwritten(buffer, data, chunks)[|buffer| - 1..] == buffer[|buffer| - 1..]
    decreases |chunks|
  {
    if chunks != [] {
      var next := data[..chunks[0]] + buffer[chunks[0]..];
      LastPlaceUntouched(next, data[chunks[0]..], chunks[1..]);
      assert next[|next| - 1..] == buffer[|buffer| - 1..];
    }
  }

  lemma {:induction false} PartIsSmaller(chunks: seq<nat>, i: nat)
    requires i < |chunks| && |chunks| >= 2 && forall j | 0 <= j < |chunks| :: chunks[j] >= 1
    ensures chunks[i] < Total(chunks)
  {
    var rest := chunks[1..];
    assert Total(chunks) == chunks[0] + Total(rest) && Total(rest) == rest[0] + Total(rest[1..]);
    if i > 0 && |chunks| > 2 {
      PartIsSmaller(rest, i - 1);
    }
  }

  lemma KeepsTail(buffer: string, data: string, chunks: seq<nat>)
    requires |chunks| >= 2 && |data| == Total(chunks) == |buffer| && forall i | 0 <= i < |chunks| ::
             1 <= chunks[i] <= |buffer|
    ensures |buffer| > 0 && Overwritten(buffer, data, chunks)[|buffer| - 1] == buffer[|buffer| - 1]
  {
    forall i | 0 <= i < |chunks|
      ensures chunks[i] < |buffer|
    {
      PartIsSmaller(chunks, i);
    }
    LastPlaceUntouched(buffer, data, chunks);
    var r := Overwritten(buffer, data, chunks);
    assert r[|buffer| - 1] == r[|buffer| - 1..][0];
  }

  // ---------------------------------------------------------------- C strings in buffers

  /** `Clear_Buffer` */
  method ClearBuffer(buffer: array<char>, size: nat)
    requires size <= buffer.Length
    modifies buffer
    ensures forall i | 0 <= i < size :: buffer[i] == '\0'
    ensures forall i | size <= i < buffer.Length :: buffer[i] == old(buffer[i])
  {
    forall i | 0 <= i < size {
      buffer[i] := '\0';
    }
  }
}
