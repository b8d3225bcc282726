/** ble_at.py as it is written: the reader side of BleAtHost, with its buffers and queues as fields. */
module Host {
  import opened Common
  import opened ControlParser
  import opened ExitMatcher

  class BleAtHost {
    var lineQueue: seq<string>    // events, oldest first
    var dataQueue: seq<string>    // chunks of stream data, oldest first
    var dataMode: bool
    var exitPending: bool
    var lineBuffer: string
    var exitBuffer: string        // a local of _reader_loop

    constructor ()
      ensures !dataMode && !exitPending && lineQueue == [] && dataQueue == [] && lineBuffer == exitBuffer == ""
    {
      lineQueue, dataQueue, dataMode, exitPending, lineBuffer, exitBuffer := [], [], false, false, "", "";
    }

    ghost function Lines(): Control
      reads this
    {
      Control(lineBuffer, lineQueue)
    }

    method EmitData(chunk: string)
      modifies this`dataQueue
      ensures dataQueue == if chunk == "" then old(dataQueue) else old(dataQueue) + [chunk]
      ensures Join(dataQueue) == Join(old(dataQueue)) + chunk
    {
      if chunk == "" {
        assert Join(dataQueue) + chunk == Join(dataQueue);
        return;
      }
      JoinSnoc(dataQueue, chunk);
      dataQueue := dataQueue + [chunk];
    }

    method ProcessControlBytes(chunk: string)
      modifies this`lineQueue, this`lineBuffer
      ensures Lines() == OnBytes(old(Lines()), chunk)
    {
      for i := 0 to |chunk|
        invariant Lines() == OnBytes(old(Lines()), chunk[..i])
      {
        var ch := chunk[i];
        assert chunk[..i + 1][..i] == chunk[..i];
        if ch == '>' && lineBuffer == "" {
          lineQueue := lineQueue + [">"];
        } else {
          lineBuffer := lineBuffer + [ch];
          if IsEol(ch) {
            var line := Strip(lineBuffer);
            lineBuffer := "";
            if line != "" {
              lineQueue := lineQueue + [line];
            }
          }
        }
      }
      assert chunk[..|chunk|] == chunk;
    }

    method PendingExitPrefixLen(buffer: string) returns (prefixLen: nat)
      ensures prefixLen == HeldLen(EXIT_EVENT, buffer)
    {
      prefixLen := Min(|buffer|, |EXIT_EVENT| - 1);
      while prefixLen > 0
        invariant prefixLen <= Min(|buffer|, |EXIT_EVENT| - 1)
        invariant forall j | prefixLen < j <= Min(|buffer|, |EXIT_EVENT| - 1) :: !EndsInPrefix(EXIT_EVENT, buffer, j)
      {
        if buffer[|buffer| - prefixLen..] <= EXIT_EVENT {
          break;
        }
        prefixLen := prefixLen - 1;
      }
      HeldUnique(EXIT_EVENT, buffer, prefixLen);
    }

    /** One chunk while the exit is awaited.  The matcher's answer decides what is queued as data, what stays
        in the buffer and, once the event is there, what the control parser gets. */
    method HandleExitPendingChunk(chunk: string)
      requires dataMode && exitPending
      modifies this
      ensures var m := Whole(EXIT_EVENT, old(exitBuffer) + chunk);
              && Join(dataQueue) == Join(old(dataQueue)) + m.data
              && (m.Before? ==> dataMode && exitPending && exitBuffer == m.held && Lines() == old(Lines()))
              && (m.After? ==>
                    !dataMode && !exitPending && exitBuffer == "" &&
                    Lines() == OnBytes(Control(old(lineBuffer), old(lineQueue) + [Strip(EXIT_EVENT)]), m.rest))
    {
      hide Whole, Find, HeldLen, OnBytes, Strip, EndsInPrefix, OccursAt, Join;
      exitBuffer := exitBuffer + chunk;
      assert Remains(EXIT_EVENT, exitBuffer, "", exitBuffer) by { AllRemains(EXIT_EVENT, exitBuffer); }
      ghost var all := exitBuffer;
      ghost var passed := "";
      while exitBuffer != ""
        invariant Remains(EXIT_EVENT, all, passed, exitBuffer)
        invariant Join(dataQueue) == Join(old(dataQueue)) + passed
        invariant dataMode && exitPending && Lines() == old(Lines())
        decreases |exitBuffer|
      {
        var eventStart := Find(EXIT_EVENT, exitBuffer);
        if eventStart == 0 {
          AtEvent(EXIT_EVENT, all, passed, exitBuffer);
          exitBuffer := exitBuffer[|EXIT_EVENT|..];
          exitPending, dataMode := false, false;
          lineQueue := lineQueue + [Strip(EXIT_EVENT)];
          NoBytes(Lines());
          if exitBuffer != "" {
            var remaining := exitBuffer;
            exitBuffer := "";
            ProcessControlBytes(remaining);
          }
          return;
        }
        if eventStart > 0 {
          BeforeEvent(EXIT_EVENT, all, passed, exitBuffer);
          EmitData(exitBuffer[..eventStart]);
          passed := passed + exitBuffer[..eventStart];
          exitBuffer := exitBuffer[eventStart..];
          continue;
        }
        var prefixLen := PendingExitPrefixLen(exitBuffer);
        var flushLen := |exitBuffer| - prefixLen;
        NoEvent(EXIT_EVENT, all, passed, exitBuffer);
        if flushLen <= 0 {
          return;
        }
        EmitData(exitBuffer[..flushLen]);
        passed := passed + exitBuffer[..flushLen];
        exitBuffer := exitBuffer[flushLen..];
      }
      NothingLeft(EXIT_EVENT, all, passed);
    }

    /** One read of _reader_loop. */
    method Receive(chunk: string)
      modifies this
      ensures !old(dataMode) ==>
                dataQueue == old(dataQueue) && !dataMode && exitPending == old(exitPending) &&
                exitBuffer == old(exitBuffer) && Lines() == OnBytes(old(Lines()), chunk)
      ensures old(dataMode) && !old(exitPending) ==>
                Join(dataQueue) == Join(old(dataQueue)) + chunk && dataMode && !exitPending &&
                exitBuffer == old(exitBuffer) && Lines() == old(Lines())
      ensures old(dataMode) && old(exitPending) ==>
                var m := Whole(EXIT_EVENT, old(exitBuffer) + chunk);
                && Join(dataQueue) == Join(old(dataQueue)) + m.data
                && (m.Before? ==> dataMode && exitPending && exitBuffer == m.held && Lines() == old(Lines()))
                && (m.After? ==>
                      !dataMode && !exitPending && exitBuffer == "" &&
                      Lines() == OnBytes(Control(old(lineBuffer), old(lineQueue) + [Strip(EXIT_EVENT)]), m.rest))
    {
      if dataMode {
        if exitPending {
          HandleExitPendingChunk(chunk);
          return;
        }
        EmitData(chunk);
        return;
      }
      ProcessControlBytes(chunk);
    }
  }
}
