/** e2e_stream_test.py as it is written: the incremental parser. */
module FrameParsing {
  import opened Frames

  /** bytearray.find of the magic. */
  function FindMagic(s: seq<byte>): (r: int)
    ensures r == -1 || MagicAt(s, r)
    ensures forall i :: MagicAt(s, i) ==> 0 <= r <= i
  {
    FindMagicFrom(s, 0)
  }

  function FindMagicFrom(s: seq<byte>, from: nat): (r: int)
    ensures r == -1 || (from <= r && MagicAt(s, r))
    ensures forall i | i >= from :: MagicAt(s, i) ==> 0 <= r <= i
    decreases |s| - from
  {
    if from + 4 > |s| then -1 else if MagicAt(s, from) then from else FindMagicFrom(s, from + 1)
  }

  // The four ways the loop shortens the buffer.

  lemma NoMagic(n: nat, all: seq<byte>, frames: seq<Frame>, buffer: seq<byte>)
    requires n >= HEADER && Resumes(n, all, frames, buffer) && |buffer| >= HEADER && FindMagic(buffer) == -1
    ensures Resumes(n, all, frames, buffer[|buffer| - 3..])
  {
    DropToMagic(n, buffer, |buffer| - 3);
    hide Resumes;
    ResumesTwice(n, all, frames, buffer, [], buffer[|buffer| - 3..]);
    assert frames + [] == frames;
  }

  lemma SkipToMagic(n: nat, all: seq<byte>, frames: seq<Frame>, buffer: seq<byte>)
    requires n >= HEADER && Resumes(n, all, frames, buffer) && FindMagic(buffer) >= 0
    ensures FindMagic(buffer) + 4 <= |buffer| && Resumes(n, all, frames, buffer[FindMagic(buffer)..])
  {
    DropToMagic(n, buffer, FindMagic(buffer));
    hide Resumes;
    ResumesTwice(n, all, frames, buffer, [], buffer[FindMagic(buffer)..]);
    assert frames + [] == frames;
  }

  lemma SkipInvalid(n: nat, all: seq<byte>, frames: seq<Frame>, buffer: seq<byte>)
    requires n >= HEADER && Resumes(n, all, frames, buffer)
    requires |buffer| >= n && Validate(n, buffer[..n]) == None
    ensures Resumes(n, all, frames, buffer[1..])
  {
    DropInvalid(n, buffer);
    hide Resumes, Validate;
    ResumesTwice(n, all, frames, buffer, [], buffer[1..]);
    assert frames + [] == frames;
  }

  lemma TakeFrame(n: nat, all: seq<byte>, frames: seq<Frame>, buffer: seq<byte>)
    requires n >= HEADER && Resumes(n, all, frames, buffer)
    requires |buffer| >= n && Validate(n, buffer[..n]).Some?
    ensures Resumes(n, all, frames + [Validate(n, buffer[..n]).value], buffer[n..])
  {
    TakeValid(n, buffer);
    hide Resumes, Validate;
    ResumesTwice(n, all, frames, buffer, [Validate(n, buffer[..n]).value], buffer[n..]);
  }

  class FrameParser {
    const frameSize: nat
    var buffer: seq<byte>

    constructor (frameSize: nat)
      requires frameSize >= HEADER
      ensures this.frameSize == frameSize && buffer == []
    {
      this.frameSize := frameSize;
      buffer := [];
    }

    // The search of one turn of the loop: drops what cannot begin a frame, and says whether to go on.
    method SeekMagic(ghost all: seq<byte>, ghost frames: seq<Frame>) returns (candidate: bool)
      requires frameSize >= HEADER && |buffer| >= HEADER && Resumes(frameSize, all, frames, buffer)
      modifies this
      ensures Resumes(frameSize, all, frames, buffer) && |buffer| <= |old(buffer)|
      ensures candidate <==> |buffer| >= frameSize
    {
      hide Resumes, Greedy, Validate, FindMagic, MagicAt;
      var start := FindMagic(buffer);
      if start < 0 {
        NoMagic(frameSize, all, frames, buffer);
        buffer := buffer[|buffer| - 3..];
        return false;
      }
      SkipToMagic(frameSize, all, frames, buffer);
      buffer := buffer[start..];
      return |buffer| >= frameSize;
    }

    /** The frames returned and the bytes kept stand for everything fed: whatever comes next is decoded as if
        nothing had been thrown away, and no complete frame is kept back. */
    method Feed(chunk: seq<byte>) returns (frames: seq<Frame>)
      requires frameSize >= HEADER
      modifies this
      ensures Resumes(frameSize, old(buffer) + chunk, frames, buffer)
      ensures Greedy(frameSize, buffer) == []
    {
      hide Resumes, Greedy, Validate;
      frames := [];
      buffer := buffer + chunk;
      ghost var all := buffer;
      ResumesNow(frameSize, all);
      while |buffer| >= HEADER
        invariant Resumes(frameSize, all, frames, buffer)
        decreases |buffer|
      {
        var candidate := SeekMagic(all, frames);
        if !candidate {
          break;
        }
        var frame := Validate(frameSize, buffer[..frameSize]);
        if frame == None {
          SkipInvalid(frameSize, all, frames, buffer);
          buffer := buffer[1..];
          continue;
        }
        TakeFrame(frameSize, all, frames, buffer);
        frames := frames + [frame.value];
        buffer := buffer[frameSize..];
      }
      NothingComplete(frameSize, buffer);
    }

    /** Any number of feeds: all the frames returned are the greedy decoding of all the bytes fed, that is, the
        leftmost frames in them that somebody built. */
    method FeedAll(chunks: seq<seq<byte>>) returns (frames: seq<Frame>)
      requires frameSize >= HEADER && buffer == []
      modifies this
      ensures frames == Greedy(frameSize, Joined(chunks))
      ensures Leftmost(frameSize, Joined(chunks), 0, Places(frameSize, Joined(chunks), 0), frames)
      ensures Resumes(frameSize, Joined(chunks), frames, buffer)
    {
      hide Resumes, Greedy, Leftmost, Places;
      frames := [];
      ResumesNow(frameSize, []);
      NothingComplete(frameSize, []);
      for i := 0 to |chunks|
        invariant Resumes(frameSize, Joined(chunks[..i]), frames, buffer)
        invariant Greedy(frameSize, buffer) == []
      {
        ghost var before, kept := frames, buffer;
        var more := Feed(chunks[i]);
        ResumesMore(frameSize, Joined(chunks[..i]), before, kept, chunks[i]);
        ResumesTwice(frameSize, Joined(chunks[..i]) + chunks[i], before, kept + chunks[i], more, buffer);
        assert chunks[..i + 1][..i] == chunks[..i];
        frames := frames + more;
      }
      assert chunks[..|chunks|] == chunks;
      DecodedSoFar(frameSize, Joined(chunks), frames, buffer);
      GreedyFinds(frameSize, Joined(chunks), 0);
      assert Joined(chunks)[0..] == Joined(chunks);
    }
  }

  lemma NothingComplete(n: nat, buffer: seq<byte>)
    requires n >= HEADER
    ensures |buffer| < n ==> Greedy(n, buffer) == []
  {
  }

  function Joined(chunks: seq<seq<byte>>): seq<byte> {
    if chunks == [] then [] else Joined(chunks[..|chunks| - 1]) + chunks[|chunks| - 1]
  }

  lemma DecodedSoFar(n: nat, s: seq<byte>, frames: seq<Frame>, buffer: seq<byte>)
    requires n >= HEADER && Resumes(n, s, frames, buffer) && Greedy(n, buffer) == []
    ensures frames == Greedy(n, s)
  {
    assert s + [] == s && buffer + [] == buffer;
  }

  /** Decoding is incremental: what a prefix leaves behind, followed by the rest, gives the remaining frames. */
  lemma Incremental(n: nat, s: seq<byte>, frames: seq<Frame>, buffer: seq<byte>, t: seq<byte>)
    requires n >= HEADER && Resumes(n, s, frames, buffer) && Greedy(n, buffer) == []
    ensures Greedy(n, s + t) == Greedy(n, s) + Greedy(n, buffer + t)
  {
    DecodedSoFar(n, s, frames, buffer);
  }
}
