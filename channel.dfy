/**
 * The control helpers of migration/colo.c (colo_ctl_put, colo_ctl_get_value,
 * colo_ctl_get) over the two QEMUFile directions of a checkpoint session.
 * A file is modelled at frame level: what was written, or what is there to read.
 */
module Channel {
  import opened Wrappers
  import opened Wire

  /** Outcome of colo_ctl_get: 0, -1 after a read error, or the exit(1) taken on a mismatch. */
  datatype CtlGet = Matched | ReadFailed | Desync(received: Word)

  /** The word qemu_get_be64 returns at position pos, or None when the read sets the file's error. */
  function NextWord(frames: seq<Frame>, pos: nat): Option<Word>
  {
    if pos < |frames| && frames[pos].Ctl? then Some(frames[pos].word) else None
  }

  /** colo_ctl_get on a stream: what it reports when the next word is expected to be `require`. */
  function Expect(frames: seq<Frame>, pos: nat, require: Word): CtlGet
  {
    match NextWord(frames, pos)
    case None => ReadFailed
    case Some(w) => if w == require then Matched else Desync(w)
  }

  /** colo_ctl_get succeeds exactly when the next word is the required one; any other word is a fatal desync, never a success. */
  lemma ExpectMeaning(frames: seq<Frame>, pos: nat, require: Word)
    ensures Expect(frames, pos, require) == Matched <==> pos < |frames| && frames[pos] == Ctl(require)
    ensures Expect(frames, pos, require) == ReadFailed <==> !(pos < |frames| && frames[pos].Ctl?)
    ensures Expect(frames, pos, require).Desync? <==>
              pos < |frames| && frames[pos].Ctl? && frames[pos].word != require
    ensures Expect(frames, pos, require).Desync? ==>
              frames[pos] == Ctl(Expect(frames, pos, require).received)
  {
  }

  /** The write side of a QEMUFile: the frames it carried and how many more the transport accepts. */
  class OutFile {
    var frames: seq<Frame>
    var capacity: nat

    constructor (capacity: nat)
      ensures frames == [] && this.capacity == capacity
    {
      frames := [];
      this.capacity := capacity;
    }

    /**
     * Writes one frame and flushes, returning qemu_file_get_error: 0, or a negative
     * value once the transport is broken, represented here by -1 (the stored errno is
     * not modelled). The error is sticky: a failed write leaves no capacity.
     */
    method Put(f: Frame) returns (ret: int)
      modifies this
      ensures ret == 0 <==> old(capacity) > 0
      ensures ret == 0 || ret == -1
      ensures frames == if ret == 0 then old(frames) + [f] else old(frames)
      ensures capacity == if ret == 0 then old(capacity) - 1 else 0
    {
      if capacity > 0 {
        frames := frames + [f];
        capacity := capacity - 1;
        ret := 0;
      } else {
        ret := -1;
      }
    }

    /** colo_ctl_put: one control word, written and flushed. */
    method CtlPut(request: Word) returns (ret: int)
      modifies this
      ensures ret == 0 <==> old(capacity) > 0
      ensures ret == 0 || ret == -1
      ensures frames == if ret == 0 then old(frames) + [Ctl(request)] else old(frames)
      ensures capacity == if ret == 0 then old(capacity) - 1 else 0
    {
      ret := Put(Ctl(request));
    }
  }

  /** The read side of a QEMUFile: the frames the peer wrote, and how far they have been read. */
  class InFile {
    const frames: seq<Frame>
    var pos: nat

    constructor (frames: seq<Frame>)
      ensures this.frames == frames && pos == 0
    {
      this.frames := frames;
      pos := 0;
    }

    /** colo_ctl_get_value: 0 and the next word, or -1 after a read error. */
    method CtlGetValue() returns (ret: int, value: Word)
      modifies this
      ensures ret == 0 <==> NextWord(frames, old(pos)).Some?
      ensures ret == 0 || ret == -1
      ensures ret == 0 ==> value == NextWord(frames, old(pos)).value && pos == old(pos) + 1
      ensures ret != 0 ==> pos == old(pos)
    {
      if pos < |frames| && frames[pos].Ctl? {
        value := frames[pos].word;
        pos := pos + 1;
        ret := 0;
      } else {
        value := 0;
        ret := -1;
      }
    }

    /**
     * colo_ctl_get: Matched (0) when the next word is `require`, ReadFailed (-1) on a
     * read error, and Desync for any other word, where the source exits the process.
     */
    method CtlGet(require: Word) returns (r: CtlGet)
      modifies this
      ensures r == Expect(frames, old(pos), require)
      ensures r == Matched <==> old(pos) < |frames| && frames[old(pos)] == Ctl(require)
      ensures pos == if r == ReadFailed then old(pos) else old(pos) + 1
    {
      var ret, value := CtlGetValue();
      if ret < 0 {
        return ReadFailed;
      }
      if value != require {
        return Desync(value);
      }
      return Matched;
    }

    /**
     * qsb_fill_buffer followed by the length check of the secondary: succeeds when the
     * next frame is a byte run of exactly `size` bytes, which it returns.
     */
    method FillBuffer(size: Word) returns (ok: bool, data: seq<byte>)
      modifies this
      ensures ok <==> old(pos) < |frames| && frames[old(pos)].Bytes? && |frames[old(pos)].data| == size
      ensures ok ==> data == frames[old(pos)].data && pos == old(pos) + 1
      ensures !ok ==> pos == old(pos)
    {
      if pos < |frames| && frames[pos].Bytes? && |frames[pos].data| == size {
        data := frames[pos].data;
        pos := pos + 1;
        ok := true;
      } else {
        data := [];
        ok := false;
      }
    }
  }
}
