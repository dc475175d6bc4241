/** The capture path of an input without resampler: periods from the PCM device, handed on in
    any amounts, through a pre-processing effect, and stripped of additional channels. */
module CapturePipeline {
  type Sample = x: int | -32768 <= x < 32768
  type Frame = seq<Sample>

  /** What one pcm_read answers. */
  datatype PcmRead = Period(frames: seq<Frame>) | Failed(status: int)

  ghost predicate WellBehaved(answers: nat -> PcmRead, period: nat) {
    forall k: nat :: match answers(k)
                     case Period(frames) => |frames| == period
                     case Failed(status) => status < 0
  }

  ghost predicate NeverFails(answers: nat -> PcmRead) {
    forall k: nat :: answers(k).Period?
  }

  /** Everything the device captured in its first n reads. */
  ghost function Captured(answers: nat -> PcmRead, n: nat): seq<Frame> {
    if n == 0 then [] else Captured(answers, n - 1) + (if answers(n - 1).Period? then answers(n - 1).frames else [])
  }

  lemma {:induction false} CapturedGrows(answers: nat -> PcmRead, m: nat, n: nat)
    requires m <= n
    ensures Captured(answers, m) <= Captured(answers, n)
    decreases n
  {
    if m < n { CapturedGrows(answers, m, n - 1); }
  }

  /** Frames handed out are never taken back: a longer part of the captured stream extends a
      shorter one, also across later reads. */
  lemma LongerPartExtends(answers: nat -> PcmRead, m: nat, n: nat, part: seq<Frame>, later: seq<Frame>)
    requires m <= n && part <= Captured(answers, m) && later <= Captured(answers, n) && |part| <= |later|
    ensures part <= later
  {
    CapturedGrows(answers, m, n);
  }

  lemma LaterPart(buf: seq<Frame>, from: nat, count: nat, to: nat)
    requires from + count <= to <= |buf|
    ensures buf[from + count..to] == buf[from..to][count..]
  {
  }

  lemma MovedOver<T>(taken: seq<T>, ahead: seq<T>, count: nat)
    requires count <= |ahead|
    ensures taken + ahead == taken + ahead[..count] + ahead[count..]
  {
    assert ahead == ahead[..count] + ahead[count..];
  }

  class PcmReader {
    const period: nat
    const answers: nat -> PcmRead
    var pcmReads: nat
    var readBuf: array<Frame>
    var readBufSize: nat
    var readBufFrames: nat
    var readStatus: int
    ghost var taken: seq<Frame>

    /** Captured but not handed out yet. */
    ghost function Ahead(): seq<Frame>
      reads this, readBuf
      requires readBufFrames == 0 || readBufFrames <= period <= readBuf.Length
    {
      if readBufFrames == 0 then [] else readBuf[period - readBufFrames..period]
    }

    /** What was captured is what was handed out and what is ahead, in this order. */
    ghost predicate Valid()
      reads this, readBuf
    {
      && 0 < period && WellBehaved(answers, period)
      && readBuf.Length == readBufSize
      && readBufFrames <= period
      && (readBufFrames > 0 ==> period <= readBufSize && readStatus == 0)
      && StatusIsLast()
      && Captured(answers, pcmReads) == taken + Ahead()
    }

    /** A failure is that of the last read. */
    ghost predicate StatusIsLast()
      reads this
    {
      readStatus != 0 ==> pcmReads > 0 && answers(pcmReads - 1) == Failed(readStatus)
    }

    constructor (period: nat, answers: nat -> PcmRead)
      requires 0 < period && WellBehaved(answers, period)
      ensures Valid() && taken == [] && this.period == period && this.answers == answers && fresh(readBuf)
    {
      this.period, this.answers := period, answers;
      readBuf, readBufSize, readBufFrames, readStatus := new Frame[0], 0, 0, 0;
      pcmReads, taken := 0, [];
    }

    /** Reads one period from the device. */
    method Fill()
      requires Valid() && readBufFrames == 0
      modifies this`pcmReads, this`readBuf, this`readBufSize, this`readBufFrames, this`readStatus, readBuf
      ensures Valid() && taken == old(taken) && pcmReads == old(pcmReads) + 1
      ensures readBuf == old(readBuf) || fresh(readBuf)
      ensures readStatus == 0 <==> answers(old(pcmReads)).Period?
      ensures if readStatus == 0 then readBufFrames == period else readBufFrames == 0 && readStatus < 0
      ensures NeverFails(answers) ==> readStatus == 0
    {
      if readBufSize < period {
        readBufSize := period;
        readBuf := new Frame[period];
      }
      var answer := answers(pcmReads);
      assert answer.Period? ==> |answer.frames| == period;
      pcmReads := pcmReads + 1;
      assert Captured(answers, pcmReads) == taken + (if answer.Period? then answer.frames else []);
      hide Captured, WellBehaved;
      match answer {
        case Failed(status) =>
          readStatus := status;
        case Period(frames) =>
          WriteFrames(frames, readBuf, 0);
          SplicedPrefix(readBuf[..], frames);
          readStatus, readBufFrames := 0, period;
          assert Ahead() == frames;
      }
    }

    /** get_next_buffer: `count` frames from `start` in readBuf; none when the read fails. */
    method GetNextBuffer(want: nat) returns (start: nat, count: nat)
      requires Valid()
      modifies this`pcmReads, this`readBuf, this`readBufSize, this`readBufFrames, this`readStatus, readBuf
      ensures Valid() && taken == old(taken)
      ensures readBuf == old(readBuf) || fresh(readBuf)
      ensures start + count <= readBuf.Length && count <= want && count <= readBufFrames
      ensures readBuf[start..start + count] == Ahead()[..count]
      ensures readStatus == 0 && want > 0 ==> count > 0
      ensures readStatus != 0 ==> count == 0 && readStatus < 0
      ensures NeverFails(answers) ==> readStatus == 0
      ensures pcmReads == old(pcmReads) + if old(readBufFrames) == 0 then 1 else 0
    {
      hide Captured, WellBehaved;
      if readBufFrames == 0 {
        Fill();
        if readStatus != 0 { return 0, 0; }
      }
      count := if want > readBufFrames then readBufFrames else want;
      start := period - readBufFrames;
    }

    /** The read buffer is freed and its contents given up. */
    method Drop()
      requires Valid()
      modifies this
      ensures Valid() && old(taken) <= taken == Captured(answers, pcmReads) && pcmReads == old(pcmReads) && fresh(readBuf)
    {
      readBuf, readBufSize, readBufFrames := new Frame[0], 0, 0;
      taken := Captured(answers, pcmReads);
    }

    /** release_buffer. */
    method ReleaseBuffer(count: nat)
      requires Valid() && count <= readBufFrames
      modifies this`readBufFrames, this`taken
      ensures Valid()
      ensures taken == old(taken) + old(Ahead())[..count] && Ahead() == old(Ahead())[count..]
      ensures |Ahead()| == readBufFrames
    {
      hide Captured, WellBehaved;
      ghost var ahead := Ahead();
      if readBufFrames > 0 { LaterPart(readBuf[..], period - readBufFrames, count, period); }
      MovedOver(taken, ahead, count);
      taken := taken + ahead[..count];
      readBufFrames := readBufFrames - count;
      assert Ahead() == ahead[count..];
    }

    /** read_frames: on success the next `frames` frames of the captured stream, none lost, none
        twice, over however many periods. */
    method ReadFrames(dst: array<Frame>, off: nat, frames: nat) returns (r: int, ghost got: seq<Frame>)
      requires Valid() && off + frames <= dst.Length && dst != readBuf
      modifies this, readBuf, dst
      ensures Valid()
      ensures readBuf == old(readBuf) || fresh(readBuf)
      ensures taken == old(taken) + got && old(pcmReads) <= pcmReads
      ensures NeverFails(answers) ==> r >= 0
      ensures r < 0 ==> pcmReads > 0 && answers(pcmReads - 1) == Failed(r)
      ensures if r < 0 then readStatus == r && |got| < frames else r == |got| == frames
      ensures |got| <= frames && dst[..] == Spliced(old(dst[..]), off, got)
    {
      var written := 0;
      got := [];
      ghost var was, before := dst[..], taken;
      assert was == Spliced(was, off, got);
      hide *;
      while written < frames
        invariant Valid() && written <= frames
        invariant readBuf == old(readBuf) || fresh(readBuf)
        invariant dst != readBuf
        invariant HandedOut(dst[..], was, before, off, got) && |got| == written
        invariant old(pcmReads) <= pcmReads
      {
        written, got := ReadMore(dst, off, written, frames, was, before, got);
        if readStatus != 0 {
          GotIt(dst, was, before, off, got);
          return readStatus, got;
        }
      }
      GotIt(dst, was, before, off, got);
      r := written;
    }

    /** Since `before` was handed out and `dst` was `was`, `got` came and stands at `off`. */
    ghost predicate HandedOut(now: seq<Frame>, was: seq<Frame>, before: seq<Frame>, off: nat, got: seq<Frame>)
      reads this
    {
      taken == before + got && off + |got| <= |was| && now == Spliced(was, off, got)
    }

    lemma GotIt(dst: array<Frame>, was: seq<Frame>, before: seq<Frame>, off: nat, got: seq<Frame>)
      requires HandedOut(dst[..], was, before, off, got)
      ensures taken == before + got && off + |got| <= |was| && dst[..] == Spliced(was, off, got)
    {
    }

    method ReadMore(dst: array<Frame>, off: nat, written: nat, frames: nat,
                    ghost was: seq<Frame>, ghost before: seq<Frame>, ghost got: seq<Frame>)
      returns (now: nat, ghost more: seq<Frame>)
      requires Valid() && written < frames && off + frames <= dst.Length && dst != readBuf
      requires HandedOut(dst[..], was, before, off, got) && |got| == written
      modifies this, readBuf, dst
      ensures Valid() && (readBuf == old(readBuf) || fresh(readBuf))
      ensures if readStatus == 0 then written < now <= frames else now == written && readStatus < 0
      ensures NeverFails(answers) ==> readStatus == 0
      ensures HandedOut(dst[..], was, before, off, more) && |more| == now && old(pcmReads) <= pcmReads
    {
      hide Valid, Spliced;
      ghost var piece;
      now, piece := ReadSome(dst, off, written, frames);
      more := got + piece;
      SplicedAppend(was, off, got, piece);
    }

    /** One iteration: it hands out at least a frame, or the read has failed. */
    method ReadSome(dst: array<Frame>, off: nat, written: nat, frames: nat) returns (now: nat, ghost piece: seq<Frame>)
      requires Valid() && written < frames && off + frames <= dst.Length && dst != readBuf
      modifies this, readBuf, dst
      ensures Valid()
      ensures readBuf == old(readBuf) || fresh(readBuf)
      ensures if readStatus == 0 then written < now <= frames else now == written && readStatus < 0
      ensures NeverFails(answers) ==> readStatus == 0
      ensures taken == old(taken) + piece && |piece| == now - written && old(pcmReads) <= pcmReads
      ensures off + now <= dst.Length && dst[..] == Spliced(old(dst[..]), off + written, piece)
    {
      hide Captured, WellBehaved, Spliced, StatusIsLast;
      var start, count := GetNextBuffer(frames - written);
      piece := HandOut(dst, off + written, start, count);
      now := written + count;
    }

    method HandOut(dst: array<Frame>, at: nat, start: nat, count: nat) returns (ghost piece: seq<Frame>)
      requires Valid() && at + count <= dst.Length && dst != readBuf
      requires start + count <= readBuf.Length && count <= readBufFrames && readBuf[start..start + count] == Ahead()[..count]
      modifies this`readBufFrames, this`taken, dst
      ensures Valid() && |piece| == count && taken == old(taken) + piece
      ensures dst[..] == Spliced(old(dst[..]), at, piece)
    {
      hide Captured, WellBehaved, Spliced, StatusIsLast;
      piece := readBuf[start..start + count];
      ghost var ahead := Ahead();
      CopyFrames(readBuf, start, dst, at, count);
      assert Ahead() == ahead;
      ReleaseBuffer(count);
    }
  }

  /** `was` with `piece` written at `at`. */
  function Spliced<T>(was: seq<T>, at: nat, piece: seq<T>): (r: seq<T>)
    requires at + |piece| <= |was|
    ensures |r| == |was|
  {
    was[..at] + piece + was[at + |piece|..]
  }

  lemma {:induction false} SplicedAppend<T>(was: seq<T>, at: nat, a: seq<T>, b: seq<T>)
    requires at + |a| + |b| <= |was|
    ensures Spliced(Spliced(was, at, a), at + |a|, b) == Spliced(was, at, a + b)
  {
  }

  lemma SplicedPrefix<T>(was: seq<T>, piece: seq<T>)
    requires |piece| <= |was|
    ensures |Spliced(was, 0, piece)| == |was| && Spliced(was, 0, piece)[..|piece|] == piece
  {
  }

  method CopyFrames(src: array<Frame>, start: nat, dst: array<Frame>, at: nat, count: nat)
    requires src != dst && start + count <= src.Length && at + count <= dst.Length
    modifies dst
    ensures dst[..] == Spliced(old(dst[..]), at, src[start..start + count])
  {
    ghost var was := dst[..];
    for i := 0 to count
      modifies dst
      invariant forall k :: at <= k < at + i ==> dst[k] == src[k - at + start]
      invariant forall k :: 0 <= k < at || at + i <= k < dst.Length ==> dst[k] == was[k]
    {
      dst[at + i] := src[start + i];
    }
    ghost var r := Spliced(was, at, src[start..start + count]);
    assert |r| == dst.Length;
    assert forall k :: 0 <= k < dst.Length ==> dst[k] == r[k];
  }

  method Realloc(a: array<Frame>, size: nat) returns (b: array<Frame>)
    ensures fresh(b) && b.Length == size
    ensures var kept := if a.Length < size then a.Length else size; b[..kept] == a[..kept]
  {
    b := new Frame[size];
    var kept := if a.Length < size then a.Length else size;
    CopyFrames(a, 0, b, 0, kept);
  }

  /** The copy-down of what an effect left, done as a move. */
  method MoveDown(a: array<Frame>, from: nat, count: nat)
    requires from + count <= a.Length
    modifies a
    ensures a[..count] == old(a[from..from + count])
  {
    ghost var was := a[..];
    for i := 0 to count
      modifies a
      invariant forall k :: 0 <= k < i ==> a[k] == was[from + k]
      invariant forall k :: i <= k < a.Length ==> a[k] == was[k]
    {
      a[i] := a[from + i];
    }
    assert forall k :: 0 <= k < count ==> a[..count][k] == was[from..from + count][k];
  }

  /** The main channels of a frame come first. */
  function Main(f: Frame, channels: nat): Frame {
    if channels <= |f| then f[..channels] else f
  }

  function Stripped(frames: seq<Frame>, channels: nat): (r: seq<Frame>)
    ensures |r| == |frames|
  {
    seq(|frames|, i requires 0 <= i < |frames| => Main(frames[i], channels))
  }

  /** What one call of the effect would take and give; it is held to what is there. */
  datatype Turn = Turn(consumed: nat, produced: seq<Frame>)

  // ---- a read's calls of the effect, from call `from` on

  function Least(a: nat, b: nat): (r: nat)
    ensures r <= a && r <= b && (r == a || r == b)
  {
    if a < b then a else b
  }

  /** What waits after those calls, each made with at least `frames` frames: a call takes what it
      consumes, and no more than there is. */
  function Waits(turns: nat -> Turn, from: nat, until: nat, before: nat, frames: nat): nat
    requires from <= until
    decreases until
  {
    if until == from then before
    else
      var filled := Filled(Waits(turns, from, until - 1, before, frames), frames);
      filled - Least(turns(until - 1).consumed, filled)
  }

  function Filled(waiting: nat, frames: nat): (r: nat)
    ensures r >= waiting && r >= frames && (r == waiting || r == frames)
  {
    if waiting < frames then frames else waiting
  }

  /** How many frames they consume. */
  function Consumed(turns: nat -> Turn, from: nat, until: nat, before: nat, frames: nat): nat
    requires from <= until
    decreases until
  {
    if until == from then 0
    else
      Consumed(turns, from, until - 1, before, frames)
      + Least(turns(until - 1).consumed, Filled(Waits(turns, from, until - 1, before, frames), frames))
  }

  /** What they produce, up to `frames` frames. */
  function Produced(turns: nat -> Turn, from: nat, until: nat, frames: nat): (out: seq<Frame>)
    requires from <= until
    ensures |out| <= frames
    decreases until
  {
    if until == from then []
    else
      var out := Produced(turns, from, until - 1, frames);
      out + turns(until - 1).produced[..Least(|turns(until - 1).produced|, frames - |out|)]
  }

  /** Since the mark the effect has been called up to `calls`, has taken from the process buffer
      what these calls consume, and `out` is what they produce; none was made once `frames` frames
      were there. */
  ghost predicate EffectWorked(turns: nat -> Turn, mark: Mark, calls: nat, waiting: nat, seen: nat, out: seq<Frame>, frames: nat) {
    && mark.calls <= calls
    && waiting == Waits(turns, mark.calls, calls, mark.waiting, frames)
    && seen == mark.seen + Consumed(turns, mark.calls, calls, mark.waiting, frames)
    && out == Produced(turns, mark.calls, calls, frames)
    && (calls > mark.calls ==> |Produced(turns, mark.calls, calls - 1, frames)| < frames)
  }

  /** One more call. */
  ghost predicate EffectWorks(turn: Turn, waiting: nat, left: nat, consumed: nat, piece: seq<Frame>, frames: nat, limit: nat) {
    && consumed == Least(turn.consumed, Filled(waiting, frames)) && left == Filled(waiting, frames) - consumed
    && piece == turn.produced[..Least(|turn.produced|, limit)]
  }

  lemma WorkGoesOn(turns: nat -> Turn, mark: Mark, calls: nat, waiting: nat, seen: nat, out: seq<Frame>, frames: nat,
                   left: nat, consumed: nat, piece: seq<Frame>)
    requires EffectWorked(turns, mark, calls, waiting, seen, out, frames) && |out| < frames
    requires EffectWorks(turns(calls), waiting, left, consumed, piece, frames, frames - |out|)
    ensures EffectWorked(turns, mark, calls + 1, left, seen + consumed, out + piece, frames)
  {
  }

  datatype Mark = Mark(taken: nat, seen: nat, pcmReads: nat, calls: nat, waiting: nat)

  /** The effect never stops producing for good. */
  ghost predicate Productive(turns: nat -> Turn) {
    forall k: nat :: ProducesFrom(turns, k)
  }

  ghost predicate ProducesFrom(turns: nat -> Turn, k: nat) {
    exists m: nat :: m >= k && Produces(turns, m)
  }

  lemma NextProducing(turns: nat -> Turn, k: nat) returns (m: nat)
    requires Productive(turns)
    ensures m >= k && Produces(turns, m)
  {
    assert ProducesFrom(turns, k);
    m :| m >= k && Produces(turns, m);
  }

  predicate Produces(turns: nat -> Turn, m: nat) {
    turns(m).produced != []
  }

  class CaptureStream {
    const channels: nat
    const mainChannels: nat
    var hasProcessing: bool
    const turns: nat -> Turn
    const reader: PcmReader
    var effectCalls: nat
    var procBufIn: array<Frame>
    var procBufOut: array<Frame>
    var procBufSize: nat
    var procBufFrames: nat
    /** Since an effect was last attached or removed, or the stream restarted: what had been
        captured by then, and what waited in the process buffer; the frames captured from then
        on, those the effect consumed, and those made for the client, before stripping. */
    ghost var origin: seq<Frame>
    ghost var leftover: seq<Frame>
    ghost var fed: seq<Frame>
    ghost var seen: seq<Frame>
    ghost var made: seq<Frame>

    predicate HasAdditionalChannels() {
      mainChannels != channels
    }

    ghost predicate Separate()
      reads this, reader
    {
      procBufIn != procBufOut && procBufIn != reader.readBuf && procBufOut != reader.readBuf
    }

    ghost predicate Sized()
      reads this
    {
      && procBufFrames <= procBufSize && procBufFrames <= procBufIn.Length
      && (HasAdditionalChannels() ==> procBufSize <= procBufOut.Length)
    }

    /** What was captured is what the effect consumed and what waits for it, in this order;
        without an effect it is what was made. */
    ghost predicate Accounted()
      reads this, reader, procBufIn
    {
      && procBufFrames <= procBufIn.Length
      && reader.taken == origin + fed
      && if hasProcessing then leftover + fed == seen + procBufIn[..procBufFrames] else fed == made
    }

    /** What holds also after a failed call; a new start needs no more. */
    ghost predicate Restartable()
      reads this, reader, reader.readBuf
    {
      mainChannels <= channels && Productive(turns) && Separate() && reader.Valid()
    }

    ghost predicate Valid()
      reads this, reader, reader.readBuf, procBufIn, procBufOut
    {
      Restartable() && Sized() && Accounted()
    }

    /** The process buffer is taken to be large enough for a request, and is not. */
    predicate Overruns(frames: nat)
      reads this
    {
      hasProcessing && procBufIn.Length < frames <= procBufSize
    }

    /** No request overruns the process buffer. */
    ghost predicate Roomy()
      reads this
    {
      forall frames: nat :: !Overruns(frames)
    }

    constructor (channels: nat, mainChannels: nat, hasProcessing: bool, turns: nat -> Turn, period: nat, answers: nat -> PcmRead)
      requires mainChannels <= channels && Productive(turns) && 0 < period && WellBehaved(answers, period)
      ensures Valid() && Roomy() && fresh(reader) && fresh(reader.readBuf) && fresh(procBufIn) && fresh(procBufOut)
      ensures this.channels == channels && this.mainChannels == mainChannels && this.hasProcessing == hasProcessing
      ensures reader.answers == answers && procBufIn.Length == procBufSize == 0
      ensures made == [] && seen == []
    {
      this.channels, this.mainChannels, this.hasProcessing, this.turns := channels, mainChannels, hasProcessing, turns;
      reader := new PcmReader(period, answers);
      effectCalls, procBufSize, procBufFrames := 0, 0, 0;
      origin, leftover, fed, seen, made := [], [], [], [], [];
      procBufIn, procBufOut := new Frame[0], new Frame[0];
    }

    /** Standby and a new start: what was captured and not delivered is dropped, whatever state a
        failed read left. */
    method Restart()
      requires Restartable()
      modifies this`procBufSize, this`procBufFrames, this`origin, this`leftover, this`fed, this`seen, this`made, reader
      ensures Valid() && Roomy() && reader.pcmReads == old(reader.pcmReads)
      ensures old(reader.taken) <= reader.taken == Captured(reader.answers, reader.pcmReads)
    {
      reader.Drop();
      procBufSize, procBufFrames := 0, 0;
      origin, leftover, fed, seen, made := reader.taken, [], [], [], [];
      assert origin + fed == reader.taken;
    }

    /** An effect is attached to the stream while it runs.  The process buffers stay as they are,
        and with them frames that waited for an earlier effect. */
    method Attach()
      requires Valid()
      modifies this`hasProcessing, this`origin, this`leftover, this`fed, this`seen, this`made
      ensures Valid() && hasProcessing && origin == reader.taken && fed == [] && made == [] && seen == []
      ensures leftover == procBufIn[..procBufFrames]
      ensures Roomy() <==> procBufSize <= procBufIn.Length
    {
      hasProcessing := true;
      origin, leftover, fed, seen, made := reader.taken, procBufIn[..procBufFrames], [], [], [];
      assert origin + fed == reader.taken && leftover + fed == seen + leftover;
      assert Overruns(procBufSize) <==> procBufIn.Length < procBufSize;
    }

    /** The effect is removed while the stream runs. */
    method Detach()
      requires Valid()
      modifies this`hasProcessing, this`origin, this`fed, this`made
      ensures Valid() && Roomy() && !hasProcessing && origin == reader.taken && fed == [] && made == []
    {
      hasProcessing := false;
      origin, fed, made := reader.taken, [], [];
      assert origin + fed == reader.taken;
    }

    /** The effect has seen what waited when it was attached, and from then on the captured stream,
        in order. */
    lemma SeenInOrder()
      requires Valid() && hasProcessing
      ensures seen <= leftover + fed
      ensures origin + fed == reader.taken <= Captured(reader.answers, reader.pcmReads)
    {
    }

    /** Makes the process buffers as large as a request. */
    method Grow(frames: nat)
      requires Valid() && hasProcessing && procBufSize < frames
      modifies this`procBufIn, this`procBufOut, this`procBufSize
      ensures Valid() && procBufSize == frames == procBufIn.Length && hasProcessing
      ensures fresh(procBufIn) && (procBufOut == old(procBufOut) || fresh(procBufOut))
    {
      hide Captured, WellBehaved, Productive;
      ghost var waiting := procBufIn[..procBufFrames];
      procBufSize := frames;
      procBufIn := Realloc(procBufIn, frames);
      assert procBufIn[..procBufFrames] == waiting;
      if HasAdditionalChannels() { procBufOut := Realloc(procBufOut, frames); }
    }

    /** Reads what a request still lacks at the end of the process buffer. */
    method Refill(frames: nat) returns (r: int)
      requires Valid() && hasProcessing && procBufFrames < frames <= procBufSize && frames <= procBufIn.Length
      modifies this`procBufFrames, this`fed, procBufIn, reader, reader.readBuf
      ensures r >= 0 ==> Valid() && procBufFrames == frames
      ensures reader.readBuf == old(reader.readBuf) || fresh(reader.readBuf)
      ensures Restartable() && |old(reader.taken)| <= |reader.taken| && old(reader.pcmReads) <= reader.pcmReads
    {
      hide Captured, WellBehaved, Productive;
      ghost var waiting := procBufIn[..procBufFrames];
      ghost var got;
      r, got := reader.ReadFrames(procBufIn, procBufFrames, frames - procBufFrames);
      if r < 0 { return; }
      assert procBufIn[..procBufFrames + r] == waiting + got;
      assert origin + (fed + got) == origin + fed + got;
      assert leftover + (fed + got) == leftover + fed + got && seen + (waiting + got) == seen + waiting + got;
      procBufFrames, fed := procBufFrames + r, fed + got;
    }

    /** Reloads the process buffer up to `frames` frames. */
    method Reload(frames: nat) returns (r: int)
      requires Valid() && hasProcessing && !Overruns(frames)
      modifies this`procBufIn, this`procBufOut, this`procBufSize, this`procBufFrames, this`fed, procBufIn, reader, reader.readBuf
      ensures r >= 0 ==> Valid() && frames <= procBufSize && procBufFrames == Filled(old(procBufFrames), frames)
      ensures procBufIn == old(procBufIn) || fresh(procBufIn)
      ensures procBufOut == old(procBufOut) || fresh(procBufOut)
      ensures reader.readBuf == old(reader.readBuf) || fresh(reader.readBuf)
      ensures old(procBufFrames) >= frames ==> procBufOut == old(procBufOut) && r >= 0
      ensures old(procBufSize) >= frames ==> procBufOut == old(procBufOut)
      ensures Restartable() && |old(reader.taken)| <= |reader.taken| && old(reader.pcmReads) <= reader.pcmReads
    {
      hide Captured, WellBehaved, Productive, PcmReader.Valid, Accounted, Separate;
      if procBufFrames >= frames { return 0; }
      if procBufSize < frames { Grow(frames); }
      r := Refill(frames);
    }

    /** The effect consumes frames from the front of the process buffer; the rest moves down. */
    method Consume(count: nat)
      requires Valid() && hasProcessing && count <= procBufFrames
      modifies this`procBufFrames, this`seen, procBufIn
      ensures Valid() && seen == old(seen) + old(procBufIn[..count])
      ensures procBufFrames == old(procBufFrames) - count
      ensures procBufIn[..procBufFrames] == old(procBufIn[count..procBufFrames])
    {
      hide Captured, WellBehaved, Productive, PcmReader.Valid;
      ghost var waiting := procBufIn[..procBufFrames];
      var left := procBufFrames - count;
      MoveDown(procBufIn, count, left);
      assert waiting == waiting[..count] + procBufIn[..left];
      seen := seen + waiting[..count];
      procBufFrames := left;
    }

    /** One call of the effect, and the copy-down of what it left. */
    method RunEffect(dst: array<Frame>, at: nat, limit: nat) returns (n: nat, ghost piece: seq<Frame>)
      requires Valid() && hasProcessing && at + limit <= dst.Length && 0 < limit
      requires dst != procBufIn && dst != reader.readBuf
      modifies this`effectCalls, this`procBufFrames, this`seen, this`made, procBufIn, dst
      ensures Valid() && effectCalls == old(effectCalls) + 1
      ensures var k := Least(turns(old(effectCalls)).consumed, old(procBufFrames));
              && seen == old(seen) + old(procBufIn[..procBufFrames])[..k]
              && procBufFrames == old(procBufFrames) - k
              && procBufIn[..procBufFrames] == old(procBufIn[..procBufFrames])[k..]
      ensures var produced := turns(old(effectCalls)).produced;
              piece == produced[..Least(|produced|, limit)]
      ensures |piece| == n <= limit && (n == 0 <==> !Produces(turns, old(effectCalls)))
      ensures dst[..] == Spliced(old(dst[..]), at, piece)
      ensures made == old(made) + piece
    {
      hide Captured, WellBehaved, Productive, Spliced;
      var turn := turns(effectCalls);
      n := if |turn.produced| > limit then limit else |turn.produced|;
      piece := turn.produced[..n];
      WriteFrames(turn.produced[..n], dst, at);
      Consume(if turn.consumed > procBufFrames then procBufFrames else turn.consumed);
      effectCalls := effectCalls + 1;
      made := made + piece;
    }

    /** What the client gets of the frames made. */
    ghost function Kept(out: seq<Frame>): (r: seq<Frame>)
      ensures |r| == |out|
    {
      if HasAdditionalChannels() then Stripped(out, mainChannels) else out
    }

    /** `out` has been made so far; additional channels need a buffer of their own. */
    ghost predicate Written(buffer: array<Frame>, was: seq<Frame>, out: seq<Frame>)
      reads this, buffer, procBufOut
    {
      && |out| <= |was|
      && if HasAdditionalChannels()
         then buffer[..] == was && |out| <= procBufOut.Length && procBufOut[..|out|] == out
         else buffer[..] == Spliced(was, 0, out)
    }

    /** The additional channels are dropped on the way to the client's buffer. */
    method Finish(buffer: array<Frame>, ghost was: seq<Frame>, ghost out: seq<Frame>, frames: nat)
      requires Written(buffer, was, out) && |out| == frames && buffer != procBufOut
      modifies buffer
      ensures buffer[..] == Spliced(was, 0, Kept(out))
    {
      if HasAdditionalChannels() {
        for i := 0 to frames
          modifies buffer
          invariant forall k :: 0 <= k < i ==> buffer[k] == Main(out[k], mainChannels)
          invariant forall k :: i <= k < buffer.Length ==> buffer[k] == was[k]
        {
          assert procBufOut[i] == procBufOut[..frames][i];
          buffer[i] := Main(procBufOut[i], mainChannels);
        }
        ghost var r := Spliced(was, 0, Kept(out));
        assert forall k :: 0 <= k < buffer.Length ==> buffer[k] == r[k];
      }
    }

    method ProcessFrames(buffer: array<Frame>, frames: nat) returns (r: int, ghost out: seq<Frame>)
      requires Valid() && hasProcessing && frames <= buffer.Length && !Overruns(frames)
      requires buffer != procBufIn && buffer != procBufOut && buffer != reader.readBuf
      modifies this, reader, reader.readBuf, procBufIn, procBufOut, buffer
      ensures procBufIn == old(procBufIn) || fresh(procBufIn)
      ensures procBufOut == old(procBufOut) || fresh(procBufOut)
      ensures reader.readBuf == old(reader.readBuf) || fresh(reader.readBuf)
      ensures Restartable()
      ensures r == frames || r < 0
      ensures r == frames ==>
                && Valid() && |out| == frames && made == old(made) + out
                && buffer[..] == Spliced(old(buffer[..]), 0, Kept(out))
      ensures r == frames ==> Worked(old(Here()), out, frames)
      ensures |old(reader.taken)| <= |reader.taken| && |old(seen)| <= |seen| && old(reader.pcmReads) <= reader.pcmReads
    {
      ghost var was, before, mark := buffer[..], made, Here();
      assert mark.taken == |reader.taken| && mark.seen == |seen| && mark.pcmReads == reader.pcmReads;
      ProcessingStarts(buffer, frames);
      Arrived(mark);
      hide *;
      r, out := ProcessLoop(buffer, was, before, frames, mark);
      Arrived(mark);
      if r < 0 { return; }
      Deliver(buffer, was, before, out, frames);
    }

    method ProcessLoop(buffer: array<Frame>, ghost was: seq<Frame>, ghost before: seq<Frame>, frames: nat, ghost mark: Mark)
      returns (r: int, ghost out: seq<Frame>)
      requires Going(buffer, was, before, [], frames) && Past(mark) && Worked(mark, [], frames)
      requires Productive(turns) && Restartable()
      modifies this, reader, reader.readBuf, procBufIn, procBufOut, buffer
      ensures procBufIn == old(procBufIn) || fresh(procBufIn)
      ensures procBufOut == old(procBufOut) || fresh(procBufOut)
      ensures reader.readBuf == old(reader.readBuf) || fresh(reader.readBuf)
      ensures Restartable() && Past(mark) && (r == frames || r < 0)
      ensures r == frames ==> Going(buffer, was, before, out, frames) && |out| == frames && Worked(mark, out, frames)
    {
      hide *;
      var written := 0;
      out := [];
      ghost var next := NextProducing(turns, effectCalls);
      while written < frames
        invariant written == |out| <= frames && Going(buffer, was, before, out, frames) && Past(mark)
        invariant Worked(mark, out, frames)
        invariant Restartable()
        invariant procBufIn == old(procBufIn) || fresh(procBufIn)
        invariant procBufOut == old(procBufOut) || fresh(procBufOut)
        invariant reader.readBuf == old(reader.readBuf) || fresh(reader.readBuf)
        invariant next >= effectCalls && Produces(turns, next)
        decreases frames - written, next - effectCalls
      {
        var n;
        r, n, out := ProcessMore(buffer, was, before, out, written, frames, mark);
        if r < 0 { return; }
        if n == 0 { continue; }
        written := written + n;
        next := NextProducing(turns, effectCalls);
      }
      r := frames;
    }

    /** `out` was made since `before` and is written; the buffers are apart and large enough. */
    ghost predicate Going(buffer: array<Frame>, was: seq<Frame>, before: seq<Frame>, out: seq<Frame>, frames: nat)
      reads this, reader, reader.readBuf, procBufIn, procBufOut, buffer
    {
      && Valid() && hasProcessing
      && buffer != procBufIn && buffer != procBufOut && buffer != reader.readBuf
      && |out| <= frames <= buffer.Length == |was|
      && (out != [] ==> frames <= procBufSize) && !Overruns(frames)
      && made == before + out && Written(buffer, was, out)
    }

    lemma ProcessingStarts(buffer: array<Frame>, frames: nat)
      requires Valid() && hasProcessing && frames <= buffer.Length && !Overruns(frames)
      requires buffer != procBufIn && buffer != procBufOut && buffer != reader.readBuf
      ensures Going(buffer, buffer[..], made, [], frames) && Past(Here()) && Worked(Here(), [], frames)
      ensures Productive(turns) && Restartable()
    {
      assert buffer[..] == Spliced(buffer[..], 0, []);
      hide Valid;
    }

    ghost function Here(): Mark
      reads this, reader
    {
      Mark(|reader.taken|, |seen|, reader.pcmReads, effectCalls, procBufFrames)
    }

    /** Nothing captured, handed out or seen was taken back since the mark. */
    ghost predicate Past(mark: Mark)
      reads this, reader
    {
      mark.taken <= |reader.taken| && mark.seen <= |seen| && mark.pcmReads <= reader.pcmReads
    }

    lemma Arrived(mark: Mark)
      requires Past(mark)
      ensures mark.taken <= |reader.taken| && mark.seen <= |seen| && mark.pcmReads <= reader.pcmReads
    {
    }

    ghost predicate Worked(mark: Mark, out: seq<Frame>, frames: nat)
      reads this
    {
      EffectWorked(turns, mark, effectCalls, procBufFrames, |seen|, out, frames)
    }

    method Deliver(buffer: array<Frame>, ghost was: seq<Frame>, ghost before: seq<Frame>, ghost out: seq<Frame>, frames: nat)
      requires Going(buffer, was, before, out, frames) && |out| == frames
      modifies buffer
      ensures Valid() && made == before + out && |out| <= |was|
      ensures buffer[..] == Spliced(was, 0, Kept(out))
    {
      hide Valid, Spliced, Kept, Written;
      Finish(buffer, was, out, frames);
    }

    method ProcessMore(buffer: array<Frame>, ghost was: seq<Frame>, ghost before: seq<Frame>, ghost out: seq<Frame>,
                       written: nat, frames: nat, ghost mark: Mark)
      returns (r: int, n: nat, ghost more: seq<Frame>)
      requires Going(buffer, was, before, out, frames) && Past(mark) && Worked(mark, out, frames) && written == |out| < frames
      modifies this, reader, reader.readBuf, procBufIn, procBufOut, buffer
      ensures procBufIn == old(procBufIn) || fresh(procBufIn)
      ensures procBufOut == old(procBufOut) || fresh(procBufOut)
      ensures reader.readBuf == old(reader.readBuf) || fresh(reader.readBuf)
      ensures Restartable()
      ensures Past(mark)
      ensures r >= 0 ==>
                && Going(buffer, was, before, more, frames) && Worked(mark, more, frames) && |more| == written + n <= frames
                && effectCalls == old(effectCalls) + 1 && (n == 0 <==> !Produces(turns, old(effectCalls)))
    {
      hide Valid, Restartable, Written, Produces, EffectWorked, EffectWorks;
      ghost var piece;
      ghost var calls, waiting, seenBefore := effectCalls, procBufFrames, |seen|;
      r, n, piece := ProcessSome(buffer, was, out, written, frames);
      more := out + piece;
      if r >= 0 {
        WorkGoesOn(turns, mark, calls, waiting, seenBefore, out, frames, procBufFrames, |seen| - seenBefore, piece);
      }
    }

    /** One pass of the processing loop. */
    method ProcessSome(buffer: array<Frame>, ghost was: seq<Frame>, ghost out: seq<Frame>, written: nat, frames: nat)
      returns (r: int, n: nat, ghost piece: seq<Frame>)
      requires Valid() && hasProcessing && written < frames <= buffer.Length
      requires Written(buffer, was, out) && |out| == written && (written > 0 ==> frames <= procBufSize) && !Overruns(frames)
      requires buffer != procBufIn && buffer != procBufOut && buffer != reader.readBuf
      modifies this, reader, reader.readBuf, procBufIn, procBufOut, buffer
      ensures procBufIn == old(procBufIn) || fresh(procBufIn)
      ensures procBufOut == old(procBufOut) || fresh(procBufOut)
      ensures reader.readBuf == old(reader.readBuf) || fresh(reader.readBuf)
      ensures Restartable()
      ensures |old(reader.taken)| <= |reader.taken| && |old(seen)| <= |seen| && old(reader.pcmReads) <= reader.pcmReads
      ensures r >= 0 ==>
                && Valid() && hasProcessing && frames <= procBufSize && !Overruns(frames)
                && effectCalls == old(effectCalls) + 1 && |piece| == n <= frames - written && (n == 0 <==> !Produces(turns, old(effectCalls)))
                && made == old(made) + piece && Written(buffer, was, out + piece)
                && EffectWorks(turns(old(effectCalls)), old(procBufFrames), procBufFrames, |seen| - |old(seen)|, piece, frames, frames - written)
    {
      hide Captured, WellBehaved, Productive, PcmReader.Valid;
      r := Reload(frames);
      n, piece := 0, [];
      if r < 0 { return; }
      n, piece := CallEffect(buffer, was, out, written, frames);
    }

    /** The effect writes to the client's buffer, or, with additional channels, to its own. */
    method CallEffect(buffer: array<Frame>, ghost was: seq<Frame>, ghost out: seq<Frame>, written: nat, frames: nat)
      returns (n: nat, ghost piece: seq<Frame>)
      requires Valid() && hasProcessing && written < frames <= buffer.Length && frames <= procBufSize && frames <= procBufFrames
      requires Written(buffer, was, out) && |out| == written
      requires buffer != procBufIn && buffer != procBufOut && buffer != reader.readBuf
      modifies this`effectCalls, this`procBufFrames, this`seen, this`made, procBufIn, procBufOut, buffer
      ensures Valid() && effectCalls == old(effectCalls) + 1
      ensures |piece| == n <= frames - written && (n == 0 <==> !Produces(turns, old(effectCalls)))
      ensures made == old(made) + piece && Written(buffer, was, out + piece) && |old(seen)| <= |seen|
      ensures EffectWorks(turns(old(effectCalls)), old(procBufFrames), procBufFrames, |seen| - |old(seen)|, piece, frames, frames - written)
    {
      hide Captured, WellBehaved, Productive, PcmReader.Valid;
      if HasAdditionalChannels() {
        n, piece := RunEffect(procBufOut, written, frames - written);
      } else {
        n, piece := RunEffect(buffer, written, frames - written);
        SplicedAppend(was, 0, out, piece);
      }
    }

    /** Without an effect the frames come straight from the device. */
    method PassFrames(buffer: array<Frame>, frames: nat) returns (r: int, ghost out: seq<Frame>)
      requires Valid() && !hasProcessing && frames <= buffer.Length
      requires buffer != procBufIn && buffer != procBufOut && buffer != reader.readBuf
      modifies this, reader, reader.readBuf, procBufOut, buffer
      ensures procBufOut == old(procBufOut) || fresh(procBufOut)
      ensures reader.readBuf == old(reader.readBuf) || fresh(reader.readBuf)
      ensures Restartable()
      ensures (r == frames || r < 0) && (NeverFails(reader.answers) ==> r >= 0)
      ensures procBufIn == old(procBufIn) && !hasProcessing
      ensures procBufSize == if HasAdditionalChannels() && frames > old(procBufSize) then frames else old(procBufSize)
      ensures r == frames ==>
                && Valid() && |out| == frames && made == old(made) + out
                && buffer[..] == Spliced(old(buffer[..]), 0, Kept(out))
      ensures |old(reader.taken)| <= |reader.taken| && |old(seen)| <= |seen| && old(reader.pcmReads) <= reader.pcmReads
    {
      hide Captured, WellBehaved, Productive, Spliced, PcmReader.Valid;
      ghost var was := buffer[..];
      r, out := ReadUnprocessed(buffer, frames);
      if r < 0 { return; }
      assert origin + (fed + out) == origin + fed + out;
      fed, made := fed + out, made + out;
      Finish(buffer, was, out, frames);
    }

    method ReadUnprocessed(buffer: array<Frame>, frames: nat) returns (r: int, ghost out: seq<Frame>)
      requires Restartable() && Sized() && frames <= buffer.Length
      requires buffer != procBufIn && buffer != procBufOut && buffer != reader.readBuf
      modifies this`procBufOut, this`procBufSize, reader, reader.readBuf, procBufOut, buffer
      ensures procBufOut == old(procBufOut) || fresh(procBufOut)
      ensures reader.readBuf == old(reader.readBuf) || fresh(reader.readBuf)
      ensures Restartable() && Sized()
      ensures procBufSize == if HasAdditionalChannels() && frames > old(procBufSize) then frames else old(procBufSize)
      ensures (r == frames || r < 0) && (NeverFails(reader.answers) ==> r >= 0) && |old(reader.taken)| <= |reader.taken|
      ensures old(reader.pcmReads) <= reader.pcmReads
      ensures r == frames ==> |out| == frames && reader.taken == old(reader.taken) + out && Written(buffer, old(buffer[..]), out)
    {
      hide Captured, WellBehaved, Productive, Spliced, PcmReader.Valid;
      if HasAdditionalChannels() {
        if procBufSize < frames {
          procBufSize := frames;
          procBufOut := Realloc(procBufOut, frames);
        }
        ghost var before := procBufOut[..];
        r, out := reader.ReadFrames(procBufOut, 0, frames);
        SplicedPrefix(before, out);
      } else {
        r, out := reader.ReadFrames(buffer, 0, frames);
      }
    }

    /** The read into a process buffer that is too small: it fails before its end, or it writes
        past it. */
    method ReadPastEnd(frames: nat) returns (r: int, ghost overran: bool)
      requires Valid() && Overruns(frames)
      modifies reader, reader.readBuf
      ensures reader.readBuf == old(reader.readBuf) || fresh(reader.readBuf)
      ensures Restartable()
      ensures r < 0 || overran
      ensures NeverFails(reader.answers) ==> overran
      ensures |old(reader.taken)| <= |reader.taken| && old(reader.pcmReads) <= reader.pcmReads
    {
      var memory := Realloc(procBufIn, frames);
      ghost var got;
      r, got := reader.ReadFrames(memory, procBufFrames, frames - procBufFrames);
      overran := procBufFrames + |got| > procBufIn.Length;
    }

    /** read_and_process_frames: on success exactly `frames` frames, consecutive in what the
        effect, or without one the device, has made, with the main channels kept.  A call writes
        outside the process buffer only if it overruns it, and such a call cannot succeed. */
    method ReadAndProcess(buffer: array<Frame>, frames: nat) returns (r: int, ghost out: seq<Frame>, ghost overran: bool)
      requires Valid() && frames <= buffer.Length
      requires buffer != procBufIn && buffer != procBufOut && buffer != reader.readBuf
      modifies this, reader, reader.readBuf, procBufIn, procBufOut, buffer
      ensures procBufIn == old(procBufIn) || fresh(procBufIn)
      ensures procBufOut == old(procBufOut) || fresh(procBufOut)
      ensures reader.readBuf == old(reader.readBuf) || fresh(reader.readBuf)
      ensures Restartable()
      ensures overran ==> old(Overruns(frames))
      ensures old(Overruns(frames)) ==> (r < 0 || overran) && (NeverFails(reader.answers) ==> overran)
      ensures r == frames || r < 0 || overran
      ensures r == frames && !overran ==>
                && Valid() && |out| == frames && made == old(made) + out
                && buffer[..] == Spliced(old(buffer[..]), 0, Kept(out))
      ensures old(hasProcessing) && r == frames && !overran ==> Worked(old(Here()), out, frames)
      ensures !old(hasProcessing) ==>
                && !hasProcessing && procBufIn == old(procBufIn) && (NeverFails(reader.answers) ==> r == frames)
                && procBufSize == if HasAdditionalChannels() && frames > old(procBufSize) then frames else old(procBufSize)
      ensures |old(reader.taken)| <= |reader.taken| && old(reader.pcmReads) <= reader.pcmReads
    {
      overran := false;
      if Overruns(frames) {
        out := [];
        r, overran := ReadPastEnd(frames);
      } else if hasProcessing {
        r, out := ProcessFrames(buffer, frames);
      } else {
        r, out := PassFrames(buffer, frames);
      }
    }

    /** in_read, with the standby of a failed read and the start of the next: whatever fails, the
        stream is ready for the next call, unless this one has written outside its buffers. */
    method InRead(buffer: array<Frame>, frames: nat) returns (r: int, ghost out: seq<Frame>, ghost overran: bool)
      requires Valid() && frames <= buffer.Length
      requires buffer != procBufIn && buffer != procBufOut && buffer != reader.readBuf
      modifies this, reader, reader.readBuf, procBufIn, procBufOut, buffer
      ensures overran ==> old(Overruns(frames))
      ensures !overran ==> Valid() && (r < 0 ==> Roomy())
      ensures r == frames && !overran ==>
                && |out| == frames && made == old(made) + out
                && buffer[..] == Spliced(old(buffer[..]), 0, Kept(out))
      ensures r == frames || r < 0 || overran
      ensures |old(reader.taken)| <= |reader.taken| && old(reader.pcmReads) <= reader.pcmReads
    {
      r, out, overran := ReadAndProcess(buffer, frames);
      if r < 0 {
        Restart();
      }
    }
  }

  /** A mono client of a stereo device reads without an effect; one is attached, and the next read
      of the same size writes where no process buffer was allocated. */
  method AnEffectAttachedLateOverruns() returns (claimed: nat, room: nat, ghost overran: bool)
    ensures claimed == 256 && room == 0 && overran
  {
    var f: Frame := [0, 0];
    var turns: nat -> Turn := _ => Turn(1, [f]);
    var answers: nat -> PcmRead := _ => Period([f]);
    forall k: nat ensures ProducesFrom(turns, k) { assert Produces(turns, k); }
    var s := new CaptureStream(2, 1, false, turns, 1, answers);
    var buffer := new Frame[256];
    claimed, room, overran := AttachAndRead(s, buffer);
  }

  method AttachAndRead(s: CaptureStream, buffer: array<Frame>) returns (claimed: nat, room: nat, ghost overran: bool)
    requires s.Valid() && NeverFails(s.reader.answers) && !s.hasProcessing && s.HasAdditionalChannels()
    requires s.procBufSize == s.procBufIn.Length == 0 && buffer.Length == 256
    requires buffer != s.procBufIn && buffer != s.procBufOut && buffer != s.reader.readBuf
    modifies s, s.reader, s.reader.readBuf, s.procBufIn, s.procBufOut, buffer
    ensures claimed == 256 && room == 0 && overran
  {
    hide *;
    var r;
    ghost var out;
    assert !s.Overruns(256) by { NothingOverruns(s, 256); }
    r, out, overran := s.ReadAndProcess(buffer, 256);
    s.Attach();
    claimed, room := s.procBufSize, s.procBufIn.Length;
    assert s.Overruns(256) by { LateEffectOverruns(s, 256); }
    r, out, overran := s.ReadAndProcess(buffer, 256);
  }

  lemma NothingOverruns(s: CaptureStream, frames: nat)
    requires !s.hasProcessing
    ensures !s.Overruns(frames)
  {
  }

  lemma LateEffectOverruns(s: CaptureStream, frames: nat)
    requires s.hasProcessing && s.procBufIn.Length < frames <= s.procBufSize
    ensures s.Overruns(frames)
  {
  }

  method WriteFrames(piece: seq<Frame>, dst: array<Frame>, at: nat)
    requires at + |piece| <= dst.Length
    modifies dst
    ensures dst[..] == Spliced(old(dst[..]), at, piece)
  {
    ghost var was := dst[..];
    for i := 0 to |piece|
      modifies dst
      invariant forall k :: at <= k < at + i ==> dst[k] == piece[k - at]
      invariant forall k :: 0 <= k < at || at + i <= k < dst.Length ==> dst[k] == was[k]
    {
      dst[at + i] := piece[i];
    }
    ghost var r := Spliced(was, at, piece);
    assert |r| == dst.Length;
    assert forall k :: 0 <= k < dst.Length ==> dst[k] == r[k];
  }

  /** Frames as they lie in memory. */
  function Interleaved(frames: seq<Frame>): seq<Sample> {
    if frames == [] then [] else frames[0] + Interleaved(frames[1..])
  }

  lemma {:induction false} InterleavedSize(frames: seq<Frame>, n: nat)
    requires forall k :: 0 <= k < |frames| ==> |frames[k]| == n
    ensures |Interleaved(frames)| == |frames| * n
    decreases |frames|
  {
    if frames != [] {
      InterleavedSize(frames[1..], n);
      NextMultiple(|frames|, n);
    }
  }

  lemma NextMultiple(i: nat, n: nat)
    requires i > 0
    ensures i * n == n + (i - 1) * n
  {
  }

  lemma Inside(i: nat, c: nat, count: nat, n: nat)
    requires i < count && c < n
    ensures i * n + c < count * n
  {
    assert (i + 1) * n <= count * n;
  }

  lemma {:induction false} InterleavedAt(frames: seq<Frame>, n: nat, i: nat, c: nat)
    requires forall k :: 0 <= k < |frames| ==> |frames[k]| == n
    requires i < |frames| && c < n
    ensures i * n + c < |Interleaved(frames)|
    ensures Interleaved(frames)[i * n + c] == frames[i][c]
    decreases |frames|
  {
    InterleavedSize(frames, n);
    Inside(i, c, |frames|, n);
    if i > 0 {
      InterleavedAt(frames[1..], n, i - 1, c);
      NextMultiple(i, n);
    }
  }

  /** In memory, the c-th sample of frame i moves from i * channels + c to i * kept + c. */
  lemma StrippedSample(frames: seq<Frame>, channels: nat, kept: nat, i: nat, c: nat)
    requires forall k :: 0 <= k < |frames| ==> |frames[k]| == channels
    requires c < kept <= channels && i < |frames|
    ensures i * channels + c < |Interleaved(frames)| && i * kept + c < |Interleaved(Stripped(frames, kept))|
    ensures Interleaved(Stripped(frames, kept))[i * kept + c] == Interleaved(frames)[i * channels + c]
  {
    InterleavedAt(frames, channels, i, c);
    InterleavedAt(Stripped(frames, kept), kept, i, c);
  }
}
