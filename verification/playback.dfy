/**
 * The playback variant of src/backup/galaxy_precomputed.c: instead of
 * simulating, it replays a file of delta frames, ten pixel writes per
 * call so that the music keeps its share of the CPU.
 *
 * The file is a byte sequence read through a position, as `fread` and
 * `fseek` see it: frames one after another, each a little-endian
 * `uint16_t` record count followed by that many 9-byte `PixelChange`
 * records (four `uint16_t` and a `uint8_t`, unpadded on the 6502). The
 * pixel writes of a call are returned as a list instead of going out
 * through the RIA port.
 */
module Playback {
  import opened FixedPoint

  /** `sizeof(PixelChange)`. */
  const CHANGE_SIZE := 9
  const BUFFER_SIZE := 1024
  const PIXELS_PER_FRAME := 10
  /** `frames_per_update`: a new frame every 6 calls (10 frames per second at 60 Hz). */
  const FRAMES_PER_UPDATE := 6
  /** An `old_x` or `new_x` of 0xFFFF marks "no pixel". */
  const NO_PIXEL := 0xFFFF
  const SCREEN_WIDTH := 320

  datatype Option<T> = None | Some(value: T)

  type Bytes = seq<Byte>

  /** `PixelChange`: erase (`old_x`, `old_y`), then light (`new_x`, `new_y`) with `color`. */
  datatype Change = Change(oldX: Word, oldY: Word, newX: Word, newY: Word, color: Byte)

  /** One write through the RIA data port: `value` at XRAM address `addr`. */
  datatype Write = Write(addr: Word, value: Byte)

  /** `x + SCREEN_WIDTH * y` in 16-bit unsigned arithmetic, as `RIA.addr0` receives it. */
  function PixelAddr(x: Word, y: Word): (a: Word)
    ensures x + SCREEN_WIDTH * y < 0x1_0000 ==> a == x + SCREEN_WIDTH * y
  {
    ToWord(x + SCREEN_WIDTH * y)
  }

  // ---------------------------------------------------------------------
  // The file format

  /** The little-endian `uint16_t` at byte `p`. */
  function WordAt(f: seq<Byte>, p: int): (w: Word)
    requires 0 <= p && p + 2 <= |f|
  {
    f[p] as int + 256 * (f[p + 1] as int)
  }

  /** The record whose 9 bytes start at `p`. */
  function DecodeChange(f: seq<Byte>, p: int): Change
    requires 0 <= p && p + CHANGE_SIZE <= |f|
  {
    Change(WordAt(f, p), WordAt(f, p + 2), WordAt(f, p + 4), WordAt(f, p + 6), f[p + 8])
  }

  /** The `n` records from byte `p` on. */
  function Decoded(f: seq<Byte>, p: int, n: int): (r: seq<Change>)
    requires 0 <= p && 0 <= n && p + CHANGE_SIZE * n <= |f|
    ensures |r| == n
  {
    seq(n, i requires 0 <= i < n => DecodeChange(f, p + CHANGE_SIZE * i))
  }

  /** How many whole records lie between byte `p` and the end of the file. */
  function Available(f: seq<Byte>, p: int): (n: nat)
    requires 0 <= p <= |f|
    ensures p + CHANGE_SIZE * n <= |f| < p + CHANGE_SIZE * (n + 1)
  {
    (|f| - p) / CHANGE_SIZE
  }

  /** The bytes `b` sit in `f` from byte `p` on. */
  predicate At(f: seq<Byte>, p: int, b: seq<Byte>) {
    0 <= p && p + |b| <= |f| && forall j | 0 <= j < |b| :: f[p + j] == b[j]
  }

  lemma AtWithin(f: seq<Byte>, p: int, b: seq<Byte>)
    requires At(f, p, b)
    ensures 0 <= p && p + |b| <= |f|
  {
  }

  lemma AtSplit(f: seq<Byte>, p: int, a: seq<Byte>, b: seq<Byte>)
    requires At(f, p, a + b)
    ensures At(f, p, a) && At(f, p + |a|, b)
  {
    forall j | 0 <= j < |a| ensures f[p + j] == a[j] {
      assert (a + b)[j] == a[j];
    }
    forall j | 0 <= j < |b| ensures f[p + |a| + j] == b[j] {
      assert (a + b)[|a| + j] == b[j];
    }
  }

  function EncodeWord(w: Word): (b: seq<Byte>)
    ensures |b| == 2
  {
    [w % 256, w / 256]
  }

  function EncodeChange(c: Change): (b: seq<Byte>)
    ensures |b| == CHANGE_SIZE
  {
    [c.oldX % 256, c.oldX / 256, c.oldY % 256, c.oldY / 256,
     c.newX % 256, c.newX / 256, c.newY % 256, c.newY / 256, c.color]
  }

  /** Reading a word where one was encoded gives it back. */
  lemma WordRoundTrip(f: seq<Byte>, p: int, w: Word)
    requires At(f, p, EncodeWord(w))
    ensures WordAt(f, p) == w
  {
    assert f[p + 0] == EncodeWord(w)[0] && f[p + 1] == EncodeWord(w)[1];
  }

  /** Decoding a record where one was encoded gives it back. */
  lemma ChangeRoundTrip(f: seq<Byte>, p: int, c: Change)
    requires At(f, p, EncodeChange(c))
    ensures DecodeChange(f, p) == c
  {
    var e := EncodeChange(c);
    assert f[p + 0] == e[0] && f[p + 1] == e[1] && f[p + 2] == e[2] && f[p + 3] == e[3];
    assert f[p + 4] == e[4] && f[p + 5] == e[5] && f[p + 6] == e[6] && f[p + 7] == e[7];
    assert f[p + 8] == e[8];
  }

  function EncodeChanges(cs: seq<Change>): (b: seq<Byte>)
    ensures |b| == CHANGE_SIZE * |cs|
  {
    if cs == [] then [] else EncodeChanges(cs[..|cs| - 1]) + EncodeChange(cs[|cs| - 1])
  }

  /** Decoding the records where a list was encoded gives the list back. */
  lemma {:induction false} ChangesRoundTrip(f: seq<Byte>, p: int, cs: seq<Change>)
    requires At(f, p, EncodeChanges(cs))
    ensures Decoded(f, p, |cs|) == cs
  {
    if cs == [] {
      return;
    }
    var n := |cs| - 1;
    var init := cs[..n];
    assert EncodeChanges(cs) == EncodeChanges(init) + EncodeChange(cs[n]);
    AtSplit(f, p, EncodeChanges(init), EncodeChange(cs[n]));
    ChangesRoundTrip(f, p, init);
    ChangeRoundTrip(f, p + CHANGE_SIZE * n, cs[n]);
    assert Decoded(f, p, |cs|) == Decoded(f, p, n) + [DecodeChange(f, p + CHANGE_SIZE * n)];
    assert cs == init + [cs[n]];
  }

  /** A frame's count fits its `uint16_t`. */
  predicate FramesOk(frames: seq<seq<Change>>) {
    forall k | 0 <= k < |frames| :: |frames[k]| < 0x1_0000
  }

  function EncodeFrame(fr: seq<Change>): (b: seq<Byte>)
    requires |fr| < 0x1_0000
    ensures |b| == 2 + CHANGE_SIZE * |fr|
  {
    EncodeWord(|fr|) + EncodeChanges(fr)
  }

  /** A frame file: the frames one after another. */
  function Encode(frames: seq<seq<Change>>): (b: seq<Byte>)
    requires FramesOk(frames)
  {
    if frames == [] then [] else Encode(frames[..|frames| - 1]) + EncodeFrame(frames[|frames| - 1])
  }

  /** The encoding of the first `k` frames starts the encoding of all of them. */
  lemma {:induction false} EncodePrefix(frames: seq<seq<Change>>, k: int)
    requires FramesOk(frames) && 0 <= k <= |frames|
    ensures At(Encode(frames), 0, Encode(frames[..k]))
  {
    if k < |frames| {
      var init := frames[..|frames| - 1];
      assert frames[..k] == init[..k];
      EncodePrefix(init, k);
      assert Encode(frames) == Encode(init) + EncodeFrame(frames[|frames| - 1]);
      AtSplit(Encode(frames), 0, Encode(init), EncodeFrame(frames[|frames| - 1]));
    } else {
      assert frames[..k] == frames;
    }
  }

  /** Where frame `k` starts in the file (with `k == |frames|`, the end of the file). */
  function Offset(frames: seq<seq<Change>>, k: int): (p: nat)
    requires FramesOk(frames) && 0 <= k <= |frames|
    ensures p <= |Encode(frames)|
  {
    EncodePrefix(frames, k);
    |Encode(frames[..k])|
  }

  /** Frame `k` is its count and then its records, between `Offset(k)` and `Offset(k + 1)`. */
  lemma FrameAt(frames: seq<seq<Change>>, k: int)
    requires FramesOk(frames) && 0 <= k < |frames|
    ensures var f, p, fr := Encode(frames), Offset(frames, k), frames[k];
      && Offset(frames, k + 1) == p + 2 + CHANGE_SIZE * |fr|
      && At(f, p, EncodeWord(|fr|))
      && At(f, p + 2, EncodeChanges(fr))
  {
    hide Encode, EncodeChanges, EncodeWord, At;
    var f, p, fr := Encode(frames), Offset(frames, k), frames[k];
    EncodeLast(frames, k);
    EncodePrefix(frames, k + 1);
    AtSplit(f, 0, Encode(frames[..k]), EncodeFrame(fr));
    AtSplit(f, p, EncodeWord(|fr|), EncodeChanges(fr));
  }

  lemma EncodeLast(frames: seq<seq<Change>>, k: int)
    requires FramesOk(frames) && 0 <= k < |frames|
    ensures Encode(frames[..k + 1]) == Encode(frames[..k]) + EncodeFrame(frames[k])
  {
    var pre := frames[..k + 1];
    assert pre[..k] == frames[..k];
  }

  lemma OffsetZero(frames: seq<seq<Change>>)
    requires FramesOk(frames)
    ensures Offset(frames, 0) == 0 && Offset(frames, |frames|) == |Encode(frames)|
  {
    assert frames[..|frames|] == frames;
  }

  // ---------------------------------------------------------------------
  // The player's state

  /**
   * The statics of the player: the open file (`frame_file`, with its
   * position), `buffer`, `buffer_pos`, `buffer_count`,
   * `changes_remaining`, `frame_delay` and `first_draw`.
   */
  datatype PlayState = PlayState(
    file: Option<Bytes>, filePos: int,
    buffer: seq<Change>, pos: int, count: int, remaining: int,
    frameDelay: int, firstDraw: bool)

  /** `buffer_pos <= buffer_count <= 1024`, the counters in range, the position inside the file. */
  predicate PlayOk(st: PlayState) {
    && |st.buffer| == BUFFER_SIZE
    && 0 <= st.pos <= st.count <= BUFFER_SIZE
    && 0 <= st.remaining < 0x1_0000
    && 0 <= st.frameDelay < 0x100
    && 0 <= st.filePos
    && (st.file.Some? ==> st.filePos <= |st.file.value|)
  }

  /**
   * The records of the current frame still to be drawn: the rest of the
   * buffer, then the `changes_remaining` records the file still holds.
   */
  function Pending(st: PlayState): seq<Change>
    requires PlayOk(st)
  {
    st.buffer[st.pos..st.count] +
      match st.file
      case None => []
      case Some(f) => Decoded(f, st.filePos, Min(st.remaining, Available(f, st.filePos)))
  }

  /**
   * `load_buffer`: nothing without a file or with no records left in the
   * frame; otherwise `min(1024, changes_remaining)` records requested,
   * as many as the file still holds read into the front of the buffer,
   * and that many moved from `changes_remaining` to `buffer_count`.
   */
  function Load(st: PlayState): (r: (bool, PlayState))
    requires PlayOk(st)
    ensures PlayOk(r.1)
    ensures (r.1.file, r.1.frameDelay, r.1.firstDraw) == (st.file, st.frameDelay, st.firstDraw)
    ensures st.file.None? || st.remaining == 0 ==> r == (false, st)
    ensures st.file.Some? && st.remaining > 0 ==>
      && r.1.pos == 0 && r.1.count <= st.remaining && r.1.remaining == st.remaining - r.1.count
      && r.0 == (r.1.count > 0) && r.1.filePos >= st.filePos
    ensures st.file.Some? && CHANGE_SIZE * st.remaining <= |st.file.value| - st.filePos ==>
      r.1.filePos + CHANGE_SIZE * r.1.remaining == st.filePos + CHANGE_SIZE * st.remaining
  {
    if st.file.None? then (false, st)
    else
      var toRead := Min(BUFFER_SIZE, st.remaining);
      if toRead == 0 then (false, st)
      else
        var f := st.file.value;
        var n := Min(toRead, Available(f, st.filePos));
        var buffer := Decoded(f, st.filePos, n) + st.buffer[n..];
        (n > 0, st.(buffer := buffer, count := n, pos := 0, remaining := st.remaining - n,
                    filePos := Min(st.filePos + CHANGE_SIZE * toRead, |f|)))
  }

  /** A fresh frame header `c` read, the file now at `p`. */
  function Header(st: PlayState, c: Word, p: int): PlayState {
    st.(remaining := c, count := 0, pos := 0, filePos := p)
  }

  /**
   * `start_next_frame`: read the next count; at the end of the file,
   * rewind and read the first one. The frame's records are then all
   * pending, and the result says whether there are any.
   */
  function NextFrame(st: PlayState): (r: (bool, PlayState))
    requires PlayOk(st)
    ensures PlayOk(r.1)
    ensures (r.1.file, r.1.buffer, r.1.frameDelay, r.1.firstDraw) == (st.file, st.buffer, st.frameDelay, st.firstDraw)
    ensures st.file.None? ==> r == (false, st)
    ensures st.file.Some? && 2 <= |st.file.value| ==>
      r.1.pos == r.1.count == 0 && r.0 == (r.1.remaining > 0) && 2 <= r.1.filePos
    ensures st.file.Some? && |st.file.value| < st.filePos + 2 && 2 <= |st.file.value| ==>
      r.1.filePos == 2 && r.1.remaining == WordAt(st.file.value, 0)
    ensures st.file.Some? && |st.file.value| < 2 ==> !r.0 && r.1 == st.(filePos := |st.file.value|)
  {
    if st.file.None? then (false, st)
    else
      var f := st.file.value;
      if st.filePos + 2 <= |f| then
        var c := WordAt(f, st.filePos);
        (c > 0, Header(st, c, st.filePos + 2))
      else if 2 <= |f| then
        var c := WordAt(f, 0);
        (c > 0, Header(st, c, 2))
      else
        (false, st.(filePos := |f|))
  }

  // ---------------------------------------------------------------------
  // Drawing

  /**
   * The writes for record `c` when `drawn` of the ten are used: erase the
   * old pixel (if any), then draw the new one (if any) while the budget
   * lasts. An erase that takes the last slot drops the draw.
   */
  function ChangeWrites(c: Change, drawn: int): (w: seq<Write>)
    requires 0 <= drawn < PIXELS_PER_FRAME
    ensures |w| <= PIXELS_PER_FRAME - drawn && |w| <= 2
  {
    var erase := if c.oldX != NO_PIXEL then [Write(PixelAddr(c.oldX, c.oldY), 0)] else [];
    var draw :=
      if c.newX != NO_PIXEL && drawn + |erase| < PIXELS_PER_FRAME
      then [Write(PixelAddr(c.newX, c.newY), c.color)] else [];
    erase + draw
  }

  /**
   * What a record writes: the erase of a valid old pixel comes first, the
   * draw of a valid new pixel last, and the draw is dropped exactly when
   * the erase took the last of the ten slots.
   */
  lemma ChangeWritesOrder(c: Change, drawn: int)
    requires 0 <= drawn < PIXELS_PER_FRAME
    ensures var w := ChangeWrites(c, drawn);
      && |w| == (if c.oldX != NO_PIXEL then 1 else 0) + (if c.newX != NO_PIXEL then 1 else 0)
                - (if c.oldX != NO_PIXEL && c.newX != NO_PIXEL && drawn + 1 == PIXELS_PER_FRAME then 1 else 0)
      && (c.oldX != NO_PIXEL ==> w[0] == Write(PixelAddr(c.oldX, c.oldY), 0))
      && (c.newX != NO_PIXEL && (c.oldX == NO_PIXEL || drawn + 1 < PIXELS_PER_FRAME) ==>
            w[|w| - 1] == Write(PixelAddr(c.newX, c.newY), c.color))
  {
  }

  /**
   * The reference for the draw loop: play the records `p` in order with
   * `drawn` of the ten writes used; the writes and how many records were
   * consumed. It stops early only when the budget is spent.
   */
  function Play(p: seq<Change>, drawn: int): (r: (seq<Write>, nat))
    requires 0 <= drawn <= PIXELS_PER_FRAME
    ensures |r.0| <= PIXELS_PER_FRAME - drawn && r.1 <= |p|
    ensures r.1 < |p| ==> |r.0| == PIXELS_PER_FRAME - drawn
    decreases |p|
  {
    if drawn == PIXELS_PER_FRAME || |p| == 0 then ([], 0)
    else
      var w := ChangeWrites(p[0], drawn);
      var rest := Play(p[1..], drawn + |w|);
      (w + rest.0, rest.1 + 1)
  }

  /**
   * The top of the draw loop: `load_buffer()` when the buffer is empty.
   * The flag says whether a record is ready in the buffer.
   */
  function Refill(st: PlayState): (r: (bool, PlayState))
    requires PlayOk(st)
    ensures PlayOk(r.1) && (r.1.file, r.1.frameDelay, r.1.firstDraw) == (st.file, st.frameDelay, st.firstDraw)
    ensures r.0 ==> r.1.pos < r.1.count
    ensures r.1.remaining + r.1.count - r.1.pos <= st.remaining + st.count - st.pos
  {
    if st.pos >= st.count then Load(st) else (true, st)
  }

  /**
   * The `while (drawn < PIXELS_PER_FRAME)` loop of `galaxy_precomputed_draw`
   * on an open file: refill the buffer when it is empty and the frame has
   * records left, stop when the frame is complete or a refill reads
   * nothing, otherwise take the next record and write its pixels.
   */
  function Drain(st: PlayState, drawn: int): (r: (PlayState, seq<Write>))
    requires PlayOk(st) && st.file.Some? && 0 <= drawn <= PIXELS_PER_FRAME
    ensures PlayOk(r.0) && |r.1| <= PIXELS_PER_FRAME - drawn
    ensures (r.0.file, r.0.frameDelay, r.0.firstDraw) == (st.file, st.frameDelay, st.firstDraw)
    decreases st.remaining + st.count - st.pos
  {
    if drawn == PIXELS_PER_FRAME then (st, [])
    else if st.pos >= st.count && st.remaining == 0 then (st, [])
    else
      var l := Refill(st);
      if !l.0 then (l.1, [])
      else
        var s := l.1;
        var w := ChangeWrites(s.buffer[s.pos], drawn);
        var rest := Drain(s.(pos := s.pos + 1), drawn + |w|);
        (rest.0, w + rest.1)
  }

  /** The frame-rate gate: at least 6 calls since the last frame, and the current one fully drawn. */
  predicate FrameDue(st: PlayState) {
    st.frameDelay >= FRAMES_PER_UPDATE && st.remaining == 0 && st.pos >= st.count
  }

  /** `start_next_frame(); load_buffer();`, the results ignored. */
  function Restart(st: PlayState): (r: PlayState)
    requires PlayOk(st)
    ensures PlayOk(r) && (r.file, r.frameDelay, r.firstDraw) == (st.file, st.frameDelay, st.firstDraw)
  {
    Load(NextFrame(st).1).1
  }

  /**
   * `galaxy_precomputed_draw`: on the first call, (clear the screen and)
   * start the first frame; without a file, nothing more. Otherwise count
   * the call, start the next frame when one is due, and run the draw loop.
   * At most ten pixels are written.
   */
  function DrawStep(st: PlayState): (r: (PlayState, seq<Write>))
    requires PlayOk(st)
    ensures PlayOk(r.0) && !r.0.firstDraw && r.0.file == st.file
    ensures |r.1| <= PIXELS_PER_FRAME
    ensures st.file.None? ==> r.1 == []
  {
    var s0 := if st.firstDraw then Restart(st.(firstDraw := false)) else st;
    if s0.file.None? then (s0, [])
    else
      var s1 := s0.(frameDelay := ToByte(s0.frameDelay + 1));
      var s2 := if FrameDue(s1) then Restart(s1.(frameDelay := 0)) else s1;
      Drain(s2, 0)
  }

  // ---------------------------------------------------------------------
  // What the draw loop does with the pending records

  /** Taking one record out of the buffer takes the first pending record. */
  lemma TakePending(st: PlayState)
    requires PlayOk(st) && st.pos < st.count
    ensures var s := st.(pos := st.pos + 1);
      PlayOk(s) && |Pending(st)| > 0 && Pending(st)[0] == st.buffer[st.pos] && Pending(s) == Pending(st)[1..]
  {
    var s := st.(pos := st.pos + 1);
    assert st.buffer[st.pos..st.count] == [st.buffer[st.pos]] + s.buffer[s.pos..s.count];
  }

  /** Splitting a run of records read from the file. */
  lemma DecodedSplit(f: seq<Byte>, p: int, a: int, b: int)
    requires 0 <= p && 0 <= a && 0 <= b && p + CHANGE_SIZE * (a + b) <= |f|
    ensures Decoded(f, p, a + b) == Decoded(f, p, a) + Decoded(f, p + CHANGE_SIZE * a, b)
  {
    var whole, l, r := Decoded(f, p, a + b), Decoded(f, p, a), Decoded(f, p + CHANGE_SIZE * a, b);
    forall i | 0 <= i < a + b
      ensures whole[i] == (l + r)[i]
    {
      if i >= a {
        assert p + CHANGE_SIZE * i == p + CHANGE_SIZE * a + CHANGE_SIZE * (i - a);
      }
    }
  }

  /**
   * Refilling an empty buffer moves records from the file to the buffer
   * without losing, repeating or reordering any: the pending records are
   * the same, and the refill succeeds exactly when there are some.
   */
  lemma LoadKeepsPending(st: PlayState)
    requires PlayOk(st) && st.file.Some? && st.pos >= st.count && st.remaining > 0
    ensures Pending(Load(st).1) == Pending(st)
    ensures Load(st).0 <==> |Pending(st)| > 0
  {
    hide Decoded;
    var f := st.file.value;
    var toRead := Min(BUFFER_SIZE, st.remaining);
    var avail := Available(f, st.filePos);
    var n := Min(toRead, avail);
    var s := Load(st).1;
    assert s.buffer[s.pos..s.count] == Decoded(f, st.filePos, n);
    assert st.buffer[st.pos..st.count] == [];
    if st.filePos + CHANGE_SIZE * toRead <= |f| {
      assert n == toRead && s.filePos == st.filePos + CHANGE_SIZE * n;
      assert Available(f, s.filePos) == avail - n;
      var m := Min(st.remaining, avail);
      assert Min(s.remaining, Available(f, s.filePos)) == m - n;
      DecodedSplit(f, st.filePos, n, m - n);
    } else {
      assert n == avail && s.filePos == |f|;
      assert Min(st.remaining, avail) == n;
    }
  }

  /** A refill keeps the pending records, and has one ready exactly when some are pending. */
  lemma RefillKeepsPending(st: PlayState)
    requires PlayOk(st) && st.file.Some?
    ensures Pending(Refill(st).1) == Pending(st)
    ensures Refill(st).0 <==> |Pending(st)| > 0
  {
    if st.pos < st.count {
      TakePending(st);
    } else if st.remaining > 0 {
      LoadKeepsPending(st);
    } else {
      assert st.buffer[st.pos..st.count] == [];
    }
  }

  /** One turn of the draw loop with a record ready: its writes, then the rest of the loop. */
  lemma DrainStep(st: PlayState, drawn: int)
    requires PlayOk(st) && st.file.Some? && 0 <= drawn < PIXELS_PER_FRAME && Refill(st).0
    ensures var s := Refill(st).1;
      var w := ChangeWrites(s.buffer[s.pos], drawn);
      var rest := Drain(s.(pos := s.pos + 1), drawn + |w|);
      Drain(st, drawn) == (rest.0, w + rest.1)
  {
    hide Load, Pending, ChangeWrites, Refill;
  }

  /** The draw loop ends at once when the ten writes are used up. */
  lemma DrainSpent(st: PlayState)
    requires PlayOk(st) && st.file.Some?
    ensures Drain(st, PIXELS_PER_FRAME) == (st, [])
  {
  }

  /** The draw loop ends at once when no record can be made ready. */
  lemma DrainStops(st: PlayState, drawn: int)
    requires PlayOk(st) && st.file.Some? && 0 <= drawn < PIXELS_PER_FRAME && !Refill(st).0
    ensures Drain(st, drawn) == (Refill(st).1, [])
  {
    hide Pending, ChangeWrites;
  }

  /** A refill moves the file position past exactly the records it takes from the frame. */
  lemma RefillKeepsPosition(st: PlayState)
    requires PlayOk(st) && st.file.Some? && CHANGE_SIZE * st.remaining <= |st.file.value| - st.filePos
    ensures var r := Refill(st).1;
      r.filePos >= st.filePos && r.filePos + CHANGE_SIZE * r.remaining == st.filePos + CHANGE_SIZE * st.remaining
  {
    hide Load, Pending;
  }

  /**
   * While the file still holds the rest of the frame, the draw loop only
   * moves forward in it, past exactly the records it takes from the frame.
   */
  lemma {:induction false} DrainKeepsPosition(st: PlayState, drawn: int)
    requires PlayOk(st) && st.file.Some? && 0 <= drawn <= PIXELS_PER_FRAME
    requires CHANGE_SIZE * st.remaining <= |st.file.value| - st.filePos
    ensures var r := Drain(st, drawn).0;
      r.filePos >= st.filePos && r.filePos + CHANGE_SIZE * r.remaining == st.filePos + CHANGE_SIZE * st.remaining
    decreases st.remaining + st.count - st.pos
  {
    hide Load, Pending, ChangeWrites, Refill;
    if drawn == PIXELS_PER_FRAME {
      return;
    }
    RefillKeepsPosition(st);
    if !Refill(st).0 {
      DrainStops(st, drawn);
      return;
    }
    var s := Refill(st).1;
    var w := ChangeWrites(s.buffer[s.pos], drawn);
    DrainStep(st, drawn);
    DrainKeepsPosition(s.(pos := s.pos + 1), drawn + |w|);
  }

  /**
   * The draw loop plays the pending records in order, each once: its
   * writes are those of `Play` on them, and what is left pending is what
   * `Play` did not consume.
   */
  lemma {:induction false} DrainPlays(st: PlayState, drawn: int)
    requires PlayOk(st) && st.file.Some? && 0 <= drawn <= PIXELS_PER_FRAME
    ensures var r, e := Drain(st, drawn), Play(Pending(st), drawn);
      r.1 == e.0 && Pending(r.0) == Pending(st)[e.1..]
    decreases st.remaining + st.count - st.pos
  {
    hide Load, Pending, ChangeWrites, Refill;
    var p := Pending(st);
    if drawn == PIXELS_PER_FRAME {
      assert p[0..] == p;
      return;
    }
    RefillKeepsPending(st);
    if !Refill(st).0 {
      DrainStops(st, drawn);
      return;
    }
    var s := Refill(st).1;
    TakePending(s);
    var w := ChangeWrites(s.buffer[s.pos], drawn);
    var next := s.(pos := s.pos + 1);
    var d := drawn + |w|;
    DrainStep(st, drawn);
    DrainPlays(next, d);
    var e := Play(p[1..], d);
    assert Play(p, drawn) == (w + e.0, e.1 + 1);
    assert p[1..][e.1..] == p[e.1 + 1..];
  }

  // ---------------------------------------------------------------------
  // Playing a frame file

  /**
   * The player is inside frame `k` of a well-formed file: what is pending
   * is the tail of that frame, and the file position plus the records
   * still to read reach exactly the start of frame `k + 1`.
   */
  predicate InFrame(frames: seq<seq<Change>>, k: int, st: PlayState)
    requires FramesOk(frames)
  {
    && PlayOk(st)
    && 0 <= k < |frames|
    && st.file == Some(Encode(frames))
    && Offset(frames, k) + 2 <= st.filePos
    && st.filePos + CHANGE_SIZE * st.remaining == Offset(frames, k + 1)
    && |Pending(st)| <= |frames[k]|
    && Pending(st) == frames[k][|frames[k]| - |Pending(st)|..]
  }

  /**
   * At the start of frame `k` (or at the end of the file, which rewinds
   * to frame 0), reading the next count puts exactly that frame's records
   * in front of the player.
   */
  lemma NextFrameReadsFrame(frames: seq<seq<Change>>, k: int, st: PlayState)
    requires FramesOk(frames) && |frames| > 0 && 0 <= k <= |frames| && PlayOk(st)
    requires st.file == Some(Encode(frames)) && st.filePos == Offset(frames, k)
    ensures var j := if k == |frames| then 0 else k;
      && InFrame(frames, j, NextFrame(st).1)
      && Pending(NextFrame(st).1) == frames[j]
  {
    hide NextFrame, Pending, Load, Drain, Play, ChangeWrites, EncodeChanges, Encode, EncodeWord, At, Decoded;
    OffsetZero(frames);
    var j := if k == |frames| then 0 else k;
    FrameAt(frames, j);
    var p, fr := Offset(frames, j), frames[j];
    NextFrameReads(st, p, |fr|);
    HeaderPending(st, p, fr);
    assert fr[|fr| - |fr|..] == fr;
  }

  /** Reading a count encoded at `p`, where the file is or where it rewinds to. */
  lemma NextFrameReads(st: PlayState, p: int, c: Word)
    requires PlayOk(st) && st.file.Some? && At(st.file.value, p, EncodeWord(c))
    requires st.filePos == p || (p == 0 && st.filePos == |st.file.value|)
    ensures NextFrame(st) == (c > 0, Header(st, c, p + 2))
  {
    hide Pending, Load;
    WordRoundTrip(st.file.value, p, c);
  }

  /** A header whose records are encoded right behind it leaves exactly those records pending. */
  lemma HeaderPending(st: PlayState, p: int, fr: seq<Change>)
    requires st.file.Some? && |fr| < 0x1_0000 && |st.buffer| == BUFFER_SIZE && 0 <= st.frameDelay < 0x100
    requires At(st.file.value, p + 2, EncodeChanges(fr))
    ensures PlayOk(Header(st, |fr|, p + 2)) && Pending(Header(st, |fr|, p + 2)) == fr
  {
    hide Load, NextFrame, EncodeChanges, At, Decoded;
    var f, s := st.file.value, Header(st, |fr|, p + 2);
    AtWithin(f, p + 2, EncodeChanges(fr));
    ChangesRoundTrip(f, p + 2, fr);
    assert Min(|fr|, Available(f, p + 2)) == |fr|;
    assert s.buffer[s.pos..s.count] == [];
  }

  /** Drawing inside a frame keeps the player inside it. */
  lemma DrainStaysInFrame(frames: seq<seq<Change>>, k: int, st: PlayState, drawn: int)
    requires FramesOk(frames) && InFrame(frames, k, st) && 0 <= drawn <= PIXELS_PER_FRAME
    ensures var r, e := Drain(st, drawn), Play(Pending(st), drawn);
      InFrame(frames, k, r.0) && r.1 == e.0
  {
    hide Load, Pending, ChangeWrites, Refill, Drain, Play, Encode, Offset;
    DrainPlays(st, drawn);
    DrainKeepsPosition(st, drawn);
    var r, e := Drain(st, drawn), Play(Pending(st), drawn);
    var p, fr := Pending(st), frames[k];
    var tail := fr[|fr| - |p|..];
    assert p == tail[..|p|];
    assert Pending(r.0) == p[e.1..];
    assert fr[|fr| - |Pending(r.0)|..] == tail[e.1..];
  }

  /** Counting calls does not move the player within its frame. */
  lemma InFrameDelay(frames: seq<seq<Change>>, k: int, st: PlayState, d: int)
    requires FramesOk(frames) && InFrame(frames, k, st) && 0 <= d < 0x100
    ensures InFrame(frames, k, st.(frameDelay := d)) && Pending(st.(frameDelay := d)) == Pending(st)
  {
    hide Decoded, Encode, Offset;
  }

  /**
   * `start_next_frame(); load_buffer();` at the start of frame `k` (or at
   * the end of the file) puts the player at the beginning of frame `k`
   * (or of frame 0).
   */
  lemma RestartReadsFrame(frames: seq<seq<Change>>, k: int, st: PlayState)
    requires FramesOk(frames) && |frames| > 0 && 0 <= k <= |frames| && PlayOk(st)
    requires st.file == Some(Encode(frames)) && st.filePos == Offset(frames, k)
    ensures var j := if k == |frames| then 0 else k;
      InFrame(frames, j, Restart(st)) && Pending(Restart(st)) == frames[j]
  {
    hide Pending, NextFrame, Drain, Play, ChangeWrites, EncodeChanges, Encode, EncodeWord, At, Decoded;
    var j := if k == |frames| then 0 else k;
    NextFrameReadsFrame(frames, k, st);
    var n := NextFrame(st).1;
    if n.remaining > 0 {
      LoadKeepsPending(n);
    }
    assert frames[j][|frames[j]| - |frames[j]|..] == frames[j];
  }

  /**
   * Playback of a frame file made of `frames`: every call on a player
   * inside frame `k` either goes on with frame `k` or, once that frame is
   * fully drawn and 6 calls have passed, moves to frame `k + 1`, after
   * the last frame back to frame 0. Either way the call's writes are
   * those of `Play` on the records pending in the frame it draws.
   */
  lemma PlaysFramesInOrder(frames: seq<seq<Change>>, k: int, st: PlayState)
    requires FramesOk(frames) && InFrame(frames, k, st) && !st.firstDraw
    ensures var s1 := st.(frameDelay := ToByte(st.frameDelay + 1));
      var r := DrawStep(st);
      if FrameDue(s1) then
        var j := if k + 1 == |frames| then 0 else k + 1;
        InFrame(frames, j, r.0) && r.1 == Play(frames[j], 0).0
      else
        InFrame(frames, k, r.0) && r.1 == Play(Pending(st), 0).0
  {
    hide Pending, Load, NextFrame, Restart, Drain, Play, ChangeWrites, EncodeChanges, Encode, EncodeWord, At, Decoded;
    var s1 := st.(frameDelay := ToByte(st.frameDelay + 1));
    InFrameDelay(frames, k, st, s1.frameDelay);
    if FrameDue(s1) {
      var s := s1.(frameDelay := 0);
      RestartReadsFrame(frames, k + 1, s);
      DrainStaysInFrame(frames, if k + 1 == |frames| then 0 else k + 1, Restart(s), 0);
    } else {
      DrainStaysInFrame(frames, k, s1, 0);
    }
  }

  /** The player's statics before the first call, with `frame_file` as `galaxy_precomputed_init` left it. */
  function Fresh(file: Option<Bytes>): PlayState {
    PlayState(file, 0, seq(BUFFER_SIZE, _ => Change(0, 0, 0, 0, 0)), 0, 0, 0, 0, true)
  }

  /**
   * The first call on a player whose file holds `frames` (the statics as
   * they start, whatever the buffer holds) starts frame 0 and draws from
   * its beginning.
   */
  lemma FirstDrawPlaysFrame0(frames: seq<seq<Change>>, st: PlayState)
    requires FramesOk(frames) && |frames| > 0 && PlayOk(st) && st.firstDraw
    requires st.file == Some(Encode(frames)) && st.filePos == 0 && st.frameDelay == 0
    ensures var r := DrawStep(st);
      InFrame(frames, 0, r.0) && r.1 == Play(frames[0], 0).0
  {
    OffsetZero(frames);
    hide Pending, Load, NextFrame, Restart, Drain, Play, ChangeWrites, EncodeChanges, EncodeWord, At, Decoded, InFrame, Offset, Encode;
    var s := st.(firstDraw := false);
    RestartReadsFrame(frames, 0, s);
    var t := Restart(s);
    InFrameDelay(frames, 0, t, 1);
    var u := t.(frameDelay := 1);
    assert !FrameDue(u);
    assert DrawStep(st) == Drain(u, 0);
    DrainStaysInFrame(frames, 0, u, 0);
  }

  // ---------------------------------------------------------------------
  // The player

  lemma AppendAssoc<T>(a: seq<T>, b: seq<T>, c: seq<T>)
    ensures a + (b + c) == (a + b) + c
  {
  }

  /** The statics of src/backup/galaxy_precomputed.c. */
  class Player {
    /** `frame_file`: `None` when it could not be opened, else the file's bytes. */
    var file: Option<Bytes>
    var filePos: int
    const buffer: array<Change>
    var bufferPos: int
    var bufferCount: int
    var changesRemaining: int
    var frameDelay: int
    var firstDraw: bool

    ghost function State(): PlayState
      reads this, buffer
    {
      PlayState(file, filePos, buffer[..], bufferPos, bufferCount, changesRemaining, frameDelay, firstDraw)
    }

    ghost predicate Valid()
      reads this, buffer
    {
      buffer.Length == BUFFER_SIZE && PlayOk(State())
    }

    /** The zero-initialised statics, no file yet. */
    constructor()
      ensures Valid() && fresh(buffer) && State() == Fresh(None)
    {
      file := None;
      filePos := 0;
      buffer := new Change[BUFFER_SIZE](_ => Change(0, 0, 0, 0, 0));
      bufferPos, bufferCount, changesRemaining := 0, 0, 0;
      frameDelay := 0;
      firstDraw := true;
    }

    /** `galaxy_precomputed_init`: the outcome of `fopen` is the parameter. */
    method Init(outcome: Option<Bytes>)
      requires Valid()
      modifies this
      ensures Valid() && State() == old(State()).(file := outcome, filePos := 0)
    {
      file := outcome;
      filePos := 0;
    }

    /**
     * `fread(buffer, sizeof(PixelChange), toRead, frame_file)`: the whole
     * records left, up to `toRead`, into the front of the buffer. The
     * position moves past every byte read, a trailing partial record too.
     */
    method ReadChanges(toRead: int) returns (n: int)
      requires Valid() && file.Some? && 0 < toRead <= BUFFER_SIZE
      modifies this, buffer
      ensures file == old(file) && bufferPos == old(bufferPos) && bufferCount == old(bufferCount)
      ensures Valid() && n == Min(toRead, Available(file.value, old(filePos)))
      ensures buffer[..] == Decoded(file.value, old(filePos), n) + old(buffer[..])[n..]
      ensures filePos == Min(old(filePos) + CHANGE_SIZE * toRead, |file.value|)
      ensures changesRemaining == old(changesRemaining) && frameDelay == old(frameDelay) && firstDraw == old(firstDraw)
    {
      var f := file.value;
      n := Min(toRead, Available(f, filePos));
      ghost var records := Decoded(f, filePos, n);
      forall i | 0 <= i < n {
        buffer[i] := DecodeChange(f, filePos + CHANGE_SIZE * i);
      }
      assert buffer[..] == records + old(buffer[..])[n..];
      filePos := Min(filePos + CHANGE_SIZE * toRead, |f|);
    }

    /** `fread(&count, sizeof(uint16_t), 1, frame_file)`. */
    method ReadCount() returns (ok: bool, count: int)
      requires Valid() && file.Some?
      modifies this
      ensures State() == old(State()).(filePos := filePos)
      ensures Valid() && ok == (old(filePos) + 2 <= |file.value|)
      ensures ok ==> count == WordAt(file.value, old(filePos)) && filePos == old(filePos) + 2
      ensures !ok ==> filePos == |file.value|
    {
      ok := filePos + 2 <= |file.value|;
      if ok {
        count := WordAt(file.value, filePos);
        filePos := filePos + 2;
      } else {
        count := 0;
        filePos := |file.value|;
      }
    }

    method LoadBuffer() returns (ok: bool)
      requires Valid()
      modifies this, buffer
      ensures Valid() && (ok, State()) == Load(old(State()))
    {
      if file.None? {
        return false;
      }
      var toRead := BUFFER_SIZE;
      if changesRemaining < toRead {
        toRead := changesRemaining;
      }
      if toRead == 0 {
        return false;
      }
      var count := ReadChanges(toRead);
      bufferCount := count;
      bufferPos := 0;
      changesRemaining := changesRemaining - count;
      ok := count > 0;
    }

    method StartNextFrame() returns (ok: bool)
      requires Valid()
      modifies this
      ensures Valid() && (ok, State()) == NextFrame(old(State()))
    {
      if file.None? {
        return false;
      }
      var got, count := ReadCount();
      if !got {
        filePos := 0;
        got, count := ReadCount();
        if !got {
          return false;
        }
      }
      changesRemaining := count;
      bufferCount := 0;
      bufferPos := 0;
      ok := count > 0;
    }

    /**
     * `galaxy_precomputed_draw`. `cleared` says whether this call first
     * blanked the bitmap (the first call does); `writes` are the pixel
     * writes of the draw loop, in order.
     */
    method Draw() returns (writes: seq<Write>, cleared: bool)
      requires Valid()
      modifies this, buffer
      ensures Valid() && cleared == old(firstDraw)
      ensures (State(), writes) == DrawStep(old(State()))
    {
      hide Load, NextFrame, Pending, Decoded, Drain, Play, PixelAddr;
      ghost var st := State();
      cleared := firstDraw;
      if firstDraw {
        firstDraw := false;
        var _ := StartNextFrame();
        var _ := LoadBuffer();
      }
      ghost var s0 := State();
      assert s0 == if st.firstDraw then Restart(st.(firstDraw := false)) else st;
      writes := [];
      if file.None? {
        return;
      }
      frameDelay := ToByte(frameDelay + 1);
      ghost var s1 := State();
      if frameDelay >= FRAMES_PER_UPDATE && changesRemaining == 0 && bufferPos >= bufferCount {
        frameDelay := 0;
        var _ := StartNextFrame();
        var _ := LoadBuffer();
      }
      ghost var start := State();
      assert start == if FrameDue(s1) then Restart(s1.(frameDelay := 0)) else s1;
      assert DrawStep(st) == Drain(start, 0);
      writes := DrawPixels();
    }

    /**
     * The `while (drawn < PIXELS_PER_FRAME)` loop of
     * `galaxy_precomputed_draw`: its pixel writes, in order.
     */
    method DrawPixels() returns (writes: seq<Write>)
      requires Valid() && file.Some?
      modifies this, buffer
      ensures Valid() && (State(), writes) == Drain(old(State()), 0)
    {
      hide Load, NextFrame, Pending, Decoded, Drain, Play, PixelAddr;
      ghost var start := State();
      writes := [];
      var drawn := 0;
      assert writes + Drain(start, 0).1 == Drain(start, 0).1;
      while drawn < PIXELS_PER_FRAME
        invariant Valid() && file.Some? && 0 <= drawn <= PIXELS_PER_FRAME
        invariant Drain(start, 0) == (Drain(State(), drawn).0, writes + Drain(State(), drawn).1)
        decreases changesRemaining + bufferCount - bufferPos
      {
        ghost var pre := State();
        ghost var before := writes;
        if bufferPos >= bufferCount {
          if changesRemaining > 0 {
            var ok := LoadBuffer();
            if !ok {
              DrainStops(pre, drawn);
              assert Drain(start, 0) == (State(), writes + []);
              break;
            }
          } else {
            DrainStops(pre, drawn);
            assert Drain(start, 0) == (State(), writes + []);
            break;
          }
        }
        assert State() == Refill(pre).1;
        DrainStep(pre, drawn);
        var change := buffer[bufferPos];
        ghost var w := ChangeWrites(change, drawn);
        ghost var d := drawn + |w|;
        bufferPos := bufferPos + 1;
        ghost var erase := if change.oldX != NO_PIXEL then [Write(PixelAddr(change.oldX, change.oldY), 0)] else [];
        if change.oldX != NO_PIXEL {
          writes := writes + [Write(PixelAddr(change.oldX, change.oldY), 0)];
          drawn := drawn + 1;
        }
        assert writes == before + erase;
        ghost var draw := if change.newX != NO_PIXEL && drawn < PIXELS_PER_FRAME
          then [Write(PixelAddr(change.newX, change.newY), change.color)] else [];
        if change.newX != NO_PIXEL && drawn < PIXELS_PER_FRAME {
          writes := writes + [Write(PixelAddr(change.newX, change.newY), change.color)];
          drawn := drawn + 1;
        }
        assert writes == (before + erase) + draw;
        AppendAssoc(before, erase, draw);
        assert w == erase + draw && drawn == d;
        AppendAssoc(before, w, Drain(State(), drawn).1);
      }
      if drawn == PIXELS_PER_FRAME {
        DrainSpent(State());
      }
      assert writes + [] == writes;
      assert Drain(start, 0) == (State(), writes);
    }
  }
}
