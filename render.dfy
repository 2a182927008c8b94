/**
 * Block rendering: the host asks for `frames` interleaved stereo 16-bit
 * frames; the engine renders in native blocks of BLOCK_SIZE frames, so a
 * request takes ceil(frames / BLOCK_SIZE) engine blocks, and each sample is
 * saturated into the 16-bit range.
 */
module Render {
  import opened Engine

  newtype int16 = x: int | -32768 <= x <= 32767

  /** The two int32 clamps before the int16 store. */
  function Clip16(x: int): (r: int16)
    ensures -32768 <= x <= 32767 ==> r as int == x
    ensures x > 32767 ==> r == 32767
    ensures x < -32768 ==> r == -32768
  {
    if x > 32767 then 32767 else if x < -32768 then -32768 else x as int16
  }

  /** The number of engine blocks a request for `frames` frames takes. */
  function Chunks(frames: nat): (c: nat)
    ensures (c - 1) * BLOCK_SIZE < frames <= c * BLOCK_SIZE || (frames == 0 && c == 0)
  {
    (frames + BLOCK_SIZE - 1) / BLOCK_SIZE
  }

  /** Output sample k of a request whose first engine block is block `start`:
   *  frame k / 2, left channel for even k and right for odd k, taken from
   *  block start + frame / BLOCK_SIZE at position frame % BLOCK_SIZE. */
  function RenderedSample(signal: (int, int) -> Frame, start: nat, k: nat): int16 {
    var frame := k / 2;
    var f := signal(start + frame / BLOCK_SIZE, frame % BLOCK_SIZE);
    Clip16(if k % 2 == 0 then f.left else f.right)
  }

  /** n calls to process(), as the engine trace records them. */
  function Processes(n: nat): (r: seq<EngineCall>)
    ensures |r| == n
    ensures forall k :: 0 <= k < n ==> r[k] == EngineCall.Process
  {
    if n == 0 then [] else Processes(n - 1) + [EngineCall.Process]
  }

  /** Where frame index c * BLOCK_SIZE + i of a request comes from. */
  lemma FrameSplit(c: nat, i: nat)
    requires i < BLOCK_SIZE
    ensures (c * BLOCK_SIZE + i) / BLOCK_SIZE == c && (c * BLOCK_SIZE + i) % BLOCK_SIZE == i
    ensures (2 * (c * BLOCK_SIZE + i)) / 2 == c * BLOCK_SIZE + i && (2 * (c * BLOCK_SIZE + i)) % 2 == 0
    ensures (2 * (c * BLOCK_SIZE + i) + 1) / 2 == c * BLOCK_SIZE + i && (2 * (c * BLOCK_SIZE + i) + 1) % 2 == 1
  {
  }

  /** A partial last block still costs a whole call; a full one exactly one. */
  lemma ChunksStep(done: nat, chunk: nat)
    requires done % BLOCK_SIZE == 0 && 0 < chunk <= BLOCK_SIZE
    ensures Chunks(done + chunk) == Chunks(done) + 1
  {
  }
}
