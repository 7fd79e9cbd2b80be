/**
 * The audio side of the chat component: a recorder collects the chunks the capture
 * device delivers, in arrival order, and on stop assembles them into one clip.
 */
module Audio {
  import opened Wrappers

  /** One chunk of captured audio (`event.data`), as raw bytes. */
  type Chunk = seq<bv8>

  /** The number of bytes in all the chunks together. */
  function TotalLength(chunks: seq<Chunk>): nat
  {
    if chunks == [] then 0 else |chunks[0]| + TotalLength(chunks[1..])
  }

  /** `new Blob(chunks)`: the chunks' bytes laid end to end, in order. */
  function Assemble(chunks: seq<Chunk>): (r: seq<bv8>)
    ensures |r| == TotalLength(chunks)
    ensures chunks != [] ==> r[..|chunks[0]|] == chunks[0]
  {
    if chunks == [] then [] else chunks[0] + Assemble(chunks[1..])
  }

  /** Assembling two runs of chunks one after the other is assembling them together. */
  lemma {:induction false} AssembleAppend(a: seq<Chunk>, b: seq<Chunk>)
    ensures Assemble(a + b) == Assemble(a) + Assemble(b)
    decreases |a|
  {
    if a == [] {
      assert a + b == b;
    } else {
      assert (a + b)[1..] == a[1..] + b;
      AssembleAppend(a[1..], b);
    }
  }

  /** Each new chunk lands at the end of the clip. */
  lemma AssemblePush(chunks: seq<Chunk>, c: Chunk)
    ensures Assemble(chunks + [c]) == Assemble(chunks) + c
  {
    AssembleAppend(chunks, [c]);
    assert Assemble([c]) == c + Assemble([]);
  }

  /** Chunk `i` occupies the clip's bytes right after those of chunks `0..i-1`. */
  lemma AssembleAt(chunks: seq<Chunk>, i: nat)
    requires i < |chunks|
    ensures var start := |Assemble(chunks[..i])|;
      start + |chunks[i]| <= |Assemble(chunks)| &&
      Assemble(chunks)[start..start + |chunks[i]|] == chunks[i]
  {
    assert chunks == chunks[..i] + [chunks[i]] + chunks[i + 1..];
    AssembleAppend(chunks[..i] + [chunks[i]], chunks[i + 1..]);
    AssemblePush(chunks[..i], chunks[i]);
  }

  /**
   * A `MediaRecorder` together with the `chunks` array its `ondataavailable` handler
   * pushes into.
   */
  class Recorder {
    var chunks: seq<Chunk>
    var active: bool

    /** `new MediaRecorder(stream)`, `const chunks = []` and `recorder.start()`. */
    constructor Start()
      ensures chunks == [] && active
    {
      chunks := [];
      active := true;
    }

    /** `ondataavailable`: the chunk is pushed onto the end of `chunks`. */
    method DataAvailable(c: Chunk)
      requires active
      modifies this`chunks
      ensures chunks == old(chunks) + [c]
      ensures Assemble(chunks) == Assemble(old(chunks)) + c
    {
      AssemblePush(chunks, c);
      chunks := chunks + [c];
    }

    /**
     * `recorder.stop()`: an active recorder becomes inactive and its `onstop` handler
     * builds the clip from every chunk, in order; stopping an inactive recorder does
     * nothing and yields no clip.
     */
    method Stop() returns (clip: Option<seq<bv8>>)
      modifies this`active
      ensures !active
      ensures clip == if old(active) then Some(Assemble(chunks)) else None
    {
      if active {
        clip := Some(Assemble(chunks));
      } else {
        clip := None;
      }
      active := false;
    }
  }
}
