/**
 * The processing capability of `src/processor.rs` and its `Silence` node.
 *
 * Every node processes one block: it reads zero or more input slices and
 * writes one output slice. The output slice is a prefix `output[..len]` of
 * an array (the engine hands nodes such prefixes), so every `Process`
 * method here and in `Nodes` writes `output[..len]` and leaves
 * `output[len..]` as it was.
 */
module Processor {

  /** `n` samples of silence. */
  function Zeros(n: nat): (z: seq<real>)
    ensures |z| == n
    ensures forall i :: 0 <= i < n ==> z[i] == 0.0
  {
    seq(n, _ => 0.0)
  }

  /** What `Silence` makes of a block: the same length, every sample 0.0. */
  function Silenced(block: seq<real>): (out: seq<real>)
    ensures |out| == |block|
    ensures forall i :: 0 <= i < |out| ==> out[i] == 0.0
  {
    Zeros(|block|)
  }

  /** The source node that outputs silence; it has no state. */
  datatype Silence = Silence {

    /** `Silence::process`: overwrite every sample of the output slice with 0.0; inputs are ignored. */
    method Process(inputs: seq<seq<real>>, output: array<real>, len: nat)
      requires len <= output.Length
      modifies output
      ensures output[..len] == Silenced(old(output[..len]))
      ensures output[len..] == old(output[len..])
    {
      var i := 0;
      while i < len
        invariant i <= len
        invariant forall k :: 0 <= k < i ==> output[k] == 0.0
        invariant output[i..] == old(output[i..])
      {
        output[i] := 0.0;
        i := i + 1;
      }
    }
  }

  /** Silencing twice is silencing once. */
  lemma SilenceIdempotent(block: seq<real>)
    ensures Silenced(Silenced(block)) == Silenced(block)
  {
  }

  /** A silent slice stays as it is; the empty slice is the case with no samples. */
  lemma SilenceFixesSilence(block: seq<real>)
    ensures (forall i :: 0 <= i < |block| ==> block[i] == 0.0) ==> Silenced(block) == block
  {
  }
}
