/**
 * The graph types of `src/graph.rs`: the `NodeId` newtype, and the compiled
 * execution plan that the engine runs. `CompiledGraph` is not defined in
 * the files modelled here, so it is opaque: an object with some internal
 * node state whose `process` overwrites an output block in place.
 */
module Graph {

  /** Rust's `usize` on a 64-bit target. */
  type Usize = n: nat | n < 0x1_0000_0000_0000_0000

  /** `NodeId(usize)`: a node index kept apart from other integers. Equality is the derived one. */
  datatype NodeId = NodeId(index: Usize)
  {
    /** `NodeId::as_usize`: the raw index. */
    function AsUsize(): (n: Usize)
      ensures NodeId(n) == this
    {
      index
    }
  }

  /** `NodeId::new`: wraps a raw index; `as_usize` gives it back. */
  function New(id: Usize): (r: NodeId)
    ensures r.AsUsize() == id
  {
    NodeId(id)
  }

  /** Creating an id from another id's raw index gives that id back. */
  lemma NewAsUsize(id: NodeId)
    ensures New(id.AsUsize()) == id
  {
  }

  /** Ids are equal exactly when their raw indices are; in particular every id equals itself. */
  lemma NewInjective(a: Usize, b: Usize)
    ensures New(a) == New(b) <==> a == b
    ensures New(a) == New(a)
  {
  }

  /** A block-rendering function of a plan: it returns a block as long as the one it is given. */
  type BlockRenderer = f: (nat, seq<real>) -> seq<real> | forall k, prior :: |f(k, prior)| == |prior|
    witness (k: nat, prior: seq<real>) => prior

  /**
   * `CompiledGraph`, opaque: `blocks` stands for the state its nodes carry
   * from one block to the next (it counts the blocks rendered so far), and
   * `render` says what one block writes given that state and the output's
   * prior contents.
   */
  class CompiledGraph {
    var blocks: nat
    const render: BlockRenderer

    constructor (render: BlockRenderer)
      ensures blocks == 0 && this.render == render
    {
      blocks := 0;
      this.render := render;
    }

    /** `CompiledGraph::process`: overwrite `output` in place and advance the node state by one block. */
    method Process(output: array<real>)
      modifies this, output
      ensures blocks == old(blocks) + 1
      ensures output[..] == render(old(blocks), old(output[..]))
    {
      var block := render(blocks, output[..]);
      forall i | 0 <= i < output.Length {
        output[i] := block[i];
      }
      blocks := blocks + 1;
    }
  }
}
