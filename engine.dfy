/**
 * The engine of `src/engine.rs`: the audio-thread state machine that drains
 * the command channel at the top of every callback, applies each command,
 * and renders one block either through the installed compiled graph or
 * through the built-in sine -> gain fallback chain.
 *
 * The two channels are instances of the ring model: `cmdRx` is the
 * receiving end of the command ring and `evtTx` the sending end of the
 * event ring.
 */
module Engine {
  import opened Wrappers
  import opened RingBuffers
  import opened AudioBuffers
  import opened Processor
  import opened Nodes
  import opened Graph

  /** The fallback chain's scratch size: blocks longer than this are zero-filled past it. */
  const FALLBACK_SCRATCH_FRAMES: nat := 4096

  /** The commands `apply_command` handles. */
  datatype Command = NoOp | SetGain(gain: real) | Quit | Resume | SwapGraph(graph: CompiledGraph)

  /** The events the engine sends back; `GraphSwapped` carries the displaced plan for disposal. */
  datatype Event = Idle | GraphSwapped(prev: CompiledGraph) | StreamStopped

  /**
   * The state a command acts on: the fallback gain, the quit flag, the
   * installed graph, and the contents of the event ring.
   */
  datatype Control = Control(gain: real, shouldQuit: bool, graph: Option<CompiledGraph>, events: seq<Event>)

  /**
   * `apply_command` as a function of the state: `SwapGraph` always installs
   * the new graph and makes one best-effort `try_send` of the displaced one,
   * which leaves the event ring unchanged when it is full.
   */
  function Apply(c: Control, cmd: Command, eventCap: nat): Control
  {
    match cmd
    case SetGain(g) => c.(gain := g)
    case Quit => c.(shouldQuit := true)
    case Resume => c.(shouldQuit := false)
    case NoOp => c
    case SwapGraph(next) =>
      var events := if c.graph.Some? then AfterSend(c.events, eventCap, GraphSwapped(c.graph.value)) else c.events;
      c.(graph := Some(next), events := events)
  }

  /** `drain_commands` as a function of the state: the queued commands applied oldest first. */
  function Drain(c: Control, cmds: seq<Command>, eventCap: nat): Control
    decreases |cmds|
  {
    if cmds == [] then c else Drain(Apply(c, cmds[0], eventCap), cmds[1..], eventCap)
  }

  /** The plans a run of commands may install. */
  ghost function PlansIn(cmds: seq<Command>): set<CompiledGraph>
  {
    set i | 0 <= i < |cmds| && cmds[i].SwapGraph? :: cmds[i].graph
  }

  /** The installed plan, as a set (empty when none is installed). */
  ghost function Installed(graph: Option<CompiledGraph>): set<CompiledGraph>
  {
    if graph.Some? then {graph.value} else {}
  }

  /**
   * What the fallback chain writes into a block of `len` samples: the first
   * `n = min(len, 4096)` samples are the sine block scaled by the gain, the
   * rest are 0.0.
   */
  function FallbackBlock(waveform: real -> real, phase: real, increment: real, gain: real, len: nat): (out: seq<real>)
    ensures |out| == len
  {
    var n := Min(len, FALLBACK_SCRATCH_FRAMES);
    Gained(gain, [SineBlock(waveform, phase, increment, n)], Zeros(n)) + Zeros(len - n)
  }

  class Engine {
    const sineGenerator: SineGenerator
    const gainProcessor: GainProcessor
    var shouldQuit: bool
    var currentGraph: Option<CompiledGraph>
    /** Scratch for the fallback chain, so that the gain stage reads a separate input. */
    const fallbackScratch: AudioBuffer

    ghost predicate Valid()
    {
      fallbackScratch.Len() == FALLBACK_SCRATCH_FRAMES
    }

    /** The engine's command-visible state, together with the event ring's contents. */
    ghost function ControlState(events: seq<Event>): Control
      reads this, gainProcessor
    {
      Control(gainProcessor.gain, shouldQuit, currentGraph, events)
    }

    /** `Engine::new`: fallback chain active, not quitting, scratch of 4096 zeroed samples. */
    constructor (sampleRate: SampleRate, frequencyHz: real, initialGain: real, waveform: real -> real)
      ensures Valid()
      ensures fresh(sineGenerator) && fresh(gainProcessor) && fresh(fallbackScratch) && fresh(fallbackScratch.storage)
      ensures sineGenerator.frequencyHz == frequencyHz && sineGenerator.sampleRate == sampleRate
      ensures sineGenerator.waveform == waveform && sineGenerator.phase == 0.0
      ensures gainProcessor.gain == initialGain
      ensures !shouldQuit && currentGraph == None
      ensures AllZero(fallbackScratch.AsSlice())
    {
      sineGenerator := new SineGenerator(frequencyHz, sampleRate, waveform);
      gainProcessor := new GainProcessor(initialGain);
      shouldQuit := false;
      currentGraph := None;
      fallbackScratch := new AudioBuffer(FALLBACK_SCRATCH_FRAMES);
    }

    /** `should_quit`: the quit flag. */
    function ShouldQuit(): (quit: bool)
      reads this
      ensures quit == shouldQuit
    {
      shouldQuit
    }

    /**
     * `apply_command`: `SetGain` sets the fallback gain, `Quit` and `Resume`
     * set and clear the quit flag, `NoOp` does nothing, `SwapGraph` installs
     * its graph and, when one was installed before, tries once to send it
     * back as `GraphSwapped`; a full event ring drops it silently.
     */
    method ApplyCommand(cmd: Command, evtTx: RingBuffer<Event>)
      requires evtTx.Valid()
      modifies this, gainProcessor, evtTx, evtTx.storage
      ensures evtTx.Valid() && evtTx.readIndex == old(evtTx.readIndex)
      ensures ControlState(evtTx.contents) == Apply(old(ControlState(evtTx.contents)), cmd, evtTx.cap)
      ensures cmd.SetGain? ==>
                gainProcessor.gain == cmd.gain && shouldQuit == old(shouldQuit)
                && currentGraph == old(currentGraph) && evtTx.contents == old(evtTx.contents)
      ensures cmd.Quit? || cmd.Resume? ==>
                shouldQuit == cmd.Quit? && gainProcessor.gain == old(gainProcessor.gain)
                && currentGraph == old(currentGraph) && evtTx.contents == old(evtTx.contents)
      ensures cmd.NoOp? ==>
                shouldQuit == old(shouldQuit) && gainProcessor.gain == old(gainProcessor.gain)
                && currentGraph == old(currentGraph) && evtTx.contents == old(evtTx.contents)
      ensures cmd.SwapGraph? ==>
                currentGraph == Some(cmd.graph) && shouldQuit == old(shouldQuit)
                && gainProcessor.gain == old(gainProcessor.gain)
                && evtTx.contents == (if old(currentGraph).Some? && old(|evtTx.contents|) < evtTx.cap
                                      then old(evtTx.contents) + [GraphSwapped(old(currentGraph).value)]
                                      else old(evtTx.contents))
    {
      match cmd
      case SetGain(gain) =>
        gainProcessor.gain := gain;
      case Quit =>
        shouldQuit := true;
      case Resume =>
        shouldQuit := false;
      case NoOp =>
      case SwapGraph(next) =>
        var prev := currentGraph;
        currentGraph := Some(next);
        if prev.Some? {
          var _ := evtTx.TrySend(GraphSwapped(prev.value));
        }
    }

    /** `drain_commands`: receive and apply commands until the command ring is empty. */
    method DrainCommands(cmdRx: RingBuffer<Command>, evtTx: RingBuffer<Event>)
      requires cmdRx.Valid() && evtTx.Valid()
      modifies this, gainProcessor, cmdRx, evtTx, evtTx.storage
      ensures cmdRx.Valid() && evtTx.Valid()
      ensures cmdRx.contents == []
      ensures ControlState(evtTx.contents) == Drain(old(ControlState(evtTx.contents)), old(cmdRx.contents), evtTx.cap)
      ensures cmdRx.writeIndex == old(cmdRx.writeIndex) && evtTx.readIndex == old(evtTx.readIndex)
    {
      ghost var goal := Drain(ControlState(evtTx.contents), cmdRx.contents, evtTx.cap);
      var next := cmdRx.TryRecv();
      while next.Some?
        invariant cmdRx.Valid() && evtTx.Valid()
        invariant cmdRx.writeIndex == old(cmdRx.writeIndex) && evtTx.readIndex == old(evtTx.readIndex)
        invariant next.Some? ==> goal == Drain(ControlState(evtTx.contents), [next.value] + cmdRx.contents, evtTx.cap)
        invariant next.None? ==> cmdRx.contents == [] && goal == ControlState(evtTx.contents)
        decreases if next.Some? then |cmdRx.contents| + 1 else 0
      {
        assert ([next.value] + cmdRx.contents)[1..] == cmdRx.contents;
        ApplyCommand(next.value, evtTx);
        next := cmdRx.TryRecv();
      }
    }

    /**
     * `render_block`: with a graph installed, only that graph runs; otherwise
     * the sine source fills `scratch[..n]`, the gain stage writes
     * `output[..n]` from it, and `output[n..]` is zero-filled, where
     * `n = min(output.len(), 4096)`.
     */
    method RenderBlock(output: array<real>)
      requires Valid() && output != fallbackScratch.storage
      modifies output, sineGenerator, fallbackScratch.storage, Installed(currentGraph)
      ensures currentGraph.Some? ==>
                var g := currentGraph.value;
                && output[..] == g.render(old(g.blocks), old(output[..]))
                && g.blocks == old(g.blocks) + 1
                && sineGenerator.phase == old(sineGenerator.phase)
                && fallbackScratch.storage[..] == old(fallbackScratch.storage[..])
      ensures currentGraph.None? ==>
                var n := Min(output.Length, FALLBACK_SCRATCH_FRAMES);
                var step := sineGenerator.Increment();
                && output[..] == FallbackBlock(sineGenerator.waveform, old(sineGenerator.phase), step, gainProcessor.gain, output.Length)
                && sineGenerator.phase == PhaseAfter(old(sineGenerator.phase), step, n)
                && fallbackScratch.storage[..n] == SineBlock(sineGenerator.waveform, old(sineGenerator.phase), step, n)
                && fallbackScratch.storage[n..] == old(fallbackScratch.storage[n..])
    {
      match currentGraph
      case Some(graph) =>
        graph.Process(output);
      case None =>
        RenderFallback(output);
    }

    /** The fallback half of `render_block`: sine into the scratch prefix, gain into the output, zeros after. */
    method RenderFallback(output: array<real>)
      requires Valid() && output != fallbackScratch.storage
      modifies output, sineGenerator, fallbackScratch.storage
      ensures var n := Min(output.Length, FALLBACK_SCRATCH_FRAMES);
              var step := sineGenerator.Increment();
              && output[..] == FallbackBlock(sineGenerator.waveform, old(sineGenerator.phase), step, gainProcessor.gain, output.Length)
              && sineGenerator.phase == PhaseAfter(old(sineGenerator.phase), step, n)
              && fallbackScratch.storage[..n] == SineBlock(sineGenerator.waveform, old(sineGenerator.phase), step, n)
              && fallbackScratch.storage[n..] == old(fallbackScratch.storage[n..])
    {
      var n := Min(output.Length, fallbackScratch.Len());
      var scratch := fallbackScratch.AsMutSlice();
      sineGenerator.Process([], scratch, n);
      gainProcessor.Process([scratch[..n]], output, n);
      if output.Length > n {
        forall i | n <= i < output.Length {
          output[i] := 0.0;
        }
      }
      ghost var expected := FallbackBlock(sineGenerator.waveform, old(sineGenerator.phase), sineGenerator.Increment(), gainProcessor.gain, output.Length);
      assert output[..] == expected by {
        assert output[..] == output[..n] + output[n..];
        assert output[n..] == Zeros(output.Length - n);
      }
    }

    /**
     * `process_audio`: drain the command ring first; then, if quitting,
     * write silence and run nothing else, otherwise render one block with
     * the state the commands left.
     */
    method ProcessAudio(cmdRx: RingBuffer<Command>, evtTx: RingBuffer<Event>, output: array<real>)
      requires Valid() && cmdRx.Valid() && evtTx.Valid() && output != fallbackScratch.storage
      modifies this, gainProcessor, cmdRx, evtTx, evtTx.storage
      modifies output, sineGenerator, fallbackScratch.storage, Installed(currentGraph) + PlansIn(cmdRx.contents)
      ensures cmdRx.Valid() && evtTx.Valid() && cmdRx.contents == []
      ensures ControlState(evtTx.contents) == Drain(old(ControlState(evtTx.contents)), old(cmdRx.contents), evtTx.cap)
      ensures cmdRx.writeIndex == old(cmdRx.writeIndex) && evtTx.readIndex == old(evtTx.readIndex)
      ensures Installed(currentGraph) <= old(Installed(currentGraph) + PlansIn(cmdRx.contents))
      ensures forall g | g in old(Installed(currentGraph) + PlansIn(cmdRx.contents)) && g !in Installed(currentGraph) :: g.blocks == old(g.blocks)
      ensures shouldQuit ==>
                && output[..] == Zeros(output.Length)
                && sineGenerator.phase == old(sineGenerator.phase)
                && fallbackScratch.storage[..] == old(fallbackScratch.storage[..])
                && (currentGraph.Some? ==> var g := currentGraph.value; g.blocks == old(g.blocks))
      ensures !shouldQuit && currentGraph.Some? ==>
                var g := currentGraph.value;
                && output[..] == g.render(old(g.blocks), old(output[..]))
                && g.blocks == old(g.blocks) + 1
                && sineGenerator.phase == old(sineGenerator.phase)
                && fallbackScratch.storage[..] == old(fallbackScratch.storage[..])
      ensures !shouldQuit && currentGraph.None? ==>
                var n := Min(output.Length, FALLBACK_SCRATCH_FRAMES);
                var step := sineGenerator.Increment();
                && output[..] == FallbackBlock(sineGenerator.waveform, old(sineGenerator.phase), step, gainProcessor.gain, output.Length)
                && sineGenerator.phase == PhaseAfter(old(sineGenerator.phase), step, n)
                && fallbackScratch.storage[..n] == SineBlock(sineGenerator.waveform, old(sineGenerator.phase), step, n)
                && fallbackScratch.storage[n..] == old(fallbackScratch.storage[n..])
    {
      DrainGraphOrigin(ControlState(evtTx.contents), cmdRx.contents, evtTx.cap);
      DrainCommands(cmdRx, evtTx);
      if ShouldQuit() {
        var i := 0;
        while i < output.Length
          invariant i <= output.Length
          invariant forall k :: 0 <= k < i ==> output[k] == 0.0
          modifies output
        {
          output[i] := 0.0;
          i := i + 1;
        }
      } else {
        RenderBlock(output);
      }
    }
  }

  /** The graph a drain leaves installed is the one installed before or one a `SwapGraph` carried. */
  lemma {:induction false} DrainGraphOrigin(c: Control, cmds: seq<Command>, eventCap: nat)
    ensures Installed(Drain(c, cmds, eventCap).graph) <= Installed(c.graph) + PlansIn(cmds)
    decreases |cmds|
  {
    if cmds != [] {
      var c' := Apply(c, cmds[0], eventCap);
      DrainGraphOrigin(c', cmds[1..], eventCap);
      assert PlansIn(cmds[1..]) <= PlansIn(cmds) by {
        forall p | p in PlansIn(cmds[1..]) ensures p in PlansIn(cmds) {
          var i :| 0 <= i < |cmds[1..]| && cmds[1..][i].SwapGraph? && cmds[1..][i].graph == p;
          assert cmds[i + 1] == cmds[1..][i];
        }
      }
      if cmds[0].SwapGraph? {
        assert cmds[0].graph in PlansIn(cmds);
      }
    }
  }

  // ------------------------------------------------------------ properties of draining

  /** FIFO: draining `a + b` applies all of `a`, oldest first, and then all of `b`. */
  lemma {:induction false} DrainAppend(c: Control, a: seq<Command>, b: seq<Command>, eventCap: nat)
    ensures Drain(c, a + b, eventCap) == Drain(Drain(c, a, eventCap), b, eventCap)
    decreases |a|
  {
    if a != [] {
      assert (a + b)[0] == a[0];
      assert (a + b)[1..] == a[1..] + b;
      DrainAppend(Apply(c, a[0], eventCap), a[1..], b, eventCap);
    } else {
      assert a + b == b;
    }
  }

  /** Draining `cmds` up to and including index `k`: everything before `k`, then `cmds[k]`. */
  lemma DrainThrough(c: Control, cmds: seq<Command>, k: nat, eventCap: nat)
    requires k < |cmds|
    ensures Drain(c, cmds, eventCap)
         == Drain(Apply(Drain(c, cmds[..k], eventCap), cmds[k], eventCap), cmds[k + 1..], eventCap)
  {
    assert cmds == cmds[..k] + [cmds[k]] + cmds[k + 1..];
    DrainAppend(c, cmds[..k] + [cmds[k]], cmds[k + 1..], eventCap);
    DrainAppend(c, cmds[..k], [cmds[k]], eventCap);
  }

  /** Commands other than `SetGain` leave the fallback gain alone. */
  lemma {:induction false} DrainKeepsGain(c: Control, cmds: seq<Command>, eventCap: nat)
    requires forall i :: 0 <= i < |cmds| ==> !cmds[i].SetGain?
    ensures Drain(c, cmds, eventCap).gain == c.gain
    decreases |cmds|
  {
    if cmds != [] {
      DrainKeepsGain(Apply(c, cmds[0], eventCap), cmds[1..], eventCap);
    }
  }

  /** The last `SetGain` of a drain decides the fallback gain. */
  lemma LastSetGainWins(c: Control, cmds: seq<Command>, k: nat, eventCap: nat)
    requires k < |cmds| && cmds[k].SetGain?
    requires forall i :: k < i < |cmds| ==> !cmds[i].SetGain?
    ensures Drain(c, cmds, eventCap).gain == cmds[k].gain
  {
    DrainThrough(c, cmds, k, eventCap);
    DrainKeepsGain(Apply(Drain(c, cmds[..k], eventCap), cmds[k], eventCap), cmds[k + 1..], eventCap);
  }

  /** Commands other than `Quit` and `Resume` leave the quit flag alone. */
  lemma {:induction false} DrainKeepsQuit(c: Control, cmds: seq<Command>, eventCap: nat)
    requires forall i :: 0 <= i < |cmds| ==> !cmds[i].Quit? && !cmds[i].Resume?
    ensures Drain(c, cmds, eventCap).shouldQuit == c.shouldQuit
    decreases |cmds|
  {
    if cmds != [] {
      DrainKeepsQuit(Apply(c, cmds[0], eventCap), cmds[1..], eventCap);
    }
  }

  /** The last `Quit` or `Resume` of a drain decides the quit flag. */
  lemma LastQuitOrResumeWins(c: Control, cmds: seq<Command>, k: nat, eventCap: nat)
    requires k < |cmds| && (cmds[k].Quit? || cmds[k].Resume?)
    requires forall i :: k < i < |cmds| ==> !cmds[i].Quit? && !cmds[i].Resume?
    ensures Drain(c, cmds, eventCap).shouldQuit == cmds[k].Quit?
  {
    DrainThrough(c, cmds, k, eventCap);
    DrainKeepsQuit(Apply(Drain(c, cmds[..k], eventCap), cmds[k], eventCap), cmds[k + 1..], eventCap);
  }

  /** Without a `SwapGraph` neither the installed graph nor the event ring changes. */
  lemma {:induction false} DrainKeepsGraph(c: Control, cmds: seq<Command>, eventCap: nat)
    requires forall i :: 0 <= i < |cmds| ==> !cmds[i].SwapGraph?
    ensures Drain(c, cmds, eventCap).graph == c.graph
    ensures Drain(c, cmds, eventCap).events == c.events
    decreases |cmds|
  {
    if cmds != [] {
      DrainKeepsGraph(Apply(c, cmds[0], eventCap), cmds[1..], eventCap);
    }
  }

  /** The last `SwapGraph` of a drain decides the installed graph. */
  lemma LastSwapWins(c: Control, cmds: seq<Command>, k: nat, eventCap: nat)
    requires k < |cmds| && cmds[k].SwapGraph?
    requires forall i :: k < i < |cmds| ==> !cmds[i].SwapGraph?
    ensures Drain(c, cmds, eventCap).graph == Some(cmds[k].graph)
  {
    DrainThrough(c, cmds, k, eventCap);
    DrainKeepsGraph(Apply(Drain(c, cmds[..k], eventCap), cmds[k], eventCap), cmds[k + 1..], eventCap);
  }

  /** How many `SwapGraph` commands a run holds. */
  function Swaps(cmds: seq<Command>): nat
    decreases |cmds|
  {
    if cmds == [] then 0 else (if cmds[0].SwapGraph? then 1 else 0) + Swaps(cmds[1..])
  }

  /**
   * The event ring only grows at its back during a drain, by at most one
   * `GraphSwapped` per `SwapGraph`, and never beyond its capacity.
   */
  lemma {:induction false} DrainEvents(c: Control, cmds: seq<Command>, eventCap: nat)
    requires |c.events| <= eventCap
    ensures var events := Drain(c, cmds, eventCap).events;
            && |c.events| <= |events| <= |c.events| + Swaps(cmds)
            && |events| <= eventCap
            && events[..|c.events|] == c.events
    decreases |cmds|
  {
    if cmds != [] {
      var c' := Apply(c, cmds[0], eventCap);
      DrainEvents(c', cmds[1..], eventCap);
      assert c'.events[..|c.events|] == c.events;
      var events := Drain(c', cmds[1..], eventCap).events;
      assert events[..|c.events|] == events[..|c'.events|][..|c.events|];
    }
  }

  /**
   * Swap correctness: from no graph and an empty event ring, the first swap
   * installs its graph and sends nothing; a second swap installs the second
   * graph and sends exactly one `GraphSwapped` carrying the first.
   */
  lemma SwapTwice(c: Control, first: CompiledGraph, second: CompiledGraph, eventCap: nat)
    requires c.graph == None && c.events == [] && eventCap > 0
    ensures Drain(c, [SwapGraph(first)], eventCap) == c.(graph := Some(first))
    ensures Drain(c, [SwapGraph(first), SwapGraph(second)], eventCap)
         == c.(graph := Some(second), events := [GraphSwapped(first)])
  {
    var c1 := Apply(c, SwapGraph(first), eventCap);
    assert c1 == c.(graph := Some(first));
    assert [SwapGraph(first), SwapGraph(second)][1..] == [SwapGraph(second)];
    assert AfterSend(c1.events, eventCap, GraphSwapped(first)) == [GraphSwapped(first)];
    assert Drain(c1, [SwapGraph(second)], eventCap) == Apply(c1, SwapGraph(second), eventCap);
  }

  /** A swap with a full event ring still installs the new graph; the displaced one is dropped. */
  lemma SwapWithFullEventRing(c: Control, next: CompiledGraph, eventCap: nat)
    requires |c.events| == eventCap
    ensures Apply(c, SwapGraph(next), eventCap) == c.(graph := Some(next))
  {
  }

  /**
   * The drain-order examples: three `SetGain`s leave the last gain; `Quit`
   * then `Resume` leaves the engine running; a lone `Quit` stops it.
   */
  lemma DrainExamples(c: Control, eventCap: nat)
    ensures Drain(c, [SetGain(0.1), SetGain(0.2), SetGain(0.3)], eventCap).gain == 0.3
    ensures !Drain(c, [Quit, Resume], eventCap).shouldQuit
    ensures Drain(c, [Quit], eventCap).shouldQuit
  {
  }

  // ------------------------------------------------------------ properties of the fallback chain

  /** The fallback block: `gain * sine` over the first `min(len, 4096)` samples, 0.0 after that. */
  lemma FallbackShape(waveform: real -> real, phase: real, increment: real, gain: real, len: nat)
    ensures var out := FallbackBlock(waveform, phase, increment, gain, len);
            var n := Min(len, FALLBACK_SCRATCH_FRAMES);
            && (forall i :: 0 <= i < n ==> out[i] == waveform(PhaseAfter(phase, increment, i)) * gain)
            && (forall i :: n <= i < len ==> out[i] == 0.0)
  {
  }

  /** A waveform bounded by 1 and a gain `g >= 0` give a fallback block bounded by `g`. */
  lemma FallbackBounded(waveform: real -> real, phase: real, increment: real, gain: real, len: nat)
    requires forall p :: -1.0 <= waveform(p) <= 1.0
    requires gain >= 0.0
    ensures forall i :: 0 <= i < len ==> -gain <= FallbackBlock(waveform, phase, increment, gain, len)[i] <= gain
  {
    var n := Min(len, FALLBACK_SCRATCH_FRAMES);
    SineBlockBounded(waveform, phase, increment, n);
    GainBounded(gain, SineBlock(waveform, phase, increment, n), Zeros(n));
  }

  /**
   * The swap example at the engine level: with no graph installed and an
   * empty event ring, a first `SwapGraph` sends nothing back, and a second
   * one sends back exactly the first graph.
   */
  method SwapTwiceThroughEngine(engine: Engine, evtTx: RingBuffer<Event>, first: CompiledGraph, second: CompiledGraph)
    returns (afterFirst: Option<Event>, afterSecond: Option<Event>)
    requires evtTx.Valid() && evtTx.contents == [] && engine.currentGraph == None
    modifies engine, engine.gainProcessor, evtTx, evtTx.storage
    ensures afterFirst == None && afterSecond == Some(GraphSwapped(first))
    ensures engine.currentGraph == Some(second) && evtTx.Valid() && evtTx.contents == []
  {
    engine.ApplyCommand(SwapGraph(first), evtTx);
    afterFirst := evtTx.TryRecv();
    engine.ApplyCommand(SwapGraph(second), evtTx);
    afterSecond := evtTx.TryRecv();
  }
}
