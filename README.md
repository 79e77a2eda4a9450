# capstan: a verified model of the real-time engine core

capstan is a real-time audio engine. The audio thread runs a callback,
`Engine::process_audio`, once per hardware block. The callback first drains a
lock-free command ring written by the control thread. It then either outputs
silence (after `Quit`) or renders one block, through an installed compiled
graph or through a built-in sine → gain fallback chain. When a new graph is
swapped in, the displaced one is sent back to the control thread on an event
ring, so that it is freed there and not on the audio thread.

This project models that core in Dafny, one module per source file:

- `RingBuffers` (`ring_buffer.dfy`) models the SPSC ring as a class. It has a
  slot array, two unbounded counters and a ghost queue `contents`. The
  invariant `Valid()` ties the counters to the queue. `TrySend` and `TryRecv`
  are proved against it: the FIFO order, the capacity, and the value handed
  back on overflow.
- `AudioBuffers` (`audio_buffer.dfy`) models the zero-initialised sample
  buffer. Its storage is a `const` array, so it can never be resized.
- `Processor` (`processor.dfy`) models the `Silence` node and the shared
  processing contract. A node writes the output slice `output[..len]` and
  leaves the rest of the array alone.
- `Nodes` (`nodes.dfy`) models the sine source, the gain processor and the
  mixer as classes whose `Process` methods are loops. Each method is proved
  equal to a reference function: `SineBlock`, `Gained` or `Mixed`. Samples
  are `real`, so the arithmetic is exact.
- `Graph` (`graph.dfy`) models the `NodeId` newtype and an opaque
  `CompiledGraph`.
- `Engine` (`engine.dfy`) models the engine class. Its command handling is
  also given as pure functions, `Apply` and `Drain`, over a `Control` record
  (gain, quit flag, installed graph, event-ring contents). The methods are
  proved against those functions. Lemmas about `Drain` prove the FIFO
  composition and that the last `SetGain`, `Quit`/`Resume` or `SwapGraph`
  wins. They also bound the events a drain can send.

What the model takes as parameters or leaves abstract:

- The sine generator's `f32::sin(2 * PI * phase)` is a `waveform: real -> real`
  given at construction. The phase arithmetic (`+=`, then `%= 1.0`) is
  modelled exactly. Rust's float `%` keeps the sign of the dividend, so it is
  the truncating remainder `Rem1`.
- `CompiledGraph` is opaque. A plan has a `blocks` counter, standing for its
  nodes' carried state, and a `render` function with one block's result.
- The command and event channels are plain `RingBuffer` objects passed to the
  engine's methods.

The source disagrees with itself in three places. The model follows the code
that runs each time:

- The `Processor` trait in `src/processor.rs` declares a one-argument
  `process`, while every node and the engine use the two-argument
  `process(inputs, output)`. The model uses the two-argument form, and
  `Silence` ignores its inputs.
- `src/command.rs` and `src/event.rs` lack the variants that `src/engine.rs`
  uses: `Resume`, `SwapGraph(graph)` and `GraphSwapped(prev)`. The model's
  `Command` and `Event` follow `src/engine.rs`. The event enum's `NoOp`
  variant is called `Idle` here, so that it is distinct from `Command.NoOp`
  in the same module.
- The phase comment says "Phase in [0.0, 1.0)". `PhaseStaysInUnit` proves
  that only for a non-negative step. For a negative frequency, the code's
  `%` leaves the phase in (-1, 0]; `PhaseStaysBounded` states what holds for
  every step.

## Model

| member | source | states |
|---|---|---|
| `RingBuffers.RingBuffer.constructor` | src/ring_buffer.rs:23-32 | needs capacity > 0; gives an empty, valid ring with both counters at 0 and a fresh slot array of that capacity |
| `RingBuffers.RingBuffer.Slot` | src/ring_buffer.rs:46 | the slot `index % cap` used by send and receive always lies inside the slot array |
| `RingBuffers.RingBuffer.TrySend` | src/ring_buffer.rs:36-57 | keeps the ring invariant and never moves the read counter; on a full ring returns `Err(value)` and changes no counter, slot or queue entry; otherwise returns `Ok(())`, adds the value at the back of the queue and moves the write counter up by 1 |
| `RingBuffers.RingBuffer.TryRecv` | src/ring_buffer.rs:61-82 | keeps the ring invariant and never moves the write counter; on an empty ring returns `None` and changes nothing; otherwise returns the oldest value, removes it from the front and moves the read counter up by 1 |
| `RingBuffers.RingBuffer.IsEmpty` | src/ring_buffer.rs:85-91 | true exactly when the queue is empty |
| `RingBuffers.RingBuffer.IsFull` | src/ring_buffer.rs:94-100 | true exactly when the queue holds `cap` values |
| `RingBuffers.DistinctSlots` | src/ring_buffer.rs:46-52 | two counters less than `cap` apart address different slots, so a send never overwrites an unread value |
| `RingBuffers.SendsKeepPrefix` | src/ring_buffer.rs:40-43 | a run of sends keeps exactly the first `cap - len` values, in order, and drops the rest |
| `RingBuffers.EmptyRingKeepsFirstCap` | src/ring_buffer.rs:122-140 | sends into an empty ring keep the first `cap` values in send order, and all of them when there are at most `cap` |
| `RingBuffers.SendThenReceive` | src/ring_buffer.rs:132-140 | FIFO: up to `cap` sends into an empty ring, followed by as many receives, return the values in send order and leave the ring empty |
| `RingBuffers.FillThenRefill` | src/ring_buffer.rs:124-128 | each of the first `cap` sends into an empty ring returns `Ok(())` and leaves it full; the next send returns `Err` with the rejected value; one receive returns the oldest value, and after it one more send succeeds |
| `AudioBuffers.AudioBuffer.constructor` | src/audio_buffer.rs:11-14 | `new(n)` has length `n`, every sample is 0.0, and the storage is freshly allocated |
| `AudioBuffers.AudioBuffer.Len` | src/audio_buffer.rs:17-19 | the length of the fixed storage |
| `AudioBuffers.AudioBuffer.AsSlice` | src/audio_buffer.rs:27-29 | the read-only view has length `Len()` and shows the storage sample for sample |
| `AudioBuffers.AudioBuffer.AsMutSlice` | src/audio_buffer.rs:22-24 | the mutable view is the buffer's own storage and has length `Len()` |
| `AudioBuffers.WriteThroughMutSlice` | src/audio_buffer.rs:62-66 | a write through the mutable view at `i` appears at `i` in the read-only view, and no other sample changes |
| `Processor.Silence.Process` | src/processor.rs:12-16 | every sample of the output slice becomes 0.0 whatever it held; the slice keeps its length and the rest of the array is untouched |
| `Processor.SilenceIdempotent` | src/processor.rs:13-15 | silencing twice is the same as silencing once |
| `Processor.SilenceFixesSilence` | src/processor.rs:13-15 | silencing an already silent slice, the empty one included, changes nothing |
| `Nodes.Rem1` | src/nodes.rs:33 | float `% 1.0` lies in [0, 1) for a non-negative operand and in (-1, 0] for a non-positive one |
| `Nodes.SineGenerator.constructor` | src/nodes.rs:19-25 | frequency, sample rate and waveform are stored; the phase starts at 0.0 |
| `Nodes.SineGenerator.Process` | src/nodes.rs:29-35 | output sample `i` is the waveform at the phase reached after `i` steps; the phase afterwards is the one reached after `len` steps; samples past the slice are untouched |
| `Nodes.PhaseStaysInUnit` | src/nodes.rs:13-14 | with a non-negative step, a phase that starts in [0, 1) stays in [0, 1) for any number of samples |
| `Nodes.PhaseStaysBounded` | src/nodes.rs:31-33 | for any step, a phase that starts in (-1, 1) stays in (-1, 1) |
| `Nodes.PhaseContinues` | src/nodes.rs:29-35 | `n` samples and then `m` more reach the same phase as `n + m` samples |
| `Nodes.SineBlocksJoin` | src/nodes.rs:119-134 | a block of `n` samples and the next block of `m` samples, joined, equal one block of `n + m` samples, so blocks are continuous |
| `Nodes.SineBlockBounded` | src/nodes.rs:108-115 | if the waveform stays in [-1, 1], so does every sample of a block |
| `Nodes.GainProcessor.constructor` | src/nodes.rs:47-49 | stores the gain |
| `Nodes.GainProcessor.Process` | src/nodes.rs:53-67 | the output slice becomes `Gained(gain, inputs, prior)`; the rest of the array is untouched |
| `Nodes.GainProcessor.CopyScaled` | src/nodes.rs:54-61 | with an input, the output slice becomes `Gained(gain, [inp], prior)`; the rest of the array is untouched |
| `Nodes.GainProcessor.ScaleInPlace` | src/nodes.rs:62-66 | with no input, the output slice becomes `Gained(gain, [], prior)`, each sample scaled in place; the rest of the array is untouched |
| `Nodes.GainWithInput` | src/nodes.rs:54-61 | with an input, `out[i] = inp[i] * gain` for `i < min(len, inp.len)`, and `out[i] = 0.0` beyond that |
| `Nodes.GainReadsFirstInputOnly` | src/nodes.rs:54 | inputs after the first make no difference |
| `Nodes.GainPriorContents` | src/nodes.rs:54-66 | with an input, the prior output does not matter; with no input, each prior sample is scaled in place |
| `Nodes.GainExamples` | src/nodes.rs:137-158 | gain 0.5 on all-ones gives all 0.5; unity gain reproduces an input of the block's length |
| `Nodes.GainBounded` | src/nodes.rs:56-58 | with a gain `g >= 0` and an input in [-1, 1], every output sample lies in [-g, g] |
| `Nodes.Mixer.constructor` | src/nodes.rs:79-81 | stores the gains |
| `Nodes.Mixer.Stereo` | src/nodes.rs:84-86 | the gains are `[1.0, 1.0]` |
| `Nodes.Mixer.Process` | src/nodes.rs:90-98 | output sample `i` is the in-order sum over inputs `j` of `inputs[j][i] * gains[j]`, where a missing sample or gain reads as 0.0; `gains` is only read; the rest of the array is untouched |
| `Nodes.MixNoInputs` | src/nodes.rs:91-97 | with no inputs the mixer writes all zeros |
| `Nodes.MixMissingGains` | src/nodes.rs:94 | inputs past the end of `gains` add nothing |
| `Nodes.MixExtraGains` | src/nodes.rs:93-95 | gains past the number of inputs are never read |
| `Nodes.MixBounded` | src/nodes.rs:90-98 | inputs in [-1, 1] mix to at most the sum of the gains' magnitudes |
| `Nodes.MixHalfAndHalf` | src/nodes.rs:161-173 | weights `[0.5, 0.5]` over two all-ones inputs give exactly 1.0 at every index; over two inputs in [-1, 1] they give a result in [-1, 1] |
| `Nodes.GainIsOneInputMix` | src/nodes.rs:53-98 | a gain node with one input computes the same block as a mixer with the single weight `[gain]` |
| `Graph.New` | src/graph.rs:9-11 | `NodeId::new(n).as_usize() == n` |
| `Graph.NodeId.AsUsize` | src/graph.rs:14-16 | wrapping the raw index again gives the same id back |
| `Graph.NewAsUsize` | src/graph.rs:5-16 | `NodeId::new(id.as_usize()) == id` for every id |
| `Graph.NewInjective` | src/graph.rs:4-5 | `new(a) == new(b)` exactly when `a == b`, and every id equals itself |
| `Graph.CompiledGraph.Process` | src/engine.rs:45 | the output is overwritten with the plan's block for its current state, and the state moves on by one block |
| `Engine.Engine.constructor` | src/engine.rs:25-33 | new sine generator (phase 0.0) and gain processor with the given values; not quitting; no graph installed; a zeroed 4096-sample scratch buffer |
| `Engine.Engine.ShouldQuit` | src/engine.rs:90-92 | reports the quit flag |
| `Engine.Engine.ApplyCommand` | src/engine.rs:76-88 | `SetGain(g)` sets only the fallback gain; `Quit` and `Resume` set and clear only the quit flag; `NoOp` changes nothing; `SwapGraph(new)` always installs `new`. If a graph was installed and the event ring has room, exactly one `GraphSwapped(prev)` is added to the event ring; otherwise the event ring is unchanged |
| `Engine.Engine.DrainCommands` | src/engine.rs:36-40 | the command ring ends empty, and the engine and event ring end in the state `Drain` gives for the queued commands applied oldest first; the engine, as consumer of the command ring and producer of the event ring, never moves the command ring's write counter or the event ring's read counter |
| `Engine.Engine.RenderBlock` | src/engine.rs:43-56 | with a graph installed, only that graph runs, and the sine phase and scratch are untouched. Otherwise the output is `FallbackBlock`, the phase moves on `n = min(len, 4096)` steps, and `scratch[..n]` holds the sine block |
| `Engine.Engine.RenderFallback` | src/engine.rs:47-54 | the output is `FallbackBlock`, the sine phase moves on `n = min(len, 4096)` steps, `scratch[..n]` holds the sine block, and the rest of the scratch is untouched |
| `Engine.Engine.ProcessAudio` | src/engine.rs:59-73 | drains first, then checks the quit flag. If quitting, the output is all 0.0, and neither the fallback nor the graph ran. Otherwise the block is rendered: with a graph installed, that graph's block and state step; without one, the fallback block, the phase after `n = min(len, 4096)` steps, the sine block in `scratch[..n]` and the rest of the scratch untouched. A plan that was installed or queued but is no longer installed keeps its state; the command ring's write counter and the event ring's read counter are untouched |
| `Engine.DrainGraphOrigin` | src/engine.rs:82-86 | after a drain, the installed graph is the one installed before or one carried by a queued `SwapGraph` |
| `Engine.DrainAppend` | src/engine.rs:36-40 | draining `a + b` is draining `a`, then `b`: commands apply in FIFO order |
| `Engine.DrainKeepsGain` | src/engine.rs:78 | commands other than `SetGain` leave the gain unchanged |
| `Engine.LastSetGainWins` | src/engine.rs:125-136 | after a drain, the gain is that of the last `SetGain` |
| `Engine.DrainKeepsQuit` | src/engine.rs:79-80 | commands other than `Quit` or `Resume` leave the quit flag unchanged |
| `Engine.LastQuitOrResumeWins` | src/engine.rs:79-80 | after a drain, the quit flag is decided by the last `Quit` or `Resume` |
| `Engine.DrainKeepsGraph` | src/engine.rs:82-86 | without a `SwapGraph`, neither the installed graph nor the event ring changes |
| `Engine.LastSwapWins` | src/engine.rs:82-86 | after a drain, the installed graph is the one carried by the last `SwapGraph` |
| `Engine.DrainEvents` | src/engine.rs:83-84 | a drain adds at most one event per `SwapGraph`, only at the back of the event ring, and never beyond its capacity |
| `Engine.SwapTwice` | src/engine.rs:211-235 | from no graph, the first swap sends no event; a second swap installs the second graph and sends exactly one `GraphSwapped` carrying the first |
| `Engine.SwapWithFullEventRing` | src/engine.rs:83-84 | a swap with a full event ring still installs the new graph, leaves the event ring unchanged and drops the displaced graph |
| `Engine.DrainExamples` | src/engine.rs:119-147 | after `SetGain` 0.1, 0.2, 0.3 the gain is 0.3; `Quit` then `Resume` means running; `Quit` alone means quitting |
| `Engine.FallbackShape` | src/engine.rs:47-54 | with `n = min(len, 4096)`, fallback samples below `n` are `sine * gain` and samples from `n` on are 0.0 |
| `Engine.FallbackBounded` | src/engine.rs:102-117 | with a waveform in [-1, 1] and a gain `g >= 0`, every fallback sample lies in [-g, g] |
| `Engine.SwapTwiceThroughEngine` | src/engine.rs:211-235 | at the engine level, the first swap leaves the event ring empty; the second sends back exactly the first graph, and the second graph stays installed |

## Left out

- Atomics and memory orderings of the ring (`Acquire`/`Release`/`Relaxed`): the model is single-threaded. It covers the sequential behaviour, not the cross-thread publication protocol.
- `usize` wrap-around of the ring counters (`wrapping_add`/`wrapping_sub`): the counters are unbounded `nat`. The model does not cover the counters wrapping at 2^64. At that point, `write % cap` jumps unless `cap` is a power of two.
- `f32` arithmetic: samples, gains and phases are `real`. The results are exact, with no rounding, NaN or infinity. The tests' epsilon comparisons become equalities.
- `f32::sin`: the waveform is a parameter of the sine generator. The engine tests' "non-silent output" checks depend on actual sine values and are not stated.
- `Nodes.SineGenerator.constructor`: requires a positive sample rate (type `SampleRate`). At a rate of 0, the `f32` division produces infinity or NaN, which `real` cannot express.
- `Engine.Engine.constructor`: its `sampleRate` has type `SampleRate` and so excludes 0, which `Engine::new` accepts as a `u32` and passes on to `SineGenerator::new`; the reason is the one given for `Nodes.SineGenerator.constructor`.
- The output slice `&mut [f32]` is modelled as a prefix `output[..len]` of an array. Passing the whole array is a call with `len == output.Length`.
- `AudioGraph`, `compile`, the topological sort and the contents of `CompiledGraph` are not in the files modelled. A compiled plan is opaque: a `render` function and a block counter.
- `command_channel`, `event_channel`, `CommandReceiver` and `EventSender` are not in the files modelled. The engine receives the two `RingBuffer` objects directly.
- `src/command.rs` and `src/event.rs` hold plain enums with no behaviour, and they disagree with how `src/engine.rs` uses them. The engine module defines its own `Command` and `Event` instead.
- Ownership of a plan by exactly one thread at a time is not modelled. A plan is an object reference, and the model does not prove that no reference to it stays behind after it is sent.
- `src/lib.rs` and `src/main.rs` hold device and stream setup, thread plumbing and stdin parsing. They are I/O and are not modelled.
- The no-allocation and real-time claims are non-functional and cannot be stated as contracts.
- The derived `Clone`, `Debug` and `PartialEq` of the node structs are not modelled. `NodeId` equality is the datatype's equality.
