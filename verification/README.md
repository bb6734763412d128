# A verified model of the FutureSDR flowgraph runtime and its signal processing core

FutureSDR runs a flowgraph: blocks are actors with FIFO inboxes, a coordinator starts and stops them, and
samples, tags and messages travel between them. This project models in Dafny the parts of it that carry
unbounded properties, and proves those properties for all inputs, all runs and all ways of chopping a stream
into calls. `dafny verify dfyconfig.toml` checks all of it.

Code that changes state step by step is modelled by methods and classes with the same fields, branches and
loops; each is proved against a function or a step system, and the properties are lemmas about those.

## What is modelled, and the main results

**Actor runtime.** `BlockLoop` is the loop of a block (`src/runtime/block.rs`) as a step system: one event per await
or branch, messages arriving between any two of them. Its invariant holds after every run: handled, in hand and
queued messages together are what was sent, in order; a block does not park between handling a message and calling
`work` or shutting down; a Terminate bounds the `work` calls that follow, by one, exactly if the block was sent its
Initialize before. `Actor` is the same loop as an imperative class; each of its methods is proved to perform a run
of the step system, and to leave the kernel that its handlers and `work` make of it. `MessageIo` and `MessageBlocks`
are the fan-out over named ports and the three message blocks. `Pipeline` puts a MessageBurst, any number of
MessageCopy stages and a MessageSink behind the init barrier and proves an invariant over all edges in every
interleaving. `PipelineRuns` derives safety (a sink that shuts down has exactly the burst, in order) and the end of
every execution (a measure bounds its length, and where it cannot go on, every block is done). `Coordinator` is
`run_flowgraph`: counters, result, single Terminate broadcast, and exactly when the init barrier holds. `Runtime`
puts the coordinator and any number of block loops together, with every post of a kernel and every send of the
coordinator a step of its own: if no kernel posts while it initialises, no block handles a message or works before
every block is initialised or has failed. That is what `Pipeline` takes for granted where it lets the coordinator
send Notify only when no block is in its setup. `InitPosts` shows that posts of an `init`, from any block to any
block, can break it as soon as there are two blocks. `Inboxes` accounts for every message a block is sent, in every
execution: the rounds of the coordinator reach each block once, and a request reaches the block it names. `Shutdown`
is about the end: after a broadcast Terminate every execution to which finitely many messages are added is finite,
and where it cannot go on `run_flowgraph` has returned if and only if it does not wait for the reply of a block that
is over. If nobody asks for a reply after the broadcast, it does return.

**Filters.** `FirKernels` models the plain, decimating and polyphase kernels over an uninterpreted accumulator
function `mac`, with the kernels' own counts, status and index arithmetic. `FirBlock` runs any of the three inside
`Fir::work`; whatever the buffer splits, the block's output is a prefix of the one-shot output, and the whole of it
when the block has finished. `KernelAlgebra` adds ring laws: the polyphase kernel is the convolution of the
zero-stuffed input sampled every `decim`-th place, and filters in series are one filter with convolved taps. `Iir`
covers the recursive filter with its seeding and memory shift; its outputs are those of the difference equation.
`Fft` shows that the iterative radix-2 transform is the discrete Fourier transform over every commutative ring with
principal roots. `Rings` and `Sums` hold the laws used; complex numbers with the product of `mul_complex4` satisfy
them.

**Checksums.** `Gf2` is a theory of polynomials over GF(2): long division, its uniqueness and linearity, the
shift register as a remainder, the residue, and which errors cannot be multiples. `Crc16` connects machine
words with it. `AdsbCrc`, `ZigbeeCrc` and `LoraCrc` model the three CRCs (ICAO Annex 10 Volume IV section
3.1.2.3.3, IEEE 802.15.4-2006 section 7.2.1.9, and the LoRa payload CRC), and prove each code form against it.

**Streaming blocks.** `BurstPad`, `Delay` and `ApplyIntoIter` are classes whose `work` may be called with any
input chunk and any output room. `StreamTags` is the reader contract they rest on: items and tags move together.

**The `connect!` macro.** `Connect` models the grammar over a token stream, the parser, a printer, and the
translation to edges and block declarations.

## Hypotheses

- FIR kernels in a block have at least one tap, and `interp` and `decim` are positive; the zero-stuffing theorem also
  uses that `interp` divides the number of taps, as the constructor asserts.
- Roots of unity for the FFT are a parameter: each is the square of the next, and the one of order 2 is -1. They stand
  for the complex exponentials of `generate_stage_twiddles`; `Fft.FourthRoots` gives those for up to four samples, and
  `Roots` doubles the size for any ring that has them, starting from the integers.
- Kernels post nothing while they initialise, where `Runtime` speaks of silent executions: in what it says about the init
  barrier, not in what `Shutdown` says.
- Tags handed to `BurstPad` are sorted and lie on the samples they come with.
- A kernel may set `finished` but does not clear it.
- The whitening sequence of LoRa is a parameter, at least as long as the payload.
- Packet bits of ADS-B are 0 or 1, as the demodulator produces them.
- The pipeline has no external Terminate and no channel failures; the order of steps is arbitrary.

## Where code, comments and expectations differ

The model follows the code.

- The header comment of `polyphase_resampling_fir.rs` (line 21) gives the branch filters as `h(l*n+l)`; the code
  uses the taps `interp*n+l`. At rate 1/1 this kernel stops one sample short of the plain filter.
- The documentation of `connect!` says stream ports default to the names `out` and `in` (`crates/macros/src/lib.rs:38-59`);
  the code calls `output()` and `input()` for stream and circuit links and uses the two names for message links only. A
  message link also loses the index of an indexed port; `Connect.SameEdgesIff` says exactly which chains become the same
  edges.
- A Terminate that reaches a block before its Initialize is dropped, in every state; `BlockLoop.TerminateBoundsWorkIff` has
  both directions. A block whose inbox never runs empty does not look at a Terminate it has handled
  (`BlockLoop.BusyInboxIsNotStopped`).
- A block that fails after it has reported Initialized is counted twice by the init loop, so that others can be
  notified before they are initialised (`Coordinator.DoubleAnswerBreaksTheBarrier`). `Coordinator.BarrierHoldsIff` gives the
  exact count; a double answer can be harmless (`Coordinator.DoubleAnswerCanBeHarmless`).
- `run_flowgraph` waits in its main loop for the reply to every callback and description it passes on
  (`src/runtime/runtime.rs:505, 531, 555`). The inbox of a block that is over still takes messages, as the flowgraph keeps
  the block, but nobody handles them: a request that reaches such a block hangs the flowgraph for good
  (`Shutdown.AskingAfterTheEndHangs`, `Shutdown.HungNeverReturns`, `Shutdown.DescriptionBehindTheEnd`).
- `BurstPad` also pads the tail of untagged runs, and where those end depends on how the stream was chopped
  (`BurstPad.GapsDependOnTheCalls`). The documented stream comes out exactly if the tail padding is 0 or bursts tile the
  stream (`BurstPad.DocumentedWhen`). A burst of length 0 stops the block for good (`BurstPad.ZeroLengthBurstSticks`), and
  nothing else keeps it from its input when there is room. A pending tail is cut off at the end of the input exactly if the
  last call has too little room for it (`BurstPad.BurstPad.Work`, `BurstPad.TailIsCutOff`).
- `Delay` can finish from its padding state with input unread (`Delay.PaddingLosesInput`); `Delay.Delay.Work` says exactly
  when a finished block has output everything.
- With more than one forward tap an IIR block never finishes once it has output anything, because the status asks for more
  output room whenever input is left. If the whole input is exactly as long as the feedback taps and comes in one call, the
  block finishes with outputs missing (`Iir.SeedingLosesOutputs`). `Iir.Block.Work` states both exactly.

## Model

| member | source | states |
|---|---|---|
| Rings.ComplexIsRing | examples/burn/src/fft.rs:15-37 | the four-slice product of `mul_complex4` makes the complex numbers a commutative ring, so every ring theorem here applies to them |
| Fft.BitRevInvolutive | examples/burn/src/fft.rs:6-13 | reversing the bits of an index twice gives the index back |
| Fft.ReverseIndex | examples/burn/src/fft.rs:10 | the shift-and-or fold computes the bit reversal of one index |
| Fft.BitReversalIndices | examples/burn/src/fft.rs:6-13 | the table, filled in place, holds the reversal of every index below 2^L |
| Fft.GatherTwice | examples/burn/src/fft.rs:66 | reordering by the table is a permutation and undoes itself |
| Fft.DftIsTheTextbookSum | examples/burn/src/fft.rs:61-90 | evaluating the polynomial of the input at a power of the root is the textbook sum of x[n]*w^(nk) |
| Fft.HalfTurn | examples/burn/src/fft.rs:39-58 | half the order of a stage's root is -1 |
| Fft.FourthRoots | examples/burn/src/fft.rs:39-58 | 1, -1 and -i satisfy the twiddle laws in the complex numbers of the tensor kernel, so the theorems apply to transforms of up to four samples as they are |
| Roots.AdjoinedIsRing | examples/burn/src/fft.rs:15-37 | pairs over any commutative ring, multiplied like complex numbers with any element in place of -1, are a commutative ring |
| Roots.MoreRoots | examples/burn/src/fft.rs:39-58 | any ring with the twiddle laws for 2^L samples extends to one with the laws for 2^(L+1), for every L >= 1 |
| Roots.IntegersHaveTwo | examples/burn/src/fft.rs:39-58 | the integers satisfy the laws for two samples |
| Fft.EvalSplit | examples/burn/src/fft.rs:79-87 | decimation in time: x(z) = evens(z^2) + z * odds(z^2) |
| Fft.ButterflyIsDft | examples/burn/src/fft.rs:79-87 | one butterfly joins the transforms of the even and odd samples to the transform of all of them |
| Fft.Regroup | examples/burn/src/fft.rs:77-87 | reshaping to blocks of twice the size joins neighbouring blocks, losing nothing |
| Fft.StartDone | examples/burn/src/fft.rs:66 | after the reordering every block of size 1 is the transform of its one-sample subsequence |
| Fft.StageAdvances | examples/burn/src/fft.rs:69-88 | a stage turns blocks that are transforms of size 2^s into blocks that are transforms of size 2^(s+1), of the subsequences picked by bit reversal |
| Fft.EndDone | examples/burn/src/fft.rs:69-90 | after the last stage the one block left is the transform of the whole input |
| Fft.FftInplace | examples/burn/src/fft.rs:61-90 | the iterative transform returns the discrete Fourier transform, for every size 2^L over every commutative ring |
| Fft.TransformRow | examples/burn/src/bin/spectrum.rs:29-78 | with the tables set up as the block does, output k is the textbook sum for k |
| Gf2.DivisionIdentity | examples/adsb/src/decoder.rs:62-68 | long division: what is divided is quotient times generator plus remainder |
| Gf2.DivisionUnique | examples/adsb/src/decoder.rs:62-68 | no other quotient and remainder satisfy the division identity |
| Gf2.DividesIffRemainderZero | examples/adsb/src/decoder.rs:69-73 | being a multiple of the generator is the same as a zero remainder |
| Gf2.RemainderLinear | examples/adsb/src/decoder.rs:62-68 | the remainder of a sum is the sum of the remainders |
| Gf2.NoShortMultiple | examples/adsb/src/decoder.rs:59-61 | a nonzero pattern inside a window as wide as the check is no multiple of a generator whose first and last coefficient are set |
| Gf2.MultiplesAreEven | examples/adsb/src/decoder.rs:59-61 | multiples of a generator with an even number of terms have an even number of set bits |
| Gf2.RegisterIsShiftedRemainder | examples/zigbee/debug_crc.py:11-23 | a shift register fed with a message holds the remainder of the message times x^w |
| Gf2.Residue | examples/zigbee/debug_crc.py:90-95 | further bits clear the register exactly when they are its own content |
| Gf2.AppendingTheCheck | examples/zigbee/debug_crc.py:90-95 | a message with w bits appended leaves a zero register exactly when those are the message's register |
| Gf2.ZeroRegisterIffDivides | examples/zigbee/debug_crc.py:90-95 | a zero register and divisibility by the generator are the same test |
| Gf2.BurstsAndOddErrorsFail | examples/adsb/src/decoder.rs:57-73 | no burst as wide as the check, and no odd number of bit errors for an even generator, turns a multiple into a multiple |
| AdsbCrc.GeneratorShape | examples/adsb/src/decoder.rs:59-61 | the generator has 25 coefficients, both ends set, and an even number of terms |
| AdsbCrc.GeneratorTerms | examples/adsb/src/decoder.rs:59-61 | the table has coefficient 1 for exactly the 16 powers 24 down to 12, 10, 3 and 0, highest first |
| AdsbCrc.ShiftedGeneratorPasses | examples/adsb/src/decoder.rs:57-73 | a packet of any length whose set bits are those 16 terms times a power of x passes |
| AdsbCrc.ShortestPackets | examples/adsb/src/decoder.rs:57-73 | of the packets of 25 bits exactly two pass: the one without a set bit and the one with those 16 |
| AdsbCrc.XorGenerator | examples/adsb/src/decoder.rs:64-66 | the inner loop adds the generator at place i and leaves the other bits alone |
| AdsbCrc.SumFrom | examples/adsb/src/decoder.rs:69-72 | the byte sum over the last 24 bits cannot wrap: it is 0 exactly when all are clear |
| AdsbCrc.ReducedStep | examples/adsb/src/decoder.rs:62-67 | a row operation keeps the difference to the packet a multiple of the generator and clears one more leading bit |
| AdsbCrc.TailIsRemainder | examples/adsb/src/decoder.rs:62-68 | the fully reduced packet ends in the remainder: the tail is clear exactly when the remainder is zero |
| AdsbCrc.CheckCrc | examples/adsb/src/decoder.rs:57-73 | a packet of at least 24 bits passes exactly when it is a multiple of the generator |
| AdsbCrc.ErrorsAreCaught | examples/adsb/src/decoder.rs:57-73 | a valid packet with an error burst within 24 bits, or an odd number of bit errors, does not pass, at any length |
| AdsbCrc.ParityFieldIsForced | examples/adsb/src/decoder.rs:57-73 | every message has exactly one 24-bit parity field with which it passes: the register content |
| AdsbCrc.BinToU64 | examples/adsb/src/decoder.rs:7-9 | the fold is the sum of the powers of two of the set bits, highest first, modulo 2^64: of a longer slice the first bits are shifted out |
| AdsbCrc.Decoder.In | examples/adsb/src/decoder.rs:105-145 | every packet is counted once, as valid exactly when it is a multiple of the generator; it is decoded if valid or if failures are forwarded |
| ZigbeeCrc.RustStyleByte | examples/zigbee/debug_crc.py:18-22 | the bit-serial step for a byte is eight clocks of the reflected register |
| ZigbeeCrc.CalcCrcRustStyle | examples/zigbee/debug_crc.py:11-23 | the bit-serial CRC of every byte string is the reflected register after its bits, lowest of a byte first |
| ZigbeeCrc.StandardByte | examples/zigbee/debug_crc.py:34-39 | xoring the byte in and clocking eight times gives the same register as feeding its bits one by one |
| ZigbeeCrc.CalcCrcStandard | examples/zigbee/debug_crc.py:26-40 | the xor-in-a-byte CRC is that same register |
| ZigbeeCrc.CalcCrcStandardInitFfff | examples/zigbee/debug_crc.py:43-55 | the same register started from all ones |
| ZigbeeCrc.MsbFirstByte | examples/zigbee/debug_crc.py:64-68 | the highest-first step for a byte is eight clocks of the plain register |
| ZigbeeCrc.CalcCrcMsbFirst | examples/zigbee/debug_crc.py:58-69 | the highest-first CRC is the plain register after the bits, highest of a byte first |
| ZigbeeCrc.ReverseBits16 | examples/zigbee/debug_crc.py:72-78 | the loop reverses the 16 bits |
| ZigbeeCrc.ReverseBits8 | examples/zigbee/debug_crc.py:81-87 | the loop reverses the 8 bits |
| ZigbeeCrc.ReversedBytesReadHighestFirst | examples/zigbee/debug_crc.py:58-87 | bytes reversed one by one and read highest bit first give the bits of the original read lowest first |
| ZigbeeCrc.CompareForms | examples/zigbee/debug_crc.py:11-87 | for every byte string the bit-serial CRC, the xor-in-a-byte CRC and the reversal of the highest-first CRC of the reversed bytes are equal |
| ZigbeeCrc.FcsUnique | examples/zigbee/debug_crc.py:11-40 | a byte string has one frame check sequence |
| ZigbeeCrc.CheckCrcResidue | examples/zigbee/src/mac.rs:86-88 | a frame of at least two bytes is accepted exactly when it is a multiple of x^16+x^12+x^5+1; a shorter one only if it is zero |
| ZigbeeCrc.ResidueIffMatch | examples/zigbee/debug_crc.py:90-95 | two trailing bytes make the residue zero exactly when they are the CRC of the rest, low byte first |
| ZigbeeCrc.AnalyzePacketCrc | examples/zigbee/debug_crc.py:121-151 | the report is missing exactly below three bytes; each CRC in it is the register it should be; a zero residue and the two low-byte-first matches always agree, and both byte orders match only if the check bytes are equal |
| ZigbeeCrc.AppendFcs | examples/zigbee/src/mac.rs:249-251 | the two bytes put behind a frame make it valid, and no other two do |
| ZigbeeCrc.FrameErrorsAreCaught | examples/zigbee/src/mac.rs:86-88 | a valid frame with an error burst of at most 16 bits or an odd number of bit errors is rejected |
| LoraCrc.Crc16Byte | examples/lora/src/decoder.rs:21-29 | the loop for a byte is eight clocks of the register, highest bit first |
| LoraCrc.Crc16Of | examples/lora/src/decoder.rs:18-32 | the CRC of a byte string is the register after all its bits |
| LoraCrc.PayloadCheck | examples/lora/src/decoder.rs:67-69 | the CRC of all but the last two bytes, with those xored in, is the remainder of the whole payload polynomial |
| LoraCrc.CheckUnique | examples/lora/src/decoder.rs:67-69 | a payload has one check value |
| LoraCrc.PayloadErrorsAreCaught | examples/lora/src/decoder.rs:62-81 | an error burst of at most 16 bits, or an odd number of bit errors, in the payload changes the check value |
| LoraCrc.DewhitenSlice | examples/lora/src/decoder.rs:43-49 | every whole pair of nibbles gives one dewhitened byte |
| LoraCrc.CheckTrailer | examples/lora/src/decoder.rs:53-81 | the comparison passes exactly when there are two payload bytes or more and the two bytes behind them are their remainder, low byte first |
| LoraCrc.Decode | examples/lora/src/decoder.rs:34-84 | a frame with a check is delivered exactly when its trailer is good, one without always; what is delivered are the dewhitened bytes |
| LoraCrc.DamageSpoilsTheTrailer | examples/lora/src/decoder.rs:62-81 | a good payload and trailer are no longer good after such an error in the payload |
| LoraCrc.DecodeDamaged | examples/lora/src/decoder.rs:34-84 | a frame that would be good but for such an error in its payload is not delivered |
| LoraCrc.Whitening | examples/lora/src/encoder.rs:55-62 | each byte, xored with the sequence, becomes its low and its high nibble |
| LoraCrc.WhitenedInOrder | examples/lora/src/encoder.rs:55-62 | two nibbles of the transmitter make up the whitened byte, the low one first |
| LoraCrc.LowNibbleFirst | examples/lora/src/decoder.rs:43-49 | the receiver takes the first of two nibbles as the low half of the byte it dewhitens |
| LoraCrc.CrcNibblesInOrder | examples/lora/src/encoder.rs:127-130 | the four nibbles make up the check, lowest first |
| LoraCrc.FrameNibbles | examples/lora/src/encoder.rs:119-132 | the frame is header, whitened payload and the four nibbles of the check, lowest first |
| LoraCrc.RecoveredFrame | examples/lora/src/decoder.rs:34-84 | on any frame the encoder forms, the decoder recovers the payload, and a good trailer if there is a check |
| LoraCrc.RoundTrip | examples/lora/src/decoder.rs:34-84 | decode after the whitening and CRC stages of the encoder delivers the payload (and its check), for every payload, whitening sequence, header nibbles and header mode |
| FirKernels.MacWindow | crates/futuredsp/src/fir.rs:71-92 | the inner loop accumulates one window, taps from the back, all reads in bounds |
| FirKernels.FirKernel | crates/futuredsp/src/fir.rs:53-93 | writes the first outputs of the one-shot filter and nothing else, as many as room and input allow; status tells which of the two ran out |
| FirKernels.DecimatedIs | crates/futuredsp/src/decimating_fir.rs:83-98 | output k is the window starting at D-1+kD: every D-th output of the plain filter |
| FirKernels.DecimatingCounts | crates/futuredsp/src/decimating_fir.rs:74-81 | the counts fit room and input |
| FirKernels.DecimatingKernel | crates/futuredsp/src/decimating_fir.rs:55-98 | writes a prefix of the subsampled filter, and consumes D samples for each output, never more than there are |
| FirKernels.PolyphaseLengthIs | crates/futuredsp/src/polyphase_resampling_fir.rs:90-95 | the number of outputs for an input in closed form |
| FirKernels.ProducableIsWholePeriods | crates/futuredsp/src/polyphase_resampling_fir.rs:90-95 | the kernel's two roundings come to the largest number of whole periods |
| FirKernels.ProducableSamples | crates/futuredsp/src/polyphase_resampling_fir.rs:91-95 | what the kernel computes is that number, and a multiple of `interp` |
| FirKernels.PolyphaseConsumed | crates/futuredsp/src/polyphase_resampling_fir.rs:104-106 | for whole periods of output, whole periods of input are consumed |
| FirKernels.PolyphaseCounts | crates/futuredsp/src/polyphase_resampling_fir.rs:90-106 | counts are whole periods within room and input, and the status says which limit was hit |
| FirKernels.PolyphaseReads | crates/futuredsp/src/polyphase_resampling_fir.rs:110-115 | every unchecked read of every output is in bounds |
| FirKernels.PhaseShift | crates/futuredsp/src/polyphase_resampling_fir.rs:110-111 | one period later in the output is `decim` samples later in the input, on the same branch |
| FirKernels.PolyphaseIs | crates/futuredsp/src/polyphase_resampling_fir.rs:108-123 | the one-shot output at k is the branch of its phase, read from the place of its phase, with all reads in bounds |
| FirKernels.Locate | crates/futuredsp/src/polyphase_resampling_fir.rs:110-111 | the branch and start computed for output k are those of the one-shot output |
| FirKernels.MacBranch | crates/futuredsp/src/polyphase_resampling_fir.rs:112-116 | the inner loop accumulates one branch of the taps |
| FirKernels.PolyphaseKernel | crates/futuredsp/src/polyphase_resampling_fir.rs:70-124 | writes a prefix of the one-shot output in whole periods, consumes the matching input, and touches nothing behind |
| FirKernels.UnitRateStopsOneShort | crates/futuredsp/src/polyphase_resampling_fir.rs:93-95 | at rate 1/1 the output is the plain filter's without its last sample |
| FirBlock.Core.Filter | src/blocks/fir.rs:79-98 | all three kernels keep one contract: a prefix of the one-shot output, paired counts, and the status that decides the end |
| FirBlock.Restart | crates/futuredsp/src/polyphase_resampling_fir.rs:90-123 | the filter run on the rest of the input gives the rest of the output, so a call boundary is invisible |
| FirBlock.Extend | crates/futuredsp/src/polyphase_resampling_fir.rs:90-123 | input that arrives later only adds outputs at the end |
| FirBlock.Step | src/blocks/fir.rs:79-98 | a call that starts at the consumed offset continues the one-shot output of everything fed |
| FirBlock.Fir.Work | src/blocks/fir.rs:79-98 | for any buffers the output stays a prefix of the one-shot output; the block finishes exactly when input has ended and the room sufficed, and then has all of it |
| KernelAlgebra.FirIsConvolution | crates/futuredsp/src/fir.rs:71-92 | output k is the convolution at k + taps - 1 |
| KernelAlgebra.PolyphaseIsStuffedConvolution | crates/futuredsp/src/polyphase_resampling_fir.rs:90-123 | output k is the convolution of the input with interp-1 zeros stuffed in, at k*decim + (taps/interp-1)*interp |
| KernelAlgebra.Cascade | crates/futuredsp/src/fir.rs:71-92 | two filters in series are one filter with the convolved taps |
| KernelAlgebra.ChainLength | perf/fir/fir.rs:101 | S filters of T taps over n samples leave n - S(T-1) samples, or none |
| KernelAlgebra.ChainIsOneFilter | crates/futuredsp/src/fir.rs:71-92 | a chain of any number of filters is one filter |
| KernelAlgebra.FinishedBlocks | src/blocks/fir.rs:79-98 | finished blocks in series hold the chain's output, however their buffers were split |
| Iir.OutputsExtend | crates/futuredsp/src/iir.rs:134-164 | outputs do not change when more input arrives |
| Iir.OutputsPrefix | crates/futuredsp/src/iir.rs:134-164 | fewer outputs are a prefix of more: all calls emit one sequence |
| Iir.DifferenceEquation | crates/futuredsp/src/iir.rs:134-164 | output k is the sum of b[j]*x[k+nb-1-j] plus the sum of a[j]*y[k-1-j], with x[j-k] where there is no such output, over every commutative ring |
| Iir.NoFeedback | crates/futuredsp/src/iir.rs:141-145 | without feedback taps the outputs are those of the plain FIR filter |
| Iir.IirFilter.Seed | crates/futuredsp/src/iir.rs:102-118 | the memory is filled from the start of the input, once, and left alone when full |
| Iir.IirFilter.Next | crates/futuredsp/src/iir.rs:137-152 | the next output is the forward sum plus the feedback sum over earlier outputs, or seeds before there are any |
| Iir.IirFilter.Remember | crates/futuredsp/src/iir.rs:154-160 | the memory moves up one place, with the new output in front |
| Iir.IirFilter.Produce | crates/futuredsp/src/iir.rs:134-164 | one turn of the loop extends the output sequence by its next element |
| Iir.IirFilter.Run | crates/futuredsp/src/iir.rs:134-164 | consumed equals produced, as much as forward taps and room allow, continuing the sequence |
| Iir.IirFilter.Filter | crates/futuredsp/src/iir.rs:79-178 | a call on the unread input continues the one sequence; counts, memory and status are given exactly |
| Iir.PrefixOfAll | crates/futuredsp/src/iir.rs:79-178 | what has been output is a prefix of the sequence for the whole input |
| Iir.FinishedWith | src/blocks/iir.rs:125-144 | a block that stops has all outputs except exactly when the input is as long as the feedback taps and came in one piece |
| Iir.Block.Advance | src/blocks/iir.rs:125-144 | consuming and producing around the kernel keeps the block's output on the one sequence |
| Iir.Block.Work | src/blocks/iir.rs:125-144 | the output is always a prefix of the sequence; the finish condition exactly, its failure with more than one forward tap, and exactly when a finished block misses outputs |
| Iir.SeedingLosesOutputs | crates/futuredsp/src/iir.rs:119-128 | a block with one feedback tap, one forward tap and one sample in a closed input finishes without the output that sample allows |
| BlockLoop.SendKeepsInvariant | src/runtime/block.rs:116-306 | a message arriving at any moment keeps the loop's invariant |
| BlockLoop.NextKeepsFifo | src/runtime/block.rs:167-249 | handled, in hand, peeked and queued messages together stay what was sent, in order |
| BlockLoop.NextKeepsFlow | src/runtime/block.rs:243-300 | no step parks the block with a message handled since the last work call |
| BlockLoop.NextKeepsPending | src/runtime/block.rs:164-269 | a pending Terminate stays pending until it is handled |
| BlockLoop.NextKeepsInvariant | src/runtime/block.rs:116-306 | every step of the block keeps the whole invariant |
| BlockLoop.EveryRun | src/runtime/block.rs:116-306 | the invariant holds after every run, whatever arrives when |
| BlockLoop.FreshIsInvariant | src/runtime/block.rs:126-136 | a new block satisfies the invariant |
| BlockLoop.StepsDown | src/runtime/block.rs:164-303 | with a Terminate pending every own step of the block lowers a rank |
| BlockLoop.NeverStuck | src/runtime/block.rs:164-303 | a block with a Terminate pending always has a step until it is over |
| BlockLoop.TerminateStopsTheBlock | src/runtime/block.rs:244-269 | with nothing more arriving, a Terminate ends the block within a bounded number of steps |
| BlockLoop.HandledInOrder | src/runtime/block.rs:167-249 | in every run from the start the handled messages, behind those dropped before Initialize, are a prefix of those sent |
| BlockLoop.TerminateBoundsWorkIff | src/runtime/block.rs:136-300 | in every reachable state of a block that is not over, a Terminate bounds the work calls of all continuations exactly if the Initialize was sent before |
| BlockLoop.AtMostOneMoreWork | src/runtime/block.rs:243-300 | in every state behind the Initialize, however the run goes on after a Terminate, at most one more work call starts |
| BlockLoop.FinishedStartsNoWork | src/runtime/block.rs:251-300 | a block that is to finish starts no work call, however the run goes on |
| BlockLoop.OutputDoneStopsWork | src/runtime/block.rs:198-200 | so does one that has handled the end of an output or a Terminate |
| BlockLoop.EarlyTerminateIsDropped | src/runtime/block.rs:136-162 | in every state ahead of the Initialize, whatever is in the inbox, a Terminate is lost: the block can go on to any number of work calls |
| BlockLoop.BusyInboxIsNotStopped | src/runtime/block.rs:168-249 | from any point of the drain loop, as messages keep coming, it handles any number of them without looking at `finished` |
| Actor.WrappedKernel.constructor | src/runtime/block.rs:100-114 | a new actor is in the start state |
| Actor.WrappedKernel.Deliver | src/runtime/block.rs:135-167 | a send appends to the inbox and is one arrival |
| Actor.WrappedKernel.Handle | src/runtime/block.rs:171-247 | a call or callback leaves kernel, flags and verdict of the kernel's handler, the end of an input those of `stream_input_finish`, and any other message leaves the kernel alone and succeeds; it is one step of the loop and asks for another round |
| Actor.WrappedKernel.TryRecv | src/runtime/block.rs:248 | takes the first queued message, if there is one |
| Actor.WrappedKernel.Drain | src/runtime/block.rs:168-249 | all messages in hand and queued are handled, in order, before anything else; the kernel is what its handlers make of it one after the other, up to the first that fails; a Terminate among them sets `finished` |
| Actor.WrappedKernel.Shutdown | src/runtime/block.rs:252-269 | a finished block ends without calling work, and ends well exactly if `deinit` does |
| Actor.WrappedKernel.Work | src/runtime/block.rs:295-300 | one work call with call-again cleared, whose kernel, flags and verdict are kept; inbox untouched; then the next round or failure |
| Actor.WrappedKernel.Pass | src/runtime/block.rs:167-303 | one pass is a run of the step system; what the handlers leave in the flags decides between shutdown, work and waiting, and the kernel is what those functions make of it |
| Actor.WrappedKernel.Resume | src/runtime/block.rs:272-293 | a wake-up by a message keeps it in hand, and the kernel's future if there is one; one by the future leads to a work call |
| MessageIo.MessageOutput.Connect | src/runtime/message_io.rs:34-36 | a handler is added at the end |
| MessageIo.MessageOutput.Post | src/runtime/message_io.rs:51-60 | every connected open inbox gets its copies behind what it had, one for each of its connections, in their order |
| MessageIo.MessageOutput.NotifyFinished | src/runtime/message_io.rs:39-48 | every connected open inbox gets Finished, as its last message |
| MessageIo.OneHandler | src/runtime/message_io.rs:51-60 | an inbox connected once gets a post exactly once, on its port |
| MessageIo.Find | src/runtime/message_io.rs:105-109 | the search finds the first output with the name, or none if there is none |
| MessageIo.MessageOutputs.OutputMut | src/runtime/message_io.rs:105-109 | the loop performs that search |
| MessageIo.MessageOutputs.Connect | src/runtime/message_io.rs:86-97 | only the output with the name gains a handler; an unknown name is an error and changes nothing |
| MessageIo.MessageOutputs.Post | src/runtime/message_io.rs:77-84 | a post reaches the handlers of the named output only; an unknown name is an error and sends nothing |
| MessageIo.MessageOutputs.NotifyFinished | src/runtime/message_io.rs:99-103 | Finished goes out on every output, in order, to every handler |
| MessageBlocks.MessageBurst.Work | src/blocks/message_burst.rs:28-40 | one call posts the message as often as asked and finishes; without the port it fails unless there is nothing to post |
| MessageBlocks.MessageCopy.In | src/blocks/message_copy.rs:20-36 | Finished finishes the block and is not forwarded; everything else is forwarded once |
| MessageBlocks.MessageSink.In | src/blocks/message_sink.rs:21-38 | everything but Finished is counted, and Finished finishes the block |
| MessageBlocks.BurstIsTheWire | src/blocks/message_burst.rs:28-40 | the burst's deliveries and the closing Finished are what the pipeline system has on its first connection |
| Pipeline.PrefixOfWire | src/runtime/message_io.rs:39-60 | what has come over a connection is a prefix of the values, and with Finished all of them |
| Pipeline.StartOk | src/runtime/runtime.rs:399-405 | a pipeline of any length satisfies the global invariant before it starts |
| Pipeline.MoveKeeps | src/runtime/block.rs:164-303 | every move of any block or of the coordinator keeps the invariant over all blocks and edges; that Notify finds no block in its setup is a guard here, and proved of the coordinator in `Runtime` |
| Pipeline.EveryExecution | src/runtime/block.rs:164-303 | the invariant holds after every interleaving |
| PipelineRuns.InOrder | src/blocks/message_copy.rs:20-36 | no stage is ahead of the burst, and one that handled Finished has handled the whole burst |
| PipelineRuns.SinkReceivesTheBurst | perf/msg/msg.rs:62-64 | in every interleaving the sink has a prefix of the burst, and exactly the burst when it shuts down |
| PipelineRuns.MoveDecreases | src/runtime/block.rs:164-303 | every move lowers a measure of the whole system |
| PipelineRuns.ExecutionsAreBounded | src/runtime/block.rs:164-303 | no execution is longer than the measure of its first state |
| PipelineRuns.StuckIsDone | src/runtime/block.rs:251-269 | where nothing can move every notified block has shut down |
| PipelineRuns.EveryExecutionEndsWell | perf/msg/msg.rs:62-64 | every execution is finite, and where it cannot go on all blocks are done and the sink has the whole burst |
| Coordinator.BlockStepKeeps | src/runtime/block.rs:136-162 | what a block reports, at any moment, keeps the coordinator's invariant |
| Coordinator.CoordinateKeeps | src/runtime/runtime.rs:399-592 | each step of the coordinator keeps it |
| Coordinator.EveryRun | src/runtime/runtime.rs:379-593 | the invariant holds in every run |
| Coordinator.ActiveIsWhatIsLeft | src/runtime/runtime.rs:401-586 | `active_blocks` is N minus the final reports processed and never below 0, and Terminate is broadcast at most once |
| Coordinator.ResultIsRight | src/runtime/runtime.rs:459-592 | on return every block is over, and the result is Ok exactly when all of them ended well |
| Coordinator.MainLoopWaitsForReplies | src/runtime/runtime.rs:459-585 | once every block is over the main loop has a next step exactly if it awaits no reply |
| Coordinator.StepKeepsAccount | src/runtime/runtime.rs:412-435 | every step keeps the account: first answers waiting and answers counted are the blocks no longer fresh and the double answers counted |
| Coordinator.BarrierHoldsIff | src/runtime/runtime.rs:412-435 | in every run that reaches the end of the init loop, no block is fresh exactly if as many first answers wait in the channel as errors of blocks that had answered before were counted |
| Coordinator.NotifyAfterAllInits | src/runtime/runtime.rs:407-442 | if no such error was counted, no block is notified before every block has been initialised or has failed |
| Coordinator.PutAsideInOrder | src/runtime/runtime.rs:428-434 | until they are sent back, the requests put aside and those in the channel behind them are all that was sent from outside, in order |
| Coordinator.InitLoopGoesOn | src/runtime/runtime.rs:412-435 | once every block has answered the init loop has a next step |
| Coordinator.DoubleAnswerBreaksTheBarrier | src/runtime/runtime.rs:422-426 | a run in which a block answers twice, and both are notified while one is not initialised |
| Coordinator.DoubleAnswerCanBeHarmless | src/runtime/runtime.rs:422-426 | a run in which a block answers twice, and the barrier holds as the displaced answer is in the channel |
| Coordinator.Flowgraph.constructor | src/runtime/runtime.rs:379-399 | the coordinator of n blocks starts in the first state of the step system |
| Coordinator.Flowgraph.Receive | src/runtime/runtime.rs:417-419 | a report goes to the end of the channel and is one step |
| Coordinator.Flowgraph.InitBlocks | src/runtime/runtime.rs:399-409 | the first loop sends one Initialize to each block and is a run of the step system |
| Coordinator.Flowgraph.AwaitInits | src/runtime/runtime.rs:412-435 | the init loop stops exactly when no answer is open or the channel is empty |
| Coordinator.Flowgraph.StartBlocks | src/runtime/runtime.rs:437-454 | notify all, put the queued messages back in order, and ask for termination after an error |
| Coordinator.Flowgraph.Requeue | src/runtime/runtime.rs:444-446 | the queued messages go back in order, none lost |
| Coordinator.Flowgraph.Dispatch | src/runtime/runtime.rs:467-585 | one message of the main loop, up to the first await of a reply, is a run of the step system, lowers a measure of the channel, and leaves the blocks to be asked: one for a callback or description, all in turn for a flowgraph description |
| Coordinator.Flowgraph.TellAll | src/runtime/runtime.rs:576-581 | the broadcast is one step for each block, and only then is `terminated` set |
| Coordinator.Flowgraph.Resume | src/runtime/runtime.rs:505-555 | a reply is one step, after which the next block is asked, if any |
| Coordinator.Flowgraph.RunBlocks | src/runtime/runtime.rs:459-592 | the main loop returns the result of the step system, or waits: for a reply, or on an empty channel with blocks still active |
| Runtime.ReportFits | src/runtime/block.rs:362-395 | in every state that agrees with the coordinator's picture, a block's step is one the coordinator can be told of, once |
| Runtime.RequestIsNotDropped | src/runtime/block.rs:136-162 | a request the coordinator waits for is never lost in the setup of a block: it is handled, in hand, or in the inbox |
| Runtime.TellingWarns | src/runtime/runtime.rs:574-583 | Terminate goes to one block after the other, and each one told has it behind its Initialize |
| Runtime.MoveKeepsSound | src/runtime/runtime.rs:379-593 | every move of the coordinator, a block or the outside keeps the invariant of the whole flowgraph |
| Runtime.EveryExecution | src/runtime/runtime.rs:379-593 | the invariant holds after every interleaving, with posts of kernels at any point while one of their functions runs |
| Runtime.AsleepStays | src/runtime/block.rs:136-300 | a block that was sent nothing but its Initialize neither ends after it nor posts, and stays parked |
| Runtime.MoveKeepsSilence | src/runtime/runtime.rs:407-442 | if no kernel posts while it initialises, every move keeps all blocks asleep until the first Notify, and every answer single |
| Runtime.NoWorkBeforeAllInits | src/runtime/runtime.rs:407-442 | if no kernel posts while it initialises, no block handles a message or calls work before every block is initialised or has failed, in every interleaving |
| Runtime.NotifyFindsNoneInSetup | src/runtime/runtime.rs:437-442 | in those executions the init loop ends with every Initialize sent and no block in its setup |
| Inboxes.RoundsBalance | src/runtime/runtime.rs:403-583 | Initialize, Notify and Terminate go to one block after the other, each once |
| Inboxes.MoveBalances | src/runtime/runtime.rs:403-585 | every move keeps the account of what a block was sent against rounds, requests and posts |
| Inboxes.EveryInboxGetsItsOwn | src/runtime/runtime.rs:403-585 | in every execution a block is sent one Initialize, Notify and Terminate, once the round has come to it, each request from outside for it, with its own port and data, unless that still waits in the coordinator, and what kernels post to it; nothing else |
| InitPosts.OneStaysWhole | src/runtime/block.rs:142-158 | a flowgraph of one block never works in its own setup, whatever its `init` posts |
| InitPosts.EnoughBlocks | src/runtime/block.rs:142-158 | with two blocks or more, for any poster and receiver, there is an execution in which a post of `init`, delivered while `init` still runs, makes a block work while another is in its setup |
| InitPosts.InitPostBreaksTheBarrierIff | src/runtime/block.rs:142-158 | posts from i to j in the init of i can break the barrier exactly if there is more than one block |
| Shutdown.MoveCosts | src/runtime/runtime.rs:459-592 | after the broadcast every move lowers a measure of the flowgraph but for what it adds from outside or by posting |
| Shutdown.TerminatedIsBounded | src/runtime/runtime.rs:459-592 | after the broadcast an execution is no longer than the measure of its first state and of the messages added on the way |
| Shutdown.HungMeansQueued | src/runtime/runtime.rs:494-562 | if the coordinator waits for the reply of a block that is over, the request lies in that block's inbox |
| Shutdown.HungNeverReturns | src/runtime/runtime.rs:494-562 | in that state no execution, whatever it does, makes `run_flowgraph` return |
| Shutdown.AskingAfterTheEndHangs | src/runtime/runtime.rs:494-562 | taking a callback or description for a block that is over leads there, in every state of the main loop |
| Shutdown.StuckWhen | src/runtime/runtime.rs:459-592 | where nothing can move after the broadcast, `run_flowgraph` has returned exactly if it does not wait for a block that is over, and with Ok exactly if every block is done |
| Shutdown.DescriptionBehindTheEnd | src/runtime/runtime.rs:524-545 | an execution from the start into the hang: the description of a block is asked for behind Terminate, and taken when the block is done |
| Shutdown.TerminatedFlowgraphReturnsIff | src/runtime/runtime.rs:459-592 | bound and equivalence for every execution from the start, whatever kernels post and callers ask |
| Shutdown.TerminatedFlowgraphReturns | src/runtime/runtime.rs:459-592 | if no callback or description is left in the channel at the broadcast and none is asked for after it, an execution that cannot go on has returned |
| StreamTags.Reader.Consume | src/runtime/mocker.rs:239-246 | n items are dropped with their tags, and the other tags stay on their items |
| StreamTags.Retain | src/runtime/mocker.rs:241 | exactly the tags at n and later are kept, in order |
| StreamTags.Shift | src/runtime/mocker.rs:243-245 | each tag moves down by n, and nothing else of it changes |
| StreamTags.RetainShift | src/runtime/mocker.rs:239-246 | the two loops together rebase the tags |
| StreamTags.RebasedTwice | src/runtime/mocker.rs:239-246 | consuming m and then n is consuming m + n |
| StreamTags.RebasedPlaced | src/runtime/mocker.rs:239-246 | tags of a chunk that arrives later keep their place whatever has been consumed before |
| BurstPad.Claim | src/blocks/burst_pad.rs:237-275 | the search finds a burst_start not behind the position, or there is none |
| BurstPad.ClaimByName | src/blocks/burst_pad.rs:237-275 | it is the first tag from the position on that has the name burst_start and a length, and there is none only if no tag is such |
| BurstPad.ClaimRebased | src/blocks/burst_pad.rs:237-275 | searching the tags of the unread input finds what searching all tags from the absolute position finds |
| BurstPad.ClaimIsNext | src/blocks/burst_pad.rs:237-275 | no burst starts before the one the search found |
| BurstPad.NotBefore | src/blocks/burst_pad.rs:237-275 | among sorted tags the search returns the lowest index |
| BurstPad.ClaimKeeps | src/blocks/burst_pad.rs:237-275 | claiming the next segment keeps the account of output against claimed segments |
| BurstPad.CopyKeeps | src/blocks/burst_pad.rs:155-185 | so does copying any number of samples that fit |
| BurstPad.PadHeadKeeps | src/blocks/burst_pad.rs:186-216 | so does writing any part of the head padding |
| BurstPad.PadTailKeeps | src/blocks/burst_pad.rs:217-232 | so does writing any part of the tail padding |
| BurstPad.UntaggedKeeps | src/blocks/burst_pad.rs:233-236 | so does turning to an untagged run |
| BurstPad.EveryRun | src/blocks/burst_pad.rs:139-294 | whatever arrives when and wherever calls stop, output and tags are those of the claimed segments |
| BurstPad.OneTagPerBurst | src/blocks/burst_pad.rs:161-167 | between segments: head, data, tail for each segment, and one tag for each burst, at its first sample, with the padded length |
| BurstPad.BurstIsPadded | src/blocks/burst_pad.rs:155-232 | each claimed burst is in the output between its head and tail padding, under a tag with the length of all three |
| BurstPad.CurrentIsIdeal | src/blocks/burst_pad.rs:155-232 | the segment in progress is a start of what the documented stream has there |
| BurstPad.IdealOfDone | src/blocks/burst_pad.rs:173-175 | completed segments and the documented stream differ by exactly the padding after untagged runs |
| BurstPad.OutputIsDocumented | src/blocks/burst_pad.rs:127-293 | if the tail padding is 0 or bursts tile the stream, the output is a prefix of the documented stream in every run, and all of it but the tail still owed when the input is used up |
| BurstPad.DocumentedWhen | src/blocks/burst_pad.rs:173-175 | with the input used up, output and tail still owed are the documented stream exactly if the tail padding is 0 or bursts tile the stream, told from the tags alone |
| BurstPad.TilesAreBursts | src/blocks/burst_pad.rs:237-275 | where bursts tile the stream, no untagged run is claimed, in whatever chunks it comes |
| BurstPad.BurstsAreTiles | src/blocks/burst_pad.rs:237-275 | where only bursts were claimed, they tile the stream |
| BurstPad.BlockedWhen | src/blocks/burst_pad.rs:153-278 | blocked with room left, the block has input unread exactly if a walk along the tags meets a burst of length 0, and then it is in the copy state with 0 left |
| BurstPad.GapsDependOnTheCalls | src/blocks/burst_pad.rs:233-236 | two runs on the same stream with different outputs |
| BurstPad.ZeroLengthBurstSticks | src/blocks/burst_pad.rs:156-184 | once in a burst of length 0 nothing is output again |
| BurstPad.ZeroLengthBurstIsReached | src/blocks/burst_pad.rs:237-275 | a run from the start into a burst of length 0 |
| BurstPad.BurstPad.DoCopy | src/blocks/burst_pad.rs:155-185 | the copy branch is one move of the step system, or cannot move |
| BurstPad.BurstPad.DoPadHead | src/blocks/burst_pad.rs:186-216 | the head branch is one move, or cannot move |
| BurstPad.BurstPad.DoPadTail | src/blocks/burst_pad.rs:217-232 | the tail branch is one move, or cannot move |
| BurstPad.BurstPad.DoUntagged | src/blocks/burst_pad.rs:233-236 | the untagged branch is one move |
| BurstPad.BurstPad.DoClaim | src/blocks/burst_pad.rs:237-275 | the claim branch is one move and lowers the rank of the state |
| BurstPad.BurstPad.Turn | src/blocks/burst_pad.rs:153-278 | a turn moves samples or lowers the rank; it breaks out only when the state cannot move |
| BurstPad.BurstPad.Loop | src/blocks/burst_pad.rs:153-278 | the loop ends, performs a run of the step system, and stops only when blocked |
| BurstPad.BurstPad.Conclude | src/blocks/burst_pad.rs:280-291 | consume, produce, and finish exactly when ended input has been used up |
| BurstPad.BurstPad.Work | src/blocks/burst_pad.rs:139-294 | one call extends the run, only adds output, and goes on until blocked; with room left over all input is read exactly if no burst of length 0 is met; where the documented stream is due, a finished block has output it exactly if the room was enough for the rest of it |
| BurstPad.TailIsCutOff | src/blocks/burst_pad.rs:289-291 | a burst of one sample with one tail pad and room for the sample only: the block finishes and the pad is missing |
| ApplyIntoIter.FlatConcat | src/blocks/applyintoiter.rs:62-106 | flattening is the same in one piece or in two with the closure's state carried over |
| ApplyIntoIter.TagAtIsFirst | src/blocks/applyintoiter.rs:84-91 | the tag found is the first with the index of the sample, and there is none only if no tag has it |
| ApplyIntoIter.TagBeginsItems | src/blocks/applyintoiter.rs:84-91 | the tag found for a sample is in the output, where the items of the sample begin |
| ApplyIntoIter.TagOfSample | src/blocks/applyintoiter.rs:84-91 | every tag of the output is one of these |
| ApplyIntoIter.TagAtRebased | src/blocks/applyintoiter.rs:84-91 | looking a tag up in the rebased list is looking it up at the absolute position |
| ApplyIntoIter.EmitKeeps | src/blocks/applyintoiter.rs:79-82 | taking one item from the carried iterator keeps the account of the stream |
| ApplyIntoIter.TakeKeeps | src/blocks/applyintoiter.rs:84-91 | so does taking the next sample, with its tag at its first item |
| ApplyIntoIter.ApplyIntoIter.Loop | src/blocks/applyintoiter.rs:77-97 | the loop fills the room, or uses up input and iterator |
| ApplyIntoIter.ApplyIntoIter.Take | src/blocks/applyintoiter.rs:84-91 | the branch takes one sample and places its tag |
| ApplyIntoIter.ApplyIntoIter.Release | src/blocks/applyintoiter.rs:99-100 | consume and produce, tags rebased with the input |
| ApplyIntoIter.ApplyIntoIter.Work | src/blocks/applyintoiter.rs:62-106 | output only grows; room is left only when nothing is pending; the finish condition exactly |
| ApplyIntoIter.ApplyIntoIter.OutputIsFlat | src/blocks/applyintoiter.rs:62-106 | in every reachable state the output is a prefix of the flattened stream, and on finish all of it with all tags in place |
| Delay.ApplyKeepsSkew | src/blocks/delay.rs:65-165 | every action keeps produced minus consumed plus pending equal to the delay asked for |
| Delay.SkewIsKept | src/blocks/delay.rs:65-165 | that equation after every interleaving of calls and changes: initial delay plus all changes |
| Delay.PaddingKeeps | src/blocks/delay.rs:123-137 | an unchanged delay by padding keeps output as padding followed by the input read |
| Delay.DroppingKeeps | src/blocks/delay.rs:138-151 | an unchanged delay by dropping keeps output as the input read without its start |
| Delay.OutputIsDelayed | src/blocks/delay.rs:111-165 | without changes the output is a prefix of the delayed stream, and when copying it is all of it exactly if all input was read |
| Delay.Delay.constructor | src/blocks/delay.rs:52-63 | a positive delay starts with padding, any other with dropping, 0 with nothing to drop |
| Delay.Delay.NewValue | src/blocks/delay.rs:65-102 | a map with both keys is one change by the signed value, without one of them the handler panics, anything else changes nothing |
| Delay.Delay.WorkPad | src/blocks/delay.rs:123-137 | pads as much as fits, asks to be called again exactly when done, and can finish with input unread |
| Delay.Delay.WorkSkip | src/blocks/delay.rs:138-151 | drops as much as is there, asks to be called again exactly when done, and finishes only with all of it read |
| Delay.Delay.WorkCopy | src/blocks/delay.rs:152-162 | copies as much as fits, and finishes only with all of it read |
| Delay.Delay.Work | src/blocks/delay.rs:111-165 | one call moves as much as state, input and room allow; when it finishes and when it asks to be called again, for each state; and an unchanged block that finishes has output the whole delayed stream exactly unless it was padding with input unread |
| Delay.PaddingLosesInput | src/blocks/delay.rs:128-133 | a block with delay 1 and one sample in a closed input finishes without that sample |
| Connect.ParseConnectionsLoop | crates/macros/src/lib.rs:284-287 | the parser's loop accepts and builds what the recursive grammar does, with the same failures |
| Connect.SourceRoundTrip | crates/macros/src/lib.rs:325-342 | a printed source is read back, leaving what follows |
| Connect.EndpointRoundTrip | crates/macros/src/lib.rs:351-388 | so is every endpoint that has an input port if it has an output port |
| Connect.ConnectionsRoundTrip | crates/macros/src/lib.rs:279-294 | so is every chain of links |
| Connect.StringsRoundTrip | crates/macros/src/lib.rs:263-271 | so is every list of chains, with or without a last semicolon |
| Connect.InputRoundTrip | crates/macros/src/lib.rs:263-408 | parsing inverts printing for every well-formed connection list |
| Connect.EndpointIsPrinted | crates/macros/src/lib.rs:351-388 | whatever is accepted as an endpoint is the printed form of the endpoint read, which is well-formed |
| Connect.ConnectionsArePrinted | crates/macros/src/lib.rs:279-294 | the same for chains |
| Connect.AcceptedIffPrinted | crates/macros/src/lib.rs:263-408 | the macro accepts exactly the printed forms of well-formed connection lists |
| Connect.Spelling | crates/macros/src/lib.rs:303-408 | `>` is a stream, a bar a message, `<` a circuit; the port in front of a block is its input and the one behind it its output, each with its index |
| Connect.SortFits | crates/macros/src/lib.rs:191 | sorting keeps the names |
| Connect.DedupFits | crates/macros/src/lib.rs:192 | on a sorted list, dropping equal neighbours leaves each name once |
| Connect.BeforeIsLexicographic | crates/macros/src/lib.rs:191 | the order of names is that of a dictionary |
| Connect.MentionedIff | crates/macros/src/lib.rs:82-93 | the blocks mentioned are the sources of chains and the blocks of endpoints |
| Connect.CompileString | crates/macros/src/lib.rs:86-188 | a chain gives one edge for each link, in order: of the link's kind, from the block before it to the block behind it, at the ports and indices written or the defaults of the kind, without an index in a message; its blocks are collected |
| Connect.Compile | crates/macros/src/lib.rs:77-248 | all those edges, those of a chain behind those of the chains before it, and each mentioned block declared exactly once, in the order of names |
| Connect.SameEdgesIff | crates/macros/src/lib.rs:86-188 | two chains compile to the same edges exactly if link by link they agree in kind and blocks, and in ports up to a written default and an index on a message link |
| Connect.EdgesAreInjective | crates/macros/src/lib.rs:86-188 | chains without those two and without an output on the last endpoint have the same edges only if they are the same |
| Connect.DifferentChainsOneEdge | crates/macros/src/lib.rs:165-183 | both differences do occur |

## Left out

- AdsbCrc.CheckCrc: packets shorter than 24 bits, on which the original underflows and panics.
- AdsbCrc.Decoder.In: reading the packet from a message, the frame decoder behind it, and sending on.
- LoraCrc.Decode: frames too short for header and check, on which slicing panics, and payloads longer than the whitening sequence.
- LoraCrc.FrameNibbles: the computation of the five header nibbles, Hamming coding, interleaving and Gray mapping.
- Fft.FftInplace: one row of one batch, exact ring arithmetic instead of rounded floats; the power spectrum and shift behind it.
- FirKernels.PolyphaseKernel: machine-integer overflow of `k * decim` and of the counts; the same holds for all kernels.
- KernelAlgebra.PolyphaseIsStuffedConvolution: floating-point rounding.
- FirBlock.Fir.Work: the window design of `FirBuilder` and the tap accessors; the SIMD forms of the kernels.
- Iir.Block.Work: does not claim the block finishes, because with more than one forward tap it does not.
- Pipeline.MoveKeeps: the coordinator's counting behind its Notify, which `Runtime` models for blocks of any kind.
- Pipeline.EveryExecution: the one post of a stage leaves in the step in which its handler ends; in `Runtime` posts are steps of their own.
- Runtime.EveryExecution: the end of a block and its report to the coordinator are one step.
- PipelineRuns.EveryExecutionEndsWell: bounded channels, where a full inbox makes the sender wait; inboxes here are unbounded.
- BlockLoop.TerminateStopsTheBlock: a kernel that never returns from a handler or from work; for messages that keep coming see `BlockLoop.BusyInboxIsNotStopped`.
- Coordinator.ResultIsRight: failing sends on the coordinator's own channel, which end the original with an error.
- Coordinator.Flowgraph.Dispatch: what a reply says, and its way back to the caller.
- Shutdown.TerminatedFlowgraphReturnsIff: executions to which messages are added without end; inboxes of limited size, where a send to a block that is over can wait as well.
- Actor.WrappedKernel.Pass: messages that arrive inside a pass; those interleavings are in the step system.
- MessageIo.MessageOutput.NotifyFinished: logging of inboxes that have closed.
- Delay.Delay.NewValue: conversion of message payload types; the sign and key handling is modelled.
- ApplyIntoIter.ApplyIntoIter.Work: infinite iterators and iterators with side effects; a sample's items are a finite sequence.
- Connect.Compile: the token text of the generated code; an edge holds what the generated call would be given.
- The circular, slab and circuit buffers: the reader and writer contract of `src/runtime/mocker.rs` stands in for them.
- Schedulers, executors, wakers, timers and thread placement: every interleaving of steps is allowed instead.
- The control port, websocket, network and file blocks, GUI, logging and configuration.
- Conversions between message payload types, display tables and the code generation of `derive(Block)`.
- One-branch blocks such as Copy, Head and NullSource: their work is one copy or one count, with nothing carried from call to call.
