# wxDAQ console: sample buffers, acquisition loops, bit decode and output mask

wxDAQ is a wxPython console for an NI cDAQ chassis. Its frame class
`DAQConsoleFrame` keeps four analog sample lanes with one shared timestamp
lane and one digital sample lane with its own timestamp lane. Two threads fill
them. The analog loop reads four voltages per iteration and the digital loop
reads one port byte. After each append, every lane is cut back to
`xs[-sample_depth:]`. A plot timer draws the analog lanes. It also draws bits
0 to 3 of every port byte as a trace offset by the bit index. A group of four
radio pairs sets a 4-bit pattern that is written once to a digital output
port.

This project models that data logic in Dafny:

- `SampleSeries` models Python's `s[-d:]` for every integer `d`, the
  append-then-evict step of one iteration, and `Fill`, the series a loop holds
  after a run of appends to a cleared series. It proves the FIFO property:
  with a positive depth, a series holds exactly the newest `min(n, d)` of the
  `n` samples, oldest first. It also proves what depth 0 and negative depths
  do, and that parallel lanes stay equally long.
- `Daq.Task` stands for the driver task. The hardware decides whether a
  channel name is accepted, so that decision is an input. The task records
  every name it was asked to add, the names it accepted, and every value
  written to it.
- `Console.DaqConsoleFrame` is the frame's state: the five analog and two
  digital series, the sample depth, the timestamp origin, the status text and
  the shared "a channel failed" flag. Its methods are the run toggle, the two
  acquisition loops (configuration, clearing and sampling), the plot hand-off,
  and the radio selection handler. `DecodeBits` and `RadioBitValues` are the
  loops that compute the digital traces and the output pattern.
- `Scenarios` replays small runs against the contracts:
  - `DepthThreeEviction`, `FourReadsAtDepthThree` and `FirstLaneAtDepthThree`
    show that at depth 3 a fourth read evicts the first. The timestamp lane
    and the value lanes both evict.
  - `AnalogRunOfFourReads` runs that case through the frame. A second run
    whose task fails to start keeps the first run's buffers.
  - In `AnalogRunWithRejectedChannel`, a rejected channel leaves the buffers
    untouched and is named in the status.
  - `DigitalDecode` checks a bit decode.
  - `DigitalOutputPattern` checks that the pattern 0b0101 is written once.
    Nothing is written when the channel is rejected or the task fails to
    start.

The hardware is an oracle. A loop gets the list of accept/reject answers for
its channels, whether `task.start()` succeeds, and the finite sequence of reads it performs before the run flag
clears. Each read carries the wall-clock millisecond value the loop takes
right after it. A read that raises does so before anything is appended, so it
leaves the buffers exactly as a loop that ended there.

The sample depth is taken as typed. Python's slice rule is modelled for every
integer. Depth 0 never evicts, so a series keeps every sample of the run. A
negative depth `-m` drops the first `m` entries, so a cleared series stays
empty. The code at wxDAQ.py:284 does not check the depth, so 0 and negative
depths are accepted. The model follows the code.

## Model

| member | source | states |
|---|---|---|
| SampleSeries.PySuffix | wxDAQ.py:342-344 | `xs[-d:]` keeps the newest `min(len, d)` entries for `d > 0`, the whole list for `d == 0`, and drops the first `-d` entries for `d < 0` |
| SampleSeries.AppendEvict | wxDAQ.py:341-344 | one append plus truncation: for a positive depth the newest sample is last and the length is at most `d`; below the cap the series just grows; at the cap the oldest entry is evicted; depth 0 never evicts; a negative depth drops the oldest `-d` entries |
| SampleSeries.Fill | wxDAQ.py:337-352 | the series after a run of appends to a cleared series is never longer than the number of reads and, for a positive depth, has length `min(reads, depth)` |
| SampleSeries.FillSnoc | wxDAQ.py:337-344 | one more read adds exactly one append-evict step to the run's series |
| SampleSeries.FillKeepsNewest | wxDAQ.py:337-352 | with a positive depth a series holds exactly the last `min(n, d)` samples of the run, in read order: FIFO eviction |
| SampleSeries.AppendToNewest | wxDAQ.py:341-344 | appending a sample to the newest entries of the earlier samples gives the newest entries of all of them |
| SampleSeries.FillDepthZeroKeepsAll | wxDAQ.py:342-344 | with depth 0 a series keeps every sample of the run (no bound) |
| SampleSeries.FillNegativeDepthKeepsNone | wxDAQ.py:342-344 | with a negative depth a cleared series stays empty |
| SampleSeries.FillLengthsAgree | wxDAQ.py:340-352 | series fed the same number of samples have the same length, whatever the depth |
| SampleSeries.AppendEvictLengthsAgree | wxDAQ.py:340-352 | equal lengths before an iteration give equal lengths after it |
| Daq.Task.constructor | wxDAQ.py:310 | `nidaqmx.Task()` gives a task with no channels attempted or accepted and nothing written |
| Daq.Task.AddChan | wxDAQ.py:315 | adding a channel is recorded as attempted; the channel is kept exactly when the driver accepts it, and nothing is written |
| Daq.Task.Write | wxDAQ.py:419 | a write appends exactly that value to what the task has written |
| Console.NotAvailable | wxDAQ.py:320-321 | the rejection status is the channel name followed by the 15 characters of " not available." |
| Console.NotAvailableNamesOne | wxDAQ.py:320-321 | two rejection messages are equal only for the same channel name, so the status identifies the rejected channel |
| Console.LaneStep | wxDAQ.py:340-344 | the lane of one analog channel after `k + 1` reads is the lane after `k` reads with one append-evict step |
| Console.AnalogTimesStep | wxDAQ.py:347-352 | the same for the analog timestamps, each the read's clock minus the run's origin |
| Console.PortsStep | wxDAQ.py:383-384 | the same for the digital samples |
| Console.DigitalTimesStep | wxDAQ.py:387-392 | the same for the digital timestamps |
| Console.AnalogStep | wxDAQ.py:340-352 | one analog iteration takes four lanes and a timestamp lane that hold the run so far to ones that hold the run including the new read |
| Console.AnalogLengthsAgree | wxDAQ.py:340-352 | after any run the four lanes and the timestamp lane are equally long, whatever the depth |
| Console.DecodeBits | wxDAQ.py:223-229 | four traces, each with one point per sample; point `k` of trace `i` is `i + 0.5` when bit `i` of sample `k` is set and `i` otherwise |
| Console.RadioBitValues | wxDAQ.py:399-406 | bit `i` of the pattern is set exactly when the second button of pair `i` is selected, and the pattern is below 16 |
| Console.LowBitsDetermine | wxDAQ.py:399-406 | two patterns below 16 that agree on bits 0 to 3 are equal, so the pattern is fixed by the selection |
| Console.DaqConsoleFrame.constructor | wxDAQ.py:36-40 | all series start empty, with four analog lanes |
| Console.DaqConsoleFrame.OnRunStopToggle | wxDAQ.py:272-286 | pressing Run resets the status to "." and takes the depth unchecked, with the current clock as the origin; releasing changes none of this |
| Console.DaqConsoleFrame.AddAiVoltageChan | wxDAQ.py:313-322 | a rejected channel sets the failure flag and puts "<name> not available." in the status; an accepted one changes neither |
| Console.DaqConsoleFrame.AddAiVoltageChans | wxDAQ.py:311-327 | all four channels are offered, in order, even after a rejection; the flag is set exactly when one was rejected, and then the status names the last rejected channel |
| Console.DaqConsoleFrame.AnalogDataCollectionLoop | wxDAQ.py:308-361 | on a rejection, or when `task.start()` raises, the previous analog buffers are unchanged; otherwise each lane and the timestamps are exactly the run's reads filled at the depth, all five equally long; the digital buffers are untouched |
| Console.DaqConsoleFrame.AcquireAnalog | wxDAQ.py:334-352 | the buffers are cleared and the sampling loop leaves each lane equal to that channel's reads of this run filled at the depth, and the timestamps likewise, all equally long |
| Console.DaqConsoleFrame.AppendAnalogRead | wxDAQ.py:340-352 | one iteration appends exactly one value to each of the four lanes and one timestamp, each cut back to the depth |
| Console.DaqConsoleFrame.DigitalDataCollectionLoop | wxDAQ.py:363-396 | a rejected port is named in the status; it, or a `task.start()` that raises, leaves the previous digital buffers unchanged; otherwise the samples and timestamps are the run's reads filled at the depth; the analog state is untouched |
| Console.DaqConsoleFrame.AcquireDigital | wxDAQ.py:377-392 | the buffers are cleared and the sampling loop leaves the samples and the timestamps equal to this run's reads filled at the depth, equally long |
| Console.DaqConsoleFrame.UpdatePlot | wxDAQ.py:210-233 | each analog lane is plotted against the analog timestamps with equal lengths; each decoded bit trace is index-aligned with the digital timestamps |
| Console.DaqConsoleFrame.OnRadioSelect | wxDAQ.py:398-421 | the pattern is written exactly once when the output channel is accepted and the task starts, and never otherwise; the status is "." or names the rejected channel |
| Scenarios.DepthThreeEviction | wxDAQ.py:340-352 | at depth 3, samples taken at 0, 10 and 20 ms are all kept, and a fourth at 30 ms evicts the first |
| Scenarios.FirstLaneAtDepthThree | wxDAQ.py:340-344 | at depth 3, the first channel's lane after four reads holds the last three voltages |

## Left out

- GUI construction, layout, status-bar colours, the toggle button as a widget, and the gauge `int(data[0]) + 10` (wxDAQ.py:45-205, 357). The gauge is a float truncation of a voltage.
- Parsing the depth text with `int(...)` (wxDAQ.py:284). The depth is an integer input, and a text that does not parse is not modelled.
- Threads, `time.sleep`, the 100 ms grace period and `on_close` (wxDAQ.py:288-300, 359, 394, 420, 423-431). Each loop runs as one sequential call. So the model does not capture `update_plot` seeing a lane mid-iteration, nor which loop's message wins the status when both fail.
- The run flag is not a variable. A loop runs over the finite sequence of reads it performs before the flag clears.
- Console.DaqConsoleFrame.OnRunStopToggle: releasing the button only stops the plot timer and resets colours, so the model states that nothing it tracks changes. Idempotent stop and a tri-state run state do not exist in the code.
- `task.start()` is modelled only through whether it raises (the `startOk` input of the two loops and of `OnRadioSelect`). When it raises, nothing is cleared or written. `task.stop()` (wxDAQ.py:361, 396, 421) is not modelled because it changes no console state. A read that raises ends the thread without `task.stop()`, and the buffers are the same as after a loop that ended there.
- Wall-clock timestamps are inputs (each read's clock value minus the origin). Nothing makes them monotonic.
- Device listing and clipboard copy (wxDAQ.py:235-270), which are driver and GUI calls.
- matplotlib drawing, axis limits and the animation timer (wxDAQ.py:203-233). Only the values handed to `plot` are modelled.
- The digital input value is modelled as one port byte (`bv8`). The decode only looks at bits 0 to 3, so wider port words decode the same way.
