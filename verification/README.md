# Proofs about the SDHCI driver and its port layer

This project models the SD host controller driver in `sdhci.c`, the scatter-gather and DMA
port layer in `port/`, and the tuning and descriptor hooks of the CV181x platform, and proves
what they promise. It has three parts.

**Request life cycle.** `request_model.dfy` has one function per routine that runs with
`host->lock` held, from one driver state to the next. `Apply` turns them into the atomic steps
of a transition system: submission (plain and atomic), one turn of the send-retry loop of the
submitting caller and of the interrupt thread, the interrupt handler with any number of status
readings, both timers, the completion worker, the interrupt thread, card removal and controller
death. Two steps are separated exactly where the driver drops its lock, which includes the
unlocked `dma_unmap_sg` call this port adds. `request_invariant.dfy` gives the inductive
invariant and proves that every step keeps it; `request_frames.dfy` says what each routine
leaves alone. What an event does to the request it is about is said independently of the routines:
`request_status.dfy` for the readings of the interrupt status, `request_errors.dfy` for where errors
come from and when commands may be written, `request_retries.dfy` for submission and retrying,
`request_failures.dfy` for timers and removal. `request_theorems.dfy`, `request_progress.dfy` and
`request_timers.dfy` draw the conclusions over whole runs; `request_limits.dfy` exhibits three
reachable states where a guarantee stops, and `request_stalls.dfy` a fourth one together with
everything that can happen from there.
`sdhci_host.dfy` is the driver's own imperative code, a class whose fields are those of
`struct sdhci_host`: every method is proved to do exactly what the function of the same name
does, and `Perform` that any step taken from a state satisfying the invariant leads to another.

**Scatter-gather to ADMA2.** `memory.dfy` is byte memory; `scatter_gather.dfy` the tiling,
bouncing, mapping and copy-back of the port layer, as loops over an array of entries, and which
cache lines they own; `caches.dfy` a data cache and what the operations of the mapping do with it;
`adma_table.dfy` the descriptor table and an interpreter for it after
section 1.13 of the SD Host Controller Simplified Specification v3.00; `align_buffer.dfy` the
odd head bytes; `adma_host.dfy` the code that builds the table and copies the heads;
`read_pipeline.dfy` and `write_pipeline.dfy` put everything together, and `request_buffers.dfy`
connects the replacement buffers with the life of the request they were taken for.

**Kernels.** `clock.dfy` (divisor search, preset values and Clock Control encoding, section 2.2.14),
`data_timeout.dfy` (timeout counter, section 2.2.15), `pio.dfy` (packing bytes into words and
back), `tuning.dfy` (tap probing and window search of the CV181x).

## Assumptions about the environment

- A second request is submitted beside a first only if the first is a `cap_cmd_during_tfr` data
  request whose command has been answered and the second is a lone command without data or busy
  signalling (`Admissible`). CMD23 and a stop command come only with data (`WellFormed`), and no
  request is submitted twice.
- While one drainer is inside its unlocked window, the other one does not drain (`Enabled`).
  `SecondDrainer` says exactly what happens otherwise and `SecondDrainerReachable` that it can.
- The inhibit bits, the interrupt status, card presence and the moment a timer fires are
  arbitrary. `SDHCI_QUIRK_NO_CARD_NO_RESET` is off; `SDHCI_QUIRK2_STOP_WITH_TC` is folded into
  the request (`stopBusy`).
- The allocator returns aligned buffers that overlap neither the caller's buffer nor each other
  (`Honest`); `virt_to_phys` keeps page offsets, is injective, and is contiguous over one entry
  (`Translates`, `Reachable`).

## Properties that fail, and when

- *Unmapped once.* Without the single-drainer assumption a request is unmapped twice exactly when
  a drainer picks it up while another is unmapping it (`SecondDrainer`, `SecondDrainerReachable`).
- *Everything prepared is unmapped and freed.* Unmapping happens once if and only if the data
  command went out by DMA (`MappingsBalance`), and a returned read has freed its replacement
  buffers if and only if it did or had none (`BuffersFreed`); a rejected one keeps them
  (`RejectedNeverUnmapped`, `RejectedLeaks`).
- *The data timer covers its request.* It acts unless the request hangs in CMD23 or in a stop
  command without busy signalling (`DataTimerCovers`). Then no timer is left, and nothing but an
  interrupt, a card change or removal moves the request again (`ExpiryStalls`), and this state is
  reached in two steps (`LostCountReachable`).
- *An error read for a command is recorded.* It is unless the same reading reports an Auto CMD error
  while a data command without CMD23 is on the data line and Auto CMD12 is configured
  (`CommandErrorRecorded`); then an error of another request's command is recorded nowhere
  (`CommandErrorMissed`). A run of three steps leads to where such a reading, which asks for a stray
  Auto CMD status, is missed (`MissedReachable`). An error of data is recorded if and only if it is
  not a CRC error of a bus test, the reading does not end a tuning block, and the command half has
  not ended the request or its transfer first (`DataErrorRecorded`).
- *The table means the entries.* It does if and only if no entry ends before its first multiple
  of four (`MeaningIffNoneShort`, `OneByteTooMany`); for writes of the port that is a condition on
  buffer address and length, which one byte at 0x1001 does not meet (`WriteEndToEnd`, `OddWrite`).
- *Reads own their cache lines.* README.md:62-68 of the repository promises it for every
  unaligned buffer; the operations performed lose no foreign byte if and only if the buffer starts
  off a line, consists of whole lines, or leaves less than a line for its last entry
  (`BufferOwnership`); 100 bytes at
  0x1000 do none of it (`AlignedHundred`).
- *The card gets the clock that is reported.* With preset values it always does; without them, if
  and only if the search did not end at 1025 and the zero-divider quirk did not halve a clock above 0
  (`SetClock`, `ControllerAgrees`, `UndividedClock`, `HalvedClock`).
- *The least timeout count is found.* It is if and only if the first count whose doubled timeout
  covers the computed target in 32 bits is the first whose true timeout covers the true target.
  Where the target fits into 32 bits and its rounding does not wrap, that is if and only if the
  doubling that reaches it fits as well, which it does for targets up to 2^31 microseconds and for
  timeout clocks from 32 kHz. Wherever it fits for the computed target, hence for all such clocks,
  the count is right if and only if the computed target needs the same count as the true one
  (`CalcTimeout`, `ComputedIsTarget`, `SafeTargets`, `SafeClocks`). `LostCommand`,
  `WrappedCommand` and `WrappedRounding` get wrong counts; `LuckyCommand` overflows in the target
  and in the doubling, and gets the right one all the same.

## Model

| member | source | states |
|---|---|---|
| RequestTheorems.Conservation | sdhci.c:1440-1562 | over every run, an accepted request is in exactly one place (bus, deferred, asleep with its caller, one done slot) or returned, exactly once, and finished once |
| RequestInvariant.StepKeeps | sdhci.c:1569-1785 | every step, nested sends and the unlocked window included, keeps the whole invariant |
| RequestInvariant.RunKeeps | sdhci.c:2103-2165 | the invariant holds in every state of every run |
| RequestTheorems.NoWarnings | sdhci.c:1440-1459 | no WARN_ON of sending, data initialisation, deferring or the done slots ever fires; two slots suffice |
| RequestTheorems.Structure | sdhci.c:1493-1562 | data is owned by data_cmd, a data command on the command line owns the data line, a deferred command leaves the bus empty, the retrying thread holds the deferred command |
| RequestTheorems.Persistence | sdhci.c:1461-1484 | no accepted request is forgotten and none is returned twice later |
| RequestTheorems.Rendezvous | sdhci.c:1760-1784 | a request finished without error has had its response and its transfer or busy end, in either order, and its CMD23 and stop responses |
| RequestTheorems.OneTerminator | sdhci.c:1332-1429 | a successful multi-block transfer with a stop command is ended by exactly one of manual CMD23, auto CMD23, auto CMD12, software CMD12 |
| RequestTheorems.AutoCommands | sdhci.c:1332-1388 | a successful request was written with exactly the automatic command, CMD23 and stop command that configuration and kind ask for; CMD53 and cap_cmd_during_tfr get no Auto CMD12 |
| RequestTheorems.DataErrorStops | sdhci.c:1532-1561 | after a data error CMD12 was issued or the stop command carries the error |
| RequestTheorems.ResetBeforeReturn | sdhci.c:3045-3070 | on a live controller an errored request is returned, by the drainers or the interrupt handler, only after both lines were reset together with neither cmd nor data_cmd set, at least once since it finished |
| RequestTheorems.FinishOwesReset | sdhci.c:1431-1484 | finishing a request on a live controller demands a reset exactly for an error of its command, CMD23 or CMD12, or for the quirk |
| RequestTheorems.DataErrorResets | sdhci.c:1500-1509 | a data error resets the data line, and the command line unless the command of another request is on it |
| RequestTheorems.DataEndResetsNothing | sdhci.c:1493-1510 | a transfer without data error resets neither line |
| RequestTheorems.DrainerWaitsForTheBus | sdhci.c:3045-3070 | the drainer resets a live controller exactly for a command, CMD23 or CMD12 error or the quirk, only with both lines idle, once, and leaves a request queued only while another one is on the bus |
| RequestTheorems.WindowHolds | sdhci.c:3014-3037 | no step of anybody else takes or replaces the slot whose request is being unmapped with the lock dropped |
| RequestTheorems.HandlerReturns | sdhci.c:3467-3493 | a done request goes back in the handler if and only if no reset is owed, deferring is not asked for and its buffers are not mapped; otherwise it stays and the thread is woken |
| RequestTheorems.MappingsBalance | sdhci.c:2979-3038 | a returned request was unmapped as often as mapped, once if and only if its data command went out by DMA |
| RequestTheorems.SecondDrainer | sdhci.c:2957-3038 | a drainer unmaps a request a second time if and only if the other drainer is in its window for it |
| RequestLimits.SecondDrainerReachable | sdhci.c:3082-3089 | a run after which worker and interrupt thread both drain and the request would be unmapped twice |
| RequestLimits.RejectedNeverUnmapped | sdhci.c:2117-2130 | a run in which a rejected data request is returned without ever being unmapped |
| RequestBuffers.BuffersFreed | port/l-mmc.c:311-326 | over every run, a returned read has freed exactly the buffers taken for it if and only if there were none or its data command went out by DMA, and otherwise nothing |
| RequestBuffers.RejectedLeaks | port/l-mmc.c:311-326 | a run and a buffer for which the replacement taken is never freed |
| RequestProgress.Watchdog | sdhci.c:440-455 | from its main command until it finishes or reaches its stop command a request has its timer armed, and the timer firing moves it on |
| RequestProgress.FinishingSparesTimer | sdhci.c:449-455 | finishing one of two outstanding requests leaves the timer of the other as it is |
| RequestProgress.DataTimerCovers | sdhci.c:3112-3141 | the data timer acts on its request if and only if that is neither in CMD23 nor in a stop command without busy signalling |
| RequestStalls.ExpiryStalls | sdhci.c:3121-3122 | over every run, once the data timer has expired for a request in CMD23 or in a stop command without busy signalling, no timer runs and the request stays as it is until an interrupt, a card change or removal |
| RequestStalls.LostCountReachable | sdhci.c:3121-3122 | a run of two steps to such a state, with no work queued and nobody awake |
| RequestProgress.CmdTimerFinishes | sdhci.c:3091-3110 | the command timer finishes any request on the bus that uses no data line |
| RequestTimers.NoStaleTimer | sdhci.c:440-455 | over every run, a running timer watches for an accepted request that is not finished, so none runs on after the last one |
| RequestProgress.NoLostWakeUp | sdhci.c:3478-3499 | finished requests always have a drainer on its way or a busy bus, deferred commands the interrupt thread |
| RequestProgress.NothingForgotten | sdhci.c:3526-3555 | when the driver is at rest every request it ever accepted has been returned |
| RequestStatus.CommandErrorRecorded | sdhci.c:3180-3198 | from the invariant: timeout, CRC, end bit or index error read for the command on the line puts the error into its record and the command off the line, and finishes the request unless only the response CRC of a data command is wrong |
| RequestStatus.CommandErrorMissed | sdhci.c:3149-3164 | a command error read together with an Auto CMD12 error of another request is recorded nowhere |
| RequestLimits.MissedReachable | sdhci.c:3149-3164 | a run after which a reading with a wrong response CRC and an Auto CMD error leaves the record of the command unchanged |
| RequestStatus.Auto23ErrorRecorded | sdhci.c:3200-3213 | an Auto CMD23 error is charged to the CMD23 and finishes the request |
| RequestStatus.DataErrorRecorded | sdhci.c:3311-3335 | data.error holds after a reading if and only if a data timeout, end bit, ADMA or (outside a bus test) CRC error was read or charged to the data by the command half, and the data half got to see it; then the transfer is over and the stop command sent, deferred, or the request finished |
| RequestStatus.CommandErrorForGood | sdhci.c:3180-3198 | over every run a command with such a reading carries its error in every later state |
| RequestStatus.DataErrorForGood | sdhci.c:3311-3335 | over every run a request is free of errors only if none of its readings had a data error that the data half got to see |
| RequestStatus.CountAnswered | sdhci.c:1733-1785 | the answer to CMD23 sends the main command if the inhibit bits permit it, and defers it otherwise |
| RequestStatus.CommandAnswered | sdhci.c:1733-1785 | the answer to a command without data finishes its request, unless a busy phase is still to end and is reported |
| RequestStatus.DataCommandAnswered | sdhci.c:1733-1785 | the answer to a data command leaves the request with its data, or moves it on when the data has ended before |
| RequestStatus.DataEndRead | sdhci.c:3354-3371 | the end of a transfer is counted, kept for later before the response, and moves the request on after it |
| RequestStatus.BusyRead | sdhci.c:3267-3297 | a busy phase times out with an error, ends and is counted, or goes on unchanged |
| RequestErrors.ErrorsStay | sdhci.c:1569-1785 | over every run an error recorded for a request stays in its record |
| RequestErrors.NoErrorWithoutCause | sdhci.c:2957-3555 | a step without error reading, timer, removal or last refusal adds no error to any request |
| RequestErrors.CleanRun | sdhci.c:2103-3555 | over a run of such steps every request is free of errors |
| RequestErrors.WrittenWhenPermitted | sdhci.c:1576-1600 | a step writes a command only if a reading of the inhibit bits permitted it: CMD_INHIBIT clear, and DATA_INHIBIT clear for data and busy commands other than a stop command |
| RequestRetries.Submitted | sdhci.c:2103-2133 | a new request is given up without a card or on a dead controller, sent if the lines permit it, else waits with ten turns to come |
| RequestRetries.SubmittedAtomic | sdhci.c:2135-2165 | the same without sleeping: what cannot be sent leaves the state as it was |
| RequestRetries.CallerTakesTurn | sdhci.c:1672-1711 | a turn gives up without a card or on a dead controller, sends at the first free reading, gives up when no retry is left, and else uses up one |
| RequestRetries.TenRefusals | sdhci.c:1677-1686 | over every run a request refused at submission waits through nine refused turns and is failed and in a slot after the tenth, not before |
| RequestRetries.ThreadTakesTurn | sdhci.c:1672-1711 | the same turn for the command the interrupt thread has put off |
| RequestRetries.TenDeferrals | sdhci.c:1677-1686 | over every run the thread keeps a refused deferred command through nine refused turns and gives it up in the tenth |
| RequestFailures.CardStays | sdhci.c:2919-2929 | a card event with the card present changes nothing |
| RequestFailures.CardRemoved | sdhci.c:2904-2932 | removal leaves nothing on the bus; what was there is in a slot, not error-free, finished after one more reset of each line, the work queued; every other request is untouched |
| RequestFailures.ControllerDies | sdhci.c:4741-4758 | the same without a reset when a dead controller is removed |
| RequestFailures.CmdTimerSparesData | sdhci.c:3091-3110 | the command timer never touches a request that holds the data line |
| RequestFailures.DataTimerSparesLone | sdhci.c:3112-3141 | the data timer never touches a request without data or busy signalling |
| RequestFrames.StepFrames | sdhci.c:2957-3089 | steps forget no request, revive none, and move no drainer but their own |
| RequestFrames.IrqWakes | sdhci.c:3478-3501 | the handler wakes its thread whenever it leaves a done slot or a deferred command behind |
| SdhciHosts.SdhciHost.SetMrqDone | sdhci.c:1440-1459 | the two slot loops: a warning if the request is there or no slot is free, else the first free slot |
| SdhciHosts.SdhciHost.FinishMrq | sdhci.c:1461-1484 | clears every reference, records the reset demand, fills a slot, disarms the timer |
| SdhciHosts.SdhciHost.FinishMrqQueued | sdhci.c:1486-1491 | the same, with the completion work queued |
| SdhciHosts.SdhciHost.PrepareData | sdhci.c:1055-1120 | takes over the data, decides between DMA and PIO, counts the mapping |
| SdhciHosts.SdhciHost.SetTransferMode | sdhci.c:1351-1388 | the automatic command selected for a multi-block transfer |
| SdhciHosts.SdhciHost.SendCommand | sdhci.c:1569-1659 | refuses on an inhibit bit, else takes the lines and issues |
| SdhciHosts.SdhciHost.FinishData | sdhci.c:1493-1562 | releases the data, resets on error, sends, defers or fails the stop command, or finishes |
| SdhciHosts.SdhciHost.FinishCommand | sdhci.c:1733-1785 | waits for busy, sends the command behind CMD23, or completes data and request |
| SdhciHosts.SdhciHost.CmdIrq | sdhci.c:3149-3217 | the command half with its effect on the mask; `CommandErrorRecorded`, `Auto23ErrorRecorded` `CountAnswered`, `CommandAnswered` and `DataCommandAnswered` say what that means |
| SdhciHosts.SdhciHost.BusyIrq | sdhci.c:3267-3297 | the busy phase: timeout, end, end before the response |
| SdhciHosts.SdhciHost.DataIrq | sdhci.c:3251-3373 | the data half; `DataErrorRecorded`, `DataEndRead` and `BusyRead` say what that means |
| SdhciHosts.SdhciHost.ScanSlots | sdhci.c:3478-3493 | returns or defers what is done when the handler leaves |
| SdhciHosts.SdhciHost.Irq | sdhci.c:3385-3524 | all rounds, the scan, and the wake-up for a deferred command |
| SdhciHosts.SdhciHost.TimeoutTimer | sdhci.c:3091-3110 | fails the command on the bus unless it uses the data line |
| SdhciHosts.SdhciHost.TimeoutDataTimer | sdhci.c:3112-3141 | fails the data, the busy command, or the data-line command, in this order |
| SdhciHosts.SdhciHost.ErrorOutMrqs | sdhci.c:2891-2902 | finishes whatever is on the bus |
| SdhciHosts.SdhciHost.CardEvent | sdhci.c:2904-2932 | resets and errors out when the card is gone; see `CardRemoved`, `CardStays` |
| SdhciHosts.SdhciHost.RemoveDead | sdhci.c:4741-4758 | marks the controller dead and errors out |
| SdhciHosts.SdhciHost.Request | sdhci.c:2103-2133 | rejects, sends, or goes to sleep to retry |
| SdhciHosts.SdhciHost.RequestAtomic | sdhci.c:2135-2165 | rejects, sends, or leaves the request with its caller |
| SdhciHosts.SdhciHost.CallerWakes | sdhci.c:1672-1711 | one turn of the retry loop for the caller; see `CallerTakesTurn`, `TenRefusals` |
| SdhciHosts.SdhciHost.ThreadDefers | sdhci.c:3526-3546 | the interrupt thread takes up the deferred command |
| SdhciHosts.SdhciHost.ThreadWakes | sdhci.c:1672-1711 | one turn of the retry loop for the thread, the command may have disappeared |
| SdhciHosts.SdhciHost.RequestDone | sdhci.c:2957-3031 | finds the first done slot and returns it or enters the unlocked window |
| SdhciHosts.SdhciHost.RequestUnmapped | sdhci.c:3031-3080 | the rest once the lock is held again |
| SdhciHosts.SdhciHost.Perform | sdhci.c:2957-3141 | any step from a state with the invariant takes the step of the model and keeps the invariant |
| ScatterGather.InitTable | port/l-sg.c:50-54 | zeroes the entries and marks the last |
| ScatterGather.SgInit | port/l-mmc.c:251-272 | the list becomes the tiles of the buffer |
| ScatterGather.TilesCover | port/l-mmc.c:251-272 | at most eight tiles of 1 to 65536 bytes cover the buffer exactly, the last one marked |
| ScatterGather.BounceSg | port/l-mmc.c:202-249 | replaces every badly aligned or tiny entry, or fails exactly when the allocator does and frees what was taken, in order, once |
| ScatterGather.ReplacedAreTaken | port/l-mmc.c:236-245 | walking the flags of the list finds exactly the buffers taken |
| ScatterGather.DmaMapSg | port/l-dma.c:22-36 | assigns bus addresses and asks for the cache operations whose effect `MappedForWrite` and `MappedForRead` state |
| ScatterGather.DmaUnmapSg | port/l-dma.c:101-119 | copies replaced entries back and frees each replacement once |
| ScatterGather.EntryOwnership | port/l-mmc.c:219-233 | an entry owns the cache lines it invalidates if and only if it was replaced or is whole lines long |
| ScatterGather.AlignedHundred | port/l-mmc.c:219-233 | 100 bytes at a line boundary: nothing is replaced and the bytes behind are invalidated |
| Caches.MappedForWrite | port/l-dma.c:5-36 | after mapping for a write memory holds what the CPU has written at every covered address, and the CPU sees what it saw |
| Caches.MappedForRead | port/l-dma.c:5-36 | after mapping for a read the cache holds no byte of any entry, memory is unchanged, and nothing outside the touched lines is lost |
| Caches.BufferOwnership | port/l-dma.c:5-36 | mapping a buffer for a read loses no foreign byte, whatever the cache holds, if and only if the buffer starts off a line, is whole lines long or leaves less than a line for its last entry |
| AdmaTable.ClosedMeaning | sdhci.c:765-774 | both ways to end a table make the controller do all its transfers and stop |
| AdmaTable.StopsAtEnd | sdhci.c:765-774 | stale descriptors behind the end do not matter |
| AdmaTable.TableMeaning | sdhci.c:697-775 | the controller transfers exactly the bytes of the entries, in order, heads in the align buffer |
| AdmaTable.MeaningIffNoneShort | sdhci.c:732-756 | it does so if and only if no entry is shorter than its head; every short one adds at least 65536 bytes |
| AdmaTable.OneByteTooMany | sdhci.c:747-756 | one byte at an odd address becomes a transfer of 65537 |
| AdmaTable.StylesAgree | platform/cvitek/sdhci-cv181x.c:133-150 | the 128 MiB split refines the plain writer, and the two terminators agree |
| AdmaTable.TablePlaced | platform/cvitek/sdhci-cv181x.c:133-150 | every transfer descriptor is 4-aligned and, with the split, lies in one 128 MiB window |
| AdmaTable.TableSize | sdhci.c:3910-3915 | n entries take at most 2n + 1 descriptors, 3n + 1 with the split |
| AdmaTable.TableHolds | sdhci.c:3910-3915 | the 257 descriptors reserved are enough |
| AlignBuffer.ReadRoundTrip | sdhci.c:777-816 | table, device and copying out leave each entry with its part of the stream and everything else unchanged |
| AlignBuffer.WriteMeaning | sdhci.c:732-747 | after copying in, the addresses of the table hold the bytes of the entries |
| AlignBuffer.FlatDistinct | sdhci.c:719-763 | the table never names an address twice |
| AdmaHosts.AdmaHost.WriteOne | sdhci.c:662-677 | one descriptor with its fields at their widths |
| AdmaHosts.AdmaHost.WriteSplit | platform/cvitek/sdhci-cv181x.c:133-150 | one descriptor, or two across a boundary |
| AdmaHosts.AdmaHost.TablePre | sdhci.c:697-775 | the loop writes exactly the table and, for a write, fills the align buffer |
| AdmaHosts.AdmaHost.TablePost | sdhci.c:777-816 | the scan and the loop copy exactly the heads back |
| ReadPipeline.ReadEndToEnd | sdhci.c:697-816 | for any buffer of 1 to 524288 bytes the caller gets the card's bytes, no other memory changes, every replacement is freed once |
| ReadPipeline.BackMeaning | port/l-dma.c:101-119 | copying back puts every byte where the caller wants it |
| ReadPipeline.ReadRequest | port/l-mmc.c:202-274 | the whole sequence of calls, with the failing allocator: memory unchanged and everything taken freed |
| ReadPipeline.CachedRead | port/l-dma.c:22-36 | whatever the cache holds, the CPU finds the card's bytes in the entries once the controller has stored them |
| WritePipeline.WriteEndToEnd | sdhci.c:697-775 | for any buffer the card gets the caller's bytes if and only if the last entry reaches its first multiple of four |
| WritePipeline.CachedWrite | port/l-dma.c:22-36 | whatever the cache holds, the controller fetches what the CPU has written, under the same condition |
| WritePipeline.WriteRequest | port/l-mmc.c:251-272 | the whole sequence of calls for a write through the cache, with what the controller fetches and what the CPU sees afterwards |
| WritePipeline.OddWrite | sdhci.c:747-756 | writing one byte from 0x1001 tells the controller at least 65537 |
| Clock.CalcClk | sdhci.c:1848-1909 | the divisor is the best legal one of its mode, or 1025, with its rate and register value |
| Clock.BestIsFastest | sdhci.c:1848-1903 | the best divisor gives the greatest rate of its mode not above the request |
| Clock.RegisterRoundTrip | sdhci.c:1903-1909 | decoding the register returns mode and divisor for every legal divisor |
| Clock.ControllerAgrees | sdhci.c:1852-1896 | the controller divides by the computed divisor if and only if that is not 1025 and the zero-divider quirk did not apply |
| Clock.UndividedClock | sdhci.c:1852-1865 | a 205 MHz base clock doubled, asked for 400 kHz: 1025 is chosen and the register says undivided |
| Clock.HalvedClock | sdhci.c:1887-1892 | a 25 MHz clock with the zero-divider quirk: divisor 1 is chosen and the register says 2 |
| Clock.BestIsDecoded | sdhci.c:1852-1909 | the controller divides by the best divisor of the mode if and only if the search did not end at 1025 and the zero-divider quirk did not apply |
| Clock.PresetDecodes | sdhci.c:1830-1846 | from the select and generator bits of a preset the controller decodes the mode and the divisor the driver computes with |
| Clock.ClockControl.SetClock | sdhci.c:1965-1979 | 0 stops the clock; otherwise the clock reported is the one the controller makes of the final register: with presets always, and the register carries their select and the generator bit exactly if there is a generator and they ask for it; without them if and only if the divisor is not 1025 and the quirk did not halve a clock above 0, and the divisor is the best if and only if neither applied; the low bits start the internal clock, the PLL in version 4 mode and the card clock exactly as far as everything stabilised |
| DataTimeout.TargetTimeout | sdhci.c:841-868 | the target in the 32 bits of the driver |
| DataTimeout.ComputedIsTarget | sdhci.c:841-868 | it is the sum of the two rounded-up parts modulo 2^32 if and only if the rounding does not wrap, and the sum itself if and only if that fits too |
| DataTimeout.RoundedUpIsOne | sdhci.c:841-868 | a rounded-up part is the least that covers its amount |
| DataTimeout.TargetMeans | sdhci.c:841-868 | the target of data is the least number of microseconds covering the nanoseconds plus the least in which the clock makes the cycles |
| DataTimeout.BaseMeans | sdhci.c:943-944 | count 0 stands for 2^13 cycles of the timeout clock, in microseconds rounded down |
| DataTimeout.DoubleUp | sdhci.c:943-950 | the loop finds the first of the counts 0..14 whose timeout modulo 2^32 covers the target, 15 if none does |
| DataTimeout.FoundIsNeeded | sdhci.c:933-950 | for a 32-bit target that is the least count that truly covers it if and only if the doubling that reaches the target does not overflow |
| DataTimeout.Search | sdhci.c:933-961 | the count is the least of 0..14 that covers the 32-bit target, too_big if none does, if and only if the doubling does not overflow |
| DataTimeout.SafeTargets | sdhci.c:933-961 | targets up to 2^31 us never overflow |
| DataTimeout.SafeClocks | sdhci.c:933-961 | with a timeout clock of at least 32 kHz no target overflows |
| DataTimeout.LostTarget | sdhci.c:933-961 | with a 1 kHz timeout clock every 32-bit target above 4194304000 us needs the count 10 and never gets it |
| DataTimeout.LostCommand | sdhci.c:903-961 | a busy timeout of 4294967 ms there: too_big, although the count 10 covers it |
| DataTimeout.LuckyCommand | sdhci.c:903-961 | a busy timeout of 137338291 ms there: too_big and right, although the computed target needs the count 10 |
| DataTimeout.CalcTimeout | sdhci.c:903-961 | the early exits; the answer is right for the true target if and only if the count found for the computed target modulo 2^32 is the one the true target needs; where the true one fits and the rounding does not wrap, if and only if the doubling does not overflow; with a timeout clock from 32 kHz or no overflow, if and only if both targets need the same count |
| DataTimeout.WrappedCommand | sdhci.c:841-868 | a busy timeout of 4294968 ms gets count 0, and no count covers it |
| DataTimeout.WrappedRounding | sdhci.c:841-868 | a data timeout of 4294967295 ns gets count 0, and the count 10 is needed |
| Pio.Writer.WriteBlock | sdhci.c:512-555 | any pieces: exactly the next block leaves, as ceil(blksz / 4) little-endian words |
| Pio.Reader.ReadBlock | sdhci.c:468-510 | any pieces: ceil(blksz / 4) words are taken and their first blksz bytes stored |
| Pio.RoundTrip | sdhci.c:468-555 | reading back written words gives the same bytes |
| Pio.LowByteFirst | sdhci.c:512-555 | the first byte is the lowest of its word, an unfilled last word ends in zeros |
| Pio.PioWrite.Transfer | sdhci.c:557-593 | over any interrupts the blocks done and the blocks left make up the stream |
| Pio.PioRead.Transfer | sdhci.c:557-593 | over any interrupts the first (total - blocks) * blksz bytes are in place |
| Pio.WriteFinished | sdhci.c:557-593 | with no blocks left the words of the whole stream have left |
| Pio.ReadFinished | sdhci.c:557-593 | with no blocks left the whole stream is in place |
| Tuning.SetBit | platform/cvitek/sdhci-cv181x.c:194-199 | setting a bit changes what CHECK_MASK_BIT says of that bit only |
| Tuning.ProbeAll | platform/cvitek/sdhci-cv181x.c:241-263 | a tap is marked exactly when one of its 51 probes fails |
| Tuning.FindTap | platform/cvitek/sdhci-cv181x.c:287-305 | the earliest longest run of passing taps; its middle if it is at least 20 wide, else -1 |
| Tuning.ExecuteTuning | platform/cvitek/sdhci-cv181x.c:201-305 | a tap is chosen if and only if some 20 taps in a row pass, and it is the middle of the earliest longest run |
| Tuning.TapHasMargin | platform/cvitek/sdhci-cv181x.c:287-305 | the chosen tap and nine taps to either side passed all probes |

## Left out

- External DMA, CQE, runtime suspend, the SDMA bounce buffer and premapping (`pre_req`, `post_req`): not used by this port or stubbed in it.
- Retuning, CMD19 buffer-ready handling beyond its early return, SDIO card interrupts, card insertion events, LED, regulators, bus power: no effect on the state modelled.
- Error codes are booleans; response registers and `bytes_xfered` are not modelled.
- The handler returns finished requests right after it drops the lock; the model lets them go at the moment their slot is cleared, which no other step can tell apart.
- The interrupt handler may loop any number of times in the model; the code stops after sixteen readings.
- WARN_ON for an unmappable request in sdhci_prepare_data, and for a response type with 136 bits and busy signalling: block-layer mistakes, excluded by the request's fields.
- Byte order and layout of a descriptor in memory (8, 12 or 16 bytes): descriptors are records of their fields.
- The cache in `ReadEndToEnd` and `ReadRequest`: the CPU's own copying back is coherent there; that the controller's stores become visible and its fetches see the CPU's writes is `CachedRead` and `CachedWrite`. Lines fetched ahead by the cache while the transfer runs are not modelled.
- `sg_miter` is modelled by its Linux contract, since the port only has stubs.
- The lead/lag statistics of the tuning procedure, delays and register polling: debugging output and hardware I/O.
- SdhciHosts.SdhciHost.PrepareData: whether the buffers can be mapped is a property of the request, the length and offset checks behind it are not modelled.
- SdhciHosts.SdhciHost.SetTransferMode: states the automatic command only; block count, multi-block, direction and DMA bits of the register decide nothing modelled here.
- SdhciHosts.SdhciHost.FinishData: leaves out `bytes_xfered`; the copying of the align buffer it triggers is `AdmaHosts.AdmaHost.TablePost`.
- SdhciHosts.SdhciHost.DataIrq: the PIO branch is `Pio.PioRead.Transfer` and `Pio.PioWrite.Transfer`, which share no state with it; the SDMA branch is not modelled.
- Clock.CalcClk: the product of base clock and multiplier wraps at 32 bits in the model as in the code; with a wrapped product the rate is that of the wrapped value.
- Clock.ClockControl.CalcPreset: asks for the cleared register that sdhci_set_clock, its only caller, leaves; bits a register kept from before are not modelled.
- Clock.ClockControl.SetClock: polling for a stable clock is a boolean, the read-only stable bit is not kept, and the preset is a parameter, not read for a timing mode.
