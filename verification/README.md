# Verified model of the STM32F10x driver layer

The firmware drives an STM32F103ZET6 (high-density build, 8 MHz crystal). Its driver and startup code is
register code: packed fields rewritten in place, bits whose writes mean something else than their reads,
loops that poll until hardware answers. This project models the parts where several reads, writes and
calls have to work together, and proves what they keep.

Registers are 32-bit words and the driver's masks and shifts are kept. An object whose registers the code
updates is a class whose methods do the same accesses in the same order. Hardware that runs beside the code is
an argument: a schedule says what happens just before each register access (a mailbox finishes, a message
arrives, an oscillator starts, the clock ticks), or what each read of a status register returns. Nothing is
assumed about a schedule unless a contract says so, so a method's `ensures` holds for every interleaving.

| file | models |
|---|---|
| `Bits.dfy` | bits and bit masks of a register, and equality of registers bit by bit |
| `CanFrame.dfy` | the two CAN mailbox layouts: packing and unpacking of a message |
| `CanTransmit.dfy` | three transmit mailboxes, abort, status, and the ledger of accepted, sent and failed messages |
| `CanReceive.dfy` | a receive FIFO read and released while messages arrive |
| `CanMode.dfy` | mode requests, wake-up and initialisation with bounded polling |
| `CanFilter.dfy` | acceptance filter banks |
| `Clock.dfy` | `SystemInit`, the `SetSysClockTo...` variants, `SystemCoreClockUpdate` |
| `Adc.dfy` | regular ranks, sample times and the right-aligned injected sequence |
| `Gpio.dfy` | the two pin loops of `GPIO_Init` |
| `Remap.dfy` | `GPIO_PinRemapConfig` and `GPIO_EXTILineConfig` |
| `Nvic.dfy` | the CMSIS priority encoder and decoder and the library's `NVIC_Init` |
| `Exti.dfy` | `EXTI_DeInit` and `EXTI_Init` with computed register addresses |
| `Rtc.dfy` | the 32-bit counter read and written as two halves while it ticks |
| `Malloc.dfy` | the application's block allocator |

Where the code does something else than its comments or its purpose say, the code is what is modelled, and a
lemma gives the input and the exact condition:

- aborting one CAN mailbox writes back the completion flags of all three, so a mailbox that had been sent
  is then reported as failed (`CancelForgetsSuccess`, `CancelKeepsStatusUnlessSent`);
- `CAN_TransmitStatus` answers "pending" for a mailbox number above 2, where the code's default branch sets
  out to answer "failed" (`TransmitStatus`);
- an injected ADC rank just past the configured length overwrites the length
  (`RankPastLengthOverwritesIt`, `LengthSurvives`, `PastLength`);
- a `CAN_Receive` that finds the FIFO empty at its first read returns and releases a message that comes in
  before its last access, with fields read before it came; the call returns what it releases exactly when a
  message is stored at its first read or none has come by the release, which asking `CAN_MessagePending` first
  makes sure of (`LateMessageIsLost`, `LateMessageIsMixed`, `DeliversWhatItReleases`, `RunReadsAll`,
  `PendingReadsAll`);
- releasing a receive FIFO (`RFR |= RFOM`) writes back the flags just read, and a one clears its flag: after a call the
  overrun flag is up exactly if the overrun came between that read and the write (`CallForgetsOverrun`);
- `SystemInit` undivides the buses and switches off crystal and PLL without waiting until SYSCLK has left them,
  so it is safe for every hardware behaviour exactly when HSI is selected and in use (`OnlyFromHsi`); a second
  call is unsafe after every variant (`SecondCall`, `SlowVariantsFailLater`, `FirstWriteFits`). In the model a
  cleared enable bit stops its clock even in use; RM0008 (section 7.3.1) has the hardware refuse, which saves
  the 8 MHz variant only (`RefusingHardware`). The code's comment does say "only after reset";
- `SystemCoreClockUpdate` reads the last PLLMUL code as 17 where the hardware multiplies by 16
  (`LastCodeMisread`, `UpdateMeetsClockTree`);
- disabling an EXTI line clears only the mask of the mode in the structure (`DisableMayMiss`, `DisableTurnsOff`);
- remapping SPI3 leaves the debug port as it is, while the comment says it drops JTRST (`Spi3AtReset`, `Spi3LeavesDebugPort`);
- `RTC_GetCounter` can return a time that has not come yet (`ReadsTheFuture`, `HeldUnlessLowFell`);
- changing CNF in RTC_CRL loses a flag raised between the read and the write (`FlagLost`, `ChangeCnf`);
- freeing an address in the middle of a chunk leaves an allocation table that describes no chunks at all
  (`FreeInTheMiddle`, `FreeCases`).

## Model

| member | source | states |
|---|---|---|
| CanFrame.PackedDecodes | STM32F103X_FWLIB/src/stm32f10x_can.c:545-572 | whatever the mailbox held before, the words the driver leaves decode, by the hardware's layout, to exactly the caller's frame |
| CanFrame.BytesBack | STM32F103X_FWLIB/src/stm32f10x_can.c:565-572 | four packed data bytes come back byte by byte |
| CanTransmit.RunBalances | STM32F103X_FWLIB/src/stm32f10x_can.c:515-578 | over every run of requests, aborts and hardware completions, accepted messages equal, as a multiset, those pending, sent or given up |
| CanTransmit.RunKeepsMessage | STM32F103X_FWLIB/src/stm32f10x_can.c:515-578 | over every run a pending message is never overwritten: it stays in its mailbox until its frame has been sent or given up once more than before, equal frames sent earlier not counting |
| CanTransmit.RunOnlyAdds | STM32F103X_FWLIB/src/stm32f10x_can.c:515-657 | no step of a run takes back what was sent or given up |
| CanTransmit.RunAllAlike | STM32F103X_FWLIB/src/stm32f10x_can.c:515-657 | over every run in which all transmissions succeed nothing is recorded as given up, and nothing as sent where all fail |
| CanTransmit.RunConcat | STM32F103X_FWLIB/src/stm32f10x_can.c:515-657 | runs compose, so any sequence of driver calls with hardware in between is one run |
| CanTransmit.AcceptedIsRun | STM32F103X_FWLIB/src/stm32f10x_can.c:542-576 | the outcome promised for an accepted message is a run of two steps: hardware, then a request for a mailbox that is not pending |
| CanTransmit.CancelledIsRun | STM32F103X_FWLIB/src/stm32f10x_can.c:643-657 | the outcome promised for an abort is a run of two steps |
| CanTransmit.FinishCellsRefine | STM32F103X_FWLIB/src/stm32f10x_can.c:596-630 | for any number of completions, the mailbox and status registers go on meaning the abstract slots |
| CanTransmit.RequestRefines | STM32F103X_FWLIB/src/stm32f10x_can.c:574-575 | setting TXRQ turns one idle slot into a pending one that holds what the registers decode to, and no other slot changes |
| CanTransmit.FilledDecodes | STM32F103X_FWLIB/src/stm32f10x_can.c:545-572 | after the driver's five updates the mailbox decodes to the caller's frame |
| CanTransmit.ChosenIsIdle | STM32F103X_FWLIB/src/stm32f10x_can.c:525-540 | a mailbox chosen from three separate reads of TSR is empty when it is used |
| CanTransmit.CancelKeepsStatusUnlessSent | STM32F103X_FWLIB/src/stm32f10x_can.c:643-657 | an abort changes the status reported for a mailbox, any mailbox, exactly if that mailbox had been sent successfully when TSR was read |
| CanTransmit.CancelForgetsSuccess | STM32F103X_FWLIB/src/stm32f10x_can.c:651-655 | the counterexample: mailbox 0 was sent, mailbox 1 is aborted, mailbox 0 is then reported as failed |
| CanTransmit.CancelAsks | STM32F103X_FWLIB/src/stm32f10x_can.c:643-657 | an abort keeps every pending message with its frame, asks for the abort of the one mailbox and takes back no earlier request, and enters nothing in the ledger |
| CanTransmit.CancelRefines | STM32F103X_FWLIB/src/stm32f10x_can.c:649-655 | the read and write-back of TSR is the abstract abort: completions seen are forgotten, later ones stay, one pending mailbox is asked to abort |
| CanTransmit.Transmitter.constructor | STM32F103X_FWLIB/src/stm32f10x_can.c:122-140 | the reset state is three empty mailboxes with an empty, balanced ledger |
| CanTransmit.Transmitter.SelectMailbox | STM32F103X_FWLIB/src/stm32f10x_can.c:524-540 | returns the first mailbox seen empty; each one before it was pending when its bit was read; only hardware changed anything |
| CanTransmit.Transmitter.FillMailbox | STM32F103X_FWLIB/src/stm32f10x_can.c:544-572 | ten register accesses later, whatever completed meanwhile, the mailbox is still idle and holds the caller's frame; the caller's length field is masked |
| CanTransmit.Transmitter.RequestTransmission | STM32F103X_FWLIB/src/stm32f10x_can.c:574-575 | the message becomes pending in that mailbox and is entered as accepted |
| CanTransmit.Transmitter.Transmit | STM32F103X_FWLIB/src/stm32f10x_can.c:515-578 | for every schedule: without an empty mailbox nothing but hardware changed the registers; otherwise the state is what hardware made of it plus this one message, unchanged, pending in a mailbox that was not |
| CanTransmit.Transmitter.TransmitStatus | STM32F103X_FWLIB/src/stm32f10x_can.c:589-635 | pending exactly if the number is above 2 or the mailbox still holds a message, sent exactly if the hardware ended it with success, failed in every other case |
| CanTransmit.Transmitter.CancelTransmit | STM32F103X_FWLIB/src/stm32f10x_can.c:643-657 | for every schedule, the effect of an abort request on all three mailboxes |
| CanReceive.HeadStays | STM32F103X_FWLIB/src/stm32f10x_can.c:676-700 | arrivals never touch the oldest stored message, with the FIFO locked or not |
| CanReceive.UnpackedDescribes | STM32F103X_FWLIB/src/stm32f10x_can.c:676-700 | unpacking yields the frame in the mailbox whatever the caller's structure held before |
| CanReceive.ControlRoundTrip | STM32F103X_FWLIB/src/stm32f10x_can.c:691-694 | length, filter match index and time stamp have bits of their own in RDTR |
| CanReceive.UnpackedControl | STM32F103X_FWLIB/src/stm32f10x_can.c:691-694 | the length and the filter match index come back as the hardware put them into RDTR, whatever the time stamp, and the identifier field of the other type keeps its old value |
| CanReceive.SentIsReceived | STM32F103X_FWLIB/src/stm32f10x_can.c:544-700 | round trip over the bus, which carries only the data bytes the length counts and none of a remote frame: type, identifier, length and those bytes arrive as sent |
| CanReceive.SeenIsReturned | STM32F103X_FWLIB/src/stm32f10x_can.c:676-700 | a message stored at the first of the thirteen reads is what the call returns, whatever arrives between them |
| CanReceive.DeliversWhatItReleases | STM32F103X_FWLIB/src/stm32f10x_can.c:671-712 | the call returns the frame it releases, whatever an empty FIFO's registers show, exactly if a message is stored at its first read or none has come in by the release |
| CanReceive.LateMessageIsLost | STM32F103X_FWLIB/src/stm32f10x_can.c:671-712 | the counterexample: one message comes in before the sixth access of a call on an empty FIFO and is released unread |
| CanReceive.LateMessageIsMixed | STM32F103X_FWLIB/src/stm32f10x_can.c:676-700 | what that call returns: the message's data under the identifier and length the registers showed before |
| CanReceive.PendingIsSeen | STM32F103X_FWLIB/src/stm32f10x_can.c:743-762 | a call that starts with a message stored finds it at its first read |
| CanReceive.CalledSound | STM32F103X_FWLIB/src/stm32f10x_can.c:671-712 | one call, with arrivals between its accesses, keeps the ledger sound: delivered before stored in order of arrival, every arrival with one fate, and overruns costing exactly the messages that came to a full FIFO if it is locked, and exactly those followed by one that did if it is not |
| CanReceive.CalledRead | STM32F103X_FWLIB/src/stm32f10x_can.c:671-712 | a call releases a message unread exactly if it finds none at its first read and one has come by the release |
| CanReceive.CallForgetsOverrun | STM32F103X_FWLIB/src/stm32f10x_can.c:703-712 | a call clears an overrun flag it did not ask about: afterwards the flag is up exactly if it was down at the last read and more messages came before the write than the FIFO had room for |
| CanReceive.Run | STM32F103X_FWLIB/src/stm32f10x_can.c:671-712 | every run of calls, with traffic between and during them, keeps the ledger sound |
| CanReceive.CallIsRun | STM32F103X_FWLIB/src/stm32f10x_can.c:671-712 | what Receive promises is one step of a run |
| CanReceive.RunConcat | STM32F103X_FWLIB/src/stm32f10x_can.c:671-712 | runs compose, so any sequence of calls with traffic in between is a run |
| CanReceive.RunRecords | STM32F103X_FWLIB/src/stm32f10x_can.c:671-712 | over every run, everything that comes in is in the ledger once and in order |
| CanReceive.DeliveredInOrder | STM32F103X_FWLIB/src/stm32f10x_can.c:671-712 | over every run, what was delivered followed by what is stored is what came in, in order and once each, without the messages lost to overruns and those released unread |
| CanReceive.NothingUncounted | STM32F103X_FWLIB/src/stm32f10x_can.c:671-712 | over every run, delivered, stored, overrun and unread messages add up to those that came in |
| CanReceive.RunReadsAll | STM32F103X_FWLIB/src/stm32f10x_can.c:671-712 | over every run, no message is released unread exactly if each call finds one at its first read or none comes in by its release |
| CanReceive.PendingReadsAll | STM32F103X_FWLIB/src/stm32f10x_can.c:671-762 | if each call of a run starts with a message pending, none is released unread |
| CanReceive.ReceiveFifo.constructor | STM32F103X_FWLIB/src/stm32f10x_can.c:122-140 | reset: nothing stored, nothing recorded |
| CanReceive.ReceiveFifo.Receive | STM32F103X_FWLIB/src/stm32f10x_can.c:671-712 | the call moves the ledger by exactly one call of the run theorems; the message is stated field by field for every schedule of arrivals and every stale register content; a message found at the first read is returned and recorded as delivered |
| CanReceive.ReceiveFifo.MessagePending | STM32F103X_FWLIB/src/stm32f10x_can.c:743-762 | the answer is the number of messages stored |
| CanMode.FirstAckIsFirst | STM32F103X_FWLIB/src/stm32f10x_can.c:791-794 | the number of polls spent is that of the first acknowledging read within the limit |
| CanMode.AcknowledgedInTime | STM32F103X_FWLIB/src/stm32f10x_can.c:791-802 | if the acknowledgement comes and stays, the request succeeds exactly when it comes within the first 65537 reads |
| CanMode.Await | STM32F103X_FWLIB/src/stm32f10x_can.c:791-794 | the polling loop ends for every behaviour of MSR, after exactly that many reads |
| CanMode.Poll | STM32F103X_FWLIB/src/stm32f10x_can.c:791-802 | wait and check: at most 65537 reads for every MSR behaviour, polling stopped at the first read that shows what was wanted, and the last read alone decides |
| CanMode.StopsOnce | STM32F103X_FWLIB/src/stm32f10x_can.c:791-794 | what is polled for is first seen after one number of reads only |
| CanMode.TimingRoundTrip | STM32F103X_FWLIB/src/stm32f10x_can.c:249-254 | BTR decodes to the mode, jump width, segments and prescaler written |
| CanMode.TimingInjective | STM32F103X_FWLIB/src/stm32f10x_can.c:249-254 | different timings have different BTR values |
| CanMode.OptionsSet | STM32F103X_FWLIB/src/stm32f10x_can.c:188-246 | six read-modify-writes set the six options and no other bit of MCR |
| CanMode.ModeControl.constructor | STM32F103X_FWLIB/src/stm32f10x_can.c:122-140 | reset: sleep mode requested, reset bit timing, empty log |
| CanMode.ModeControl.OperatingModeRequest | STM32F103X_FWLIB/src/stm32f10x_can.c:774-848 | for mode 0, 1 and 2: MCR ends with INRQ alone, neither bit, SLEEP alone in its two low bits and is otherwise unchanged; MSR is polled until it shows INAK alone, neither bit, SLAK alone, or 65536 times, and success is that the one read after that shows it; an unknown mode fails and changes nothing |
| CanMode.ModeControl.WakeUp | STM32F103X_FWLIB/src/stm32f10x_can.c:882-907 | bounded by 65537 reads; polls until SLAK is clear, and the last read decides; SLEEP is cleared and nothing else changes |
| CanMode.ModeControl.Init | STM32F103X_FWLIB/src/stm32f10x_can.c:154-282 | ends for every MSR behaviour; before the first read INRQ is up, SLEEP down and the rest of MCR as it was; every write in the gapless log that touches an option or BTR comes with INRQ up and after a read that showed INAK; on a time-out MCR keeps the request and BTR its value; otherwise options and timing are as asked, the request is gone, and success is that the last read shows INAK clear |
| CanFilter.PairDecodes | STM32F103X_FWLIB/src/stm32f10x_can.c:311-341 | at both scales the bank's two words decode to the four fields of the structure |
| CanFilter.StagesConfigure | STM32F103X_FWLIB/src/stm32f10x_can.c:302-375 | opening, writing and closing a bank add up to one configured bank and no change to any other |
| CanFilter.LastCallWins | STM32F103X_FWLIB/src/stm32f10x_can.c:292-376 | over every run a bank is as the last call for it left it |
| CanFilter.Filters.constructor | STM32F103X_FWLIB/src/stm32f10x_can.c:122-140 | reset: filter initialisation mode on, every bank inactive |
| CanFilter.Filters.FilterInit | STM32F103X_FWLIB/src/stm32f10x_can.c:292-376 | every write to a bank's setup happens in filter initialisation mode with that bank inactive; the bank ends active exactly if asked; others never change |
| Clock.UpdateMeetsClockTree | CMSIS/system_stm32f10x.c:306-412 | the computed core clock is HCLK of the clock tree exactly unless the PLL runs with the last multiplier code |
| Clock.LastCodeMisread | CMSIS/system_stm32f10x.c:328-352 | the counterexample: 136 MHz computed, 128 MHz running |
| Clock.PrescalerRead | CMSIS/system_stm32f10x.c:158-158 | for every HPRE code the shift looked up in the prescaler table is the division the hardware does |
| Clock.AdvanceSeen | CMSIS/system_stm32f10x.c:996-1066 | every hardware step shows in the ready flags and in SWS as the abstract step says |
| Clock.AdvanceSafe | CMSIS/system_stm32f10x.c:212-269 | from a safe state, whatever the hardware does next is safe, since safety covers the clock selected as well as the one in use |
| Clock.ReachedIsSafe | CMSIS/system_stm32f10x.c:500-1080 | all six target configurations respect flash wait states, 72 MHz and the 36 MHz of APB1 |
| Clock.ReachedIsNominal | CMSIS/system_stm32f10x.c:500-1080 | each variant's final registers run SYSCLK, AHB and APB2 at the frequency in its name and APB1 at it up to 36 MHz and at half above, with the fewest flash wait states that rate allows; the driver's own computation gives the same frequency |
| Clock.SelectedIsSafe | CMSIS/system_stm32f10x.c:1056-1064 | selecting the target is safe before and after the hardware follows |
| Clock.FirstWriteFits | CMSIS/system_stm32f10x.c:212-221 | from any safe running state, the first CFGR write alone keeps the bus limits exactly if SYSCLK is at most 36 MHz |
| Clock.OnlyFromHsi | CMSIS/system_stm32f10x.c:212-233 | from any safe running state, the writes that begin SystemInit keep every state safe and every step legal for all hardware behaviours exactly if HSI is selected and in use, which is SystemInit's precondition |
| Clock.SecondCall | CMSIS/system_stm32f10x.c:212-233 | after every variant whose target was reached, a second call is unsafe: the third write stops the clock in use |
| Clock.SlowVariantsFailLater | CMSIS/system_stm32f10x.c:212-227 | the inputs at 8 and 24 MHz: the first CFGR write is safe, the next CR write is not |
| Clock.RefusingHardware | CMSIS/system_stm32f10x.c:212-233 | if the hardware refuses to stop a clock in use, the 8 MHz variant is safe and after every other the settings of a running PLL change |
| Clock.Rcc.AwaitHse | CMSIS/system_stm32f10x.c:995-1012 | the bounded wait ends; the crystal counts as started exactly if one of the 0x500 polls or the last look sees it |
| Clock.Rcc.SetSysClock | CMSIS/system_stm32f10x.c:987-1080 | reaches the target if the crystal starts, otherwise stays on HSI, every state on the way safe and every step legal |
| Clock.Rcc.constructor | CMSIS/system_stm32f10x.c:138-156 | reset: running on HSI, the variable at the target's frequency |
| Clock.Rcc.SystemInit | CMSIS/system_stm32f10x.c:212-269 | from any state running on HSI, for every hardware behaviour: each state of the trace is one write or hardware step after the one before it, all are safe, PLL settings change only with the PLL off, and the final registers are the variant's or HSI's; HCLK, PCLK1, PCLK2 and the flash latency are those of the variant's frequency, or all three clocks 8 MHz; the static SystemCoreClock is right exactly if the crystal started or the target is HSE |
| Clock.Rcc.SystemCoreClockUpdate | CMSIS/system_stm32f10x.c:306-412 | the step-by-step code, with its own masks on CFGR, computes that clock, exact unless the PLL runs with the last multiplier code |
| Adc.InRangeUpdates | STM32F103X_FWLIB/src/stm32f10x_adc.c:969-983 | an in-range injected rank replaces one position of the converted sequence, and the length and the others stay |
| Adc.LengthSurvives | STM32F103X_FWLIB/src/stm32f10x_adc.c:969-983 | for every accepted rank the length survives exactly unless the rank is one past it and the channel's low bits differ from it |
| Adc.PastLength | STM32F103X_FWLIB/src/stm32f10x_adc.c:969-983 | an injected rank past the length leaves the four channel fields alone, and just past it the channel's two low bits become the length |
| Adc.RankPastLengthOverwritesIt | STM32F103X_FWLIB/src/stm32f10x_adc.c:969-983 | the counterexample: rank 2 with length 1 makes the length 4 |
| Adc.LengthKeepsRightEnd | STM32F103X_FWLIB/src/stm32f10x_adc.c:1002-1009 | a new length keeps the right end of the sequence |
| Adc.PlacementsUpdateArray | STM32F103X_FWLIB/src/stm32f10x_adc.c:930-984 | over every run of in-range calls, in any order, the converted sequence is a plain array with last-write-wins |
| Adc.SequenceAsPlaced | STM32F103X_FWLIB/src/stm32f10x_adc.c:930-1010 | length first, then any calls: each position converts the last channel placed there |
| Adc.ConvertsTheList | STM32F103X_FWLIB/src/stm32f10x_adc.c:930-1010 | configuring ranks 1 to n makes the hardware, starting at JSQ(4-JL), convert exactly that list |
| Adc.InjectedOverRuns | STM32F103X_FWLIB/src/stm32f10x_adc.c:218-1010 | over every run of all four operations, the converted injected sequence has the length last set and each position the channel last placed there since, or what stood at the right end before |
| Adc.LastRankWins | STM32F103X_FWLIB/src/stm32f10x_adc.c:629-676 | over every run of all four operations, a regular rank converts the channel last configured for it |
| Adc.LastTimeWins | STM32F103X_FWLIB/src/stm32f10x_adc.c:598-627 | over every run, a channel has the sample time last given with it by either kind of call |
| Adc.LastLengthWins | STM32F103X_FWLIB/src/stm32f10x_adc.c:257-267 | over every run, the regular length is the one last initialised, whatever ranks 13 to 16 put beside it in SQR1 |
| Adc.Converter.constructor | STM32F103X_FWLIB/src/stm32f10x_adc.c:179-209 | reset: one regular and one injected conversion, of channel 0 |
| Adc.Converter.Init | STM32F103X_FWLIB/src/stm32f10x_adc.c:218-268 | sets the length and decodes to the structure; ranks, times and the injected sequence stay |
| Adc.Converter.RegularChannelConfig | STM32F103X_FWLIB/src/stm32f10x_adc.c:590-677 | one rank and one sample time change in the unpacked arrays, nothing else |
| Adc.Converter.InjectedChannelConfig | STM32F103X_FWLIB/src/stm32f10x_adc.c:930-984 | one sample time and one JSQ field change; within the length that is one position of the sequence |
| Adc.Converter.InjectedSequencerLengthConfig | STM32F103X_FWLIB/src/stm32f10x_adc.c:993-1010 | the length changes and the right end of the sequence stays |
| Gpio.PinsDetermine | STM32F103X_FWLIB/src/stm32f10x_gpio.c:193-257 | port states that agree pin by pin are equal |
| Gpio.DisjointCallsCommute | STM32F103X_FWLIB/src/stm32f10x_gpio.c:173-258 | calls on disjoint pins with any two configurations give the same registers in either order |
| Gpio.UnionIsBoth | STM32F103X_FWLIB/src/stm32f10x_gpio.c:173-258 | one call on a union of disjoint pin sets is the two calls on its parts |
| Gpio.LaterCallWins | STM32F103X_FWLIB/src/stm32f10x_gpio.c:173-258 | a later call on the same pins hides the earlier one, up to output bits it does not set |
| Gpio.ConfigurationReadsBack | STM32F103X_FWLIB/src/stm32f10x_gpio.c:182-222 | after a call every selected pin's field and output bit decode, by the hardware's table, to the mode and speed asked for, although the two pulls share a field |
| Gpio.Port.constructor | STM32F103X_FWLIB/src/stm32f10x_gpio.c:108-151 | reset: every pin reads back as a floating input |
| Gpio.Port.ConfigureHalf | STM32F103X_FWLIB/src/stm32f10x_gpio.c:193-222 | one pin loop: selected fields get the configuration and pulls reach the output bits, other fields and bits stay |
| Gpio.Port.Init | STM32F103X_FWLIB/src/stm32f10x_gpio.c:173-258 | for every pin mask, a per-pin update: selected pins configured, all other fields and output bits unchanged |
| Remap.DescriptorShape | STM32F103X_FWLIB/src/stm32f10x_gpio.c:566-588 | for every descriptor the shifts are defined and the branch taken is the right one |
| Remap.DescriptorClears | STM32F103X_FWLIB/src/stm32f10x_gpio.c:574-584 | the bits cleared are the descriptor's field in the register map |
| Remap.DescriptorSets | STM32F103X_FWLIB/src/stm32f10x_gpio.c:586-589 | the bits set are the field's value in the register map |
| Remap.FieldsApart | STM32F103X_FWLIB/inc/stm32f10x_gpio.h:172-203 | two remappings that share a bit are remappings of one field |
| Remap.LastCallWins | STM32F103X_FWLIB/src/stm32f10x_gpio.c:549-599 | over every run, each mapping field holds what the last call for it asked, whatever other fields were remapped |
| Remap.DebugPortStays | STM32F103X_FWLIB/src/stm32f10x_gpio.c:569-584 | over every run, the debug port is as the last call for it asked: the ones written to its write-only field have no effect |
| Remap.Spi3LeavesDebugPort | STM32F103X_FWLIB/src/stm32f10x_gpio.c:522-524 | remapping SPI3 leaves the debug port without JTRST exactly if it was so before |
| Remap.Spi3AtReset | STM32F103X_FWLIB/src/stm32f10x_gpio.c:522-524 | the input: from reset, remapping SPI3 leaves the debug port with JTRST |
| Remap.Afio.constructor | STM32F103X_FWLIB/src/stm32f10x_gpio.c:159-163 | reset: nothing remapped, full debug port, every line on port A |
| Remap.Afio.PinRemapConfig | STM32F103X_FWLIB/src/stm32f10x_gpio.c:549-599 | one call sets or clears one field, keeps every other bit outside the debug bits, and changes the debug port only if that is what is remapped, whatever the debug bits read as |
| Remap.Afio.ExtiLineConfig | STM32F103X_FWLIB/src/stm32f10x_gpio.c:609-618 | on the register bits: the four bits of register i from bit 4p on become the port if 4i + p is the line; those of the fifteen other lines and the upper halves stay |
| Nvic.WidthsSum | CMSIS/core_cm3.h:1640-1641 | for 1 to 8 priority bits and any group the two widths sum to the number of bits, in spite of unsigned wrap-around |
| Nvic.DecodeOfEncode | CMSIS/core_cm3.h:1634-1676 | decoding an encoded pair gives the pair reduced to its widths |
| Nvic.EncodeOfDecode | CMSIS/core_cm3.h:1634-1676 | encoding a decoded priority gives its low bits |
| Nvic.EncodeIsMonotone | CMSIS/core_cm3.h:1634-1647 | encoded in-range pairs compare exactly as the pairs do, preemption first |
| Nvic.LoadOfStore | CMSIS/core_cm3.h:1586-1616 | reading a stored priority back keeps its low bits |
| Nvic.GroupPriorityOfStored | CMSIS/core_cm3.h:1586-1647 | the part of the stored byte the processor preempts by is the preemption priority, scaled by the bits the device lacks |
| Nvic.PreemptsBySmallerPriority | CMSIS/core_cm3.h:1586-1647 | on any device and in any group, one interrupt preempts another exactly if its preemption priority is smaller |
| Nvic.InitAgreesWithCmsis | STM32F103X_FWLIB/src/misc.c:123-132 | in the library's five groups NVIC_Init stores the byte CMSIS would, for all byte pairs, although it does not mask the preemption value |
| Nvic.GroupingTakesEffect | CMSIS/core_cm3.h:1468-1480 | the word written carries the key 0x05FA, sets PRIGROUP and keeps the other bits |
| Nvic.EnableBits | STM32F103X_FWLIB/src/misc.c:134-142 | one write to a set or clear register changes one of the interrupts |
| Nvic.EnableWords | STM32F103X_FWLIB/src/misc.c:134-142 | that interrupt is bit b of word k with 32k + b the channel number |
| Nvic.Controller.SetPriorityGrouping | CMSIS/core_cm3.h:1468-1480 | PRIGROUP is the group and the other low bits of AIRCR are kept |
| Nvic.Controller.PriorityGroupConfig | STM32F103X_FWLIB/src/misc.c:96-103 | PRIGROUP is the one of the mask, and the other low bits of AIRCR are cleared |
| Nvic.Controller.SetPriority | CMSIS/core_cm3.h:1586-1592 | one byte changes, in the bank its sign selects |
| Nvic.Controller.GetPriority | CMSIS/core_cm3.h:1609-1616 | the answer fits the device's bits, storing it again gives the implemented bits of the byte, and it is the priority last stored reduced to those bits |
| Nvic.Controller.SetThenGet | CMSIS/core_cm3.h:1586-1616 | the two calls in sequence give the priority back, reduced to the device's bits |
| Nvic.LoadedFits | CMSIS/core_cm3.h:1609-1616 | every byte reads as a number of the device's width that stands for the byte's implemented bits |
| Nvic.Controller.Init | STM32F103X_FWLIB/src/misc.c:112-145 | enabling stores the byte CMSIS would and enables that one interrupt; disabling disables it and keeps all priorities |
| Exti.RunStaysExclusive | STM32F103X_FWLIB/src/stm32f10x_exti.c:101-149 | from the state EXTI_DeInit leaves, no run of calls puts a line in both masks |
| Exti.LastEnableSetsEdges | STM32F103X_FWLIB/src/stm32f10x_exti.c:122-141 | over every run a line's edges are those of the last call that enabled it |
| Exti.LastCallSetsLine | STM32F103X_FWLIB/src/stm32f10x_exti.c:109-141 | over every run, a line last selected by an enabling call is in the mask of its mode only and has exactly the edges of its trigger |
| Exti.DisableTurnsOff | STM32F103X_FWLIB/src/stm32f10x_exti.c:142-148 | a disabling call turns a line off exactly if the other mask does not have it |
| Exti.DisableMayMiss | STM32F103X_FWLIB/src/stm32f10x_exti.c:142-163 | the counterexample, with the default mode of the structure |
| Exti.Controller.DeInit | STM32F103X_FWLIB/src/stm32f10x_exti.c:85-92 | every line off, its edges clear and its pending bit gone |
| Exti.Controller.Init | STM32F103X_FWLIB/src/stm32f10x_exti.c:101-149 | through computed addresses: selected lines get mode and trigger or leave one mask; all others and the two other registers stay |
| Rtc.TornIsAhead | STM32F103X_FWLIB/src/stm32f10x_rtc.c:133-138 | low half first, high half any number of ticks later, gives the first reading plus 65536 for each rollover, modulo 2^32 |
| Rtc.ExactUnlessRollover | STM32F103X_FWLIB/src/stm32f10x_rtc.c:133-138 | it is the first reading exactly if the rollovers are a multiple of 65536 |
| Rtc.HeldUnlessLowFell | STM32F103X_FWLIB/src/stm32f10x_rtc.c:133-138 | the result was really held during the call exactly if the low half did not get smaller meanwhile, or the counter all but went round |
| Rtc.ReadsTheFuture | STM32F103X_FWLIB/src/stm32f10x_rtc.c:133-138 | the counterexample: one tick at the wrong moment and the result lies 65535 ticks ahead |
| Rtc.NoTicksExact | STM32F103X_FWLIB/src/stm32f10x_rtc.c:133-138 | with no tick between the reads, every 32-bit value is read exactly |
| Rtc.ChangeCnf | STM32F103X_FWLIB/src/stm32f10x_rtc.c:111-126 | the flags after a change of CNF are those up at the read, so one raised in between is lost |
| Rtc.FlagLost | STM32F103X_FWLIB/src/stm32f10x_rtc.c:111-115 | the counterexample: an overflow flag raised between read and write is gone |
| Rtc.Counter.SetConfigMode | STM32F103X_FWLIB/src/stm32f10x_rtc.c:111-126 | CNF is as asked; leaving starts the write of both halves and takes RTOFF down |
| Rtc.Counter.SetCounter | STM32F103X_FWLIB/src/stm32f10x_rtc.c:145-153 | with RTOFF set on entry, both halves of the value are on their way into the counter on return, however it ran meanwhile |
| Rtc.StepWrites | STM32F103X_FWLIB/src/stm32f10x_rtc.c:145-153 | until a write is done its halves wait; when it is done the counter is the value |
| Rtc.Counter.WaitForLastTask | STM32F103X_FWLIB/src/stm32f10x_rtc.c:207-213 | on return no write is under way, and a value that was being written is exactly in the counter |
| Rtc.Counter.GetCounter | STM32F103X_FWLIB/src/stm32f10x_rtc.c:133-138 | the result for every number of ticks before and between the reads, and for a write completed between them |
| Rtc.Counter.SetThenGet | STM32F103X_FWLIB/src/stm32f10x_rtc.c:133-213 | SetCounter, WaitForLastTask and GetCounter in sequence: the value comes back, torn only by ticks after the write is done |

## Block allocator

`USER/src/malloc.c` has comments in another encoding than UTF-8; its members are listed here by line.

| member | lines | states |
|---|---|---|
| Malloc.MarkAdds | 113-114 | marking a free run adds exactly one chunk to those the table describes |
| Malloc.ClearRemoves | 151-157 | clearing a chunk's entries removes exactly that chunk |
| Malloc.FreeUndoesMalloc | 92-160 | freeing what was just allocated restores the table |
| Malloc.ClearInsideBreaks | 151-157 | clearing from the middle of a chunk leaves a table that describes no set of chunks |
| Malloc.FreeInTheMiddle | 151-157 | the counterexample: the second block of a chunk of two is freed |
| Malloc.FreeCases | 151-157 | a call of free keeps the table sound exactly if the block is free or the first of its chunk |
| Malloc.Pool.Init | 69-74 | every block free, no chunks |
| Malloc.InUseIsTotal | 80-90 | a table has as many entries in use as the chunks it describes have blocks together |
| Malloc.Pool.Preused | 80-90 | the percentage of table entries that are not zero, which are the blocks of the chunks handed out and not yet freed |
| Malloc.Pool.Search | 105-118 | the downward scan finds the highest run of enough free blocks, or there is none |
| Malloc.Pool.Malloc | 92-120 | fails exactly if nothing is asked for or no run is long enough; otherwise one new chunk, apart from all others, at the highest place, and nothing else changes; an uninitialised pool counts as empty |
| Malloc.Pool.Free | 138-160 | the three return codes; which entries are cleared; the table stays sound exactly if the address lies in a free block or in the first block of a chunk |

## Left out

- Connectivity-line and value-line branches of all files: not this board's build.
- Clock: RCC_CIR, the vector table register and the external-memory setup written by `SystemInit`; the variant without any SYSCLK macro, where `SetSysClock` does nothing.
- Clock.Rcc.SystemInit: PLL lock and clock switch are assumed to come at some time, since the code waits for them without a bound; the wait for the crystal is bounded and assumes nothing. It is proved from states running on HSI (reset among them), which is what the code's comment demands; what happens otherwise is `OnlyFromHsi`.
- Clock.Rcc.SystemCoreClockUpdate: reads CFGR once where the code reads it again for each field; the register does not change by itself outside a clock switch.
- CanTransmit: arbitration and priority between mailboxes; the hardware may finish pending mailboxes in any order, which covers all of it.
- CanTransmit.Transmitter.TransmitStatus: one snapshot of TSR, as in the code; a later completion is not in it.
- CanReceive.ReceiveFifo.Receive: one object per FIFO, so the choice between FIFO 0 and 1 is the choice of object; the FULL flag is written back like the overrun flag, and nothing is said about it.
- CanMode: `CAN_Sleep`, a single write and read.
- Gpio.Port.ConfigureHalf: the two loops of `GPIO_Init` differ in a base pin and a register and are one method with parameters.
- Remap.Afio.PinRemapConfig: descriptors for AFIO_MAPR2 (bit 31), for which the code shifts by more than the width of a word and C gives no meaning.
- Nvic.Controller.Init: needs a group of the library, since the code's shift by a wrapped-around amount has no meaning in C otherwise.
- Nvic.Controller.SetPriority: the core interrupts without a priority byte (numbers below -12) are excluded, where the code would index outside the array.
- Exti.Controller.DeInit: interrupts raised while it runs.
- Rtc: prescaler, alarm and divider accesses, which repeat the pattern of the counter, and `RTC_WaitForSynchro`.
- Rtc.Counter.SetConfigMode: entering and leaving configuration mode are one method with a flag.
- Rtc.Counter.WaitForLastTask: a write is assumed to be completed at some time, since the code waits for it without a bound.
- Malloc.Pool.Free: an address in the middle of a chunk whose length reaches past the end of the table is excluded, where the code would write outside the table.
- Malloc: the memory the table stands for, `mymalloc` and `myfree` as pointer arithmetic around the two methods, and `myrealloc`.
- The CRC unit's block loop, bit-banded single-bit setters, flag reads and the other peripheral drivers: easy members.
- The lwIP stack and its port, the sensor and display code, and drivers present only as headers.
- Parameter checks by `assert_param` are preconditions; what happens when they fail is not modelled.
