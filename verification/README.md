# A verified model of the perf_event test suite

The perf_event test suite exercises the Linux `perf_event_open` interface.  This project models
its four hardest pieces in Dafny and proves what they are for.

* **Reading the ring buffer** (`lib/parse_record.c`).  `Bits`, `Bytes` and `RecordFormat` give the
  record layouts of `include/perf_event.h` as an encoder.  `ParseRecord` says what the decoder
  reads, `RecordRoundTrip` that it undoes the encoder and exactly when a sample comes back.
  `PerfMmapRead` has `perf_mmap_read` and its helpers as loops over arrays and offsets.
  `RingProtocol` lets the kernel write single bytes while the two copies are under way and shows
  that no byte is lost, torn or overwritten; `RingRecords` joins the two, from records produced to
  records printed.
* **The trace log** (`fuzzer/fuzz_open.c`, `parse_log.c`, `perf_attr_print.c`, `log_to_code.c`,
  `replay_log.c`).  `Scanf` is printf and sscanf on characters; `TraceLog` shows that reading an
  open line undoes writing it, through 16, 32 and 64-bit two's complement and hexadecimal.
  `AttrPrint` and `AttrEmit` are the C emitter, shown to preserve every value.  `TraceModel` gives
  the log a meaning as system calls on events named by the open that created them.  `LogToCode`
  (a compiler and the machine that runs its output) and `ReplayLog` with `Replayer` (an
  interpreter with its descriptor table) both make exactly those calls.
* **The fuzzer's tables under signals** (`fuzzer/perf_fuzzer.c`, `fuzz_mmap.c`, `fuzz_close.c`,
  `fuzz_open.c`, `fuzz_overflow.c`).  `FuzzerTables` states the handler and the operations on the
  slot tables.  `SignalSafety` breaks the operations into single stores and system calls with
  handlers in between; `WholeOperations` shows the two views agree.  `FuzzerState` holds the
  tables as arrays, searched and changed by the source's loops.  `Slots` is rank and select,
  `Throttle` the overflow accounting since an open, `Groups` the group sizes.
* **The filter generator** (`fuzzer/filter_tracepoint.c`).  `FilterGrammar` has a recursive-descent
  parser for filters; `FilterGenerator` has the two loops that append to the static buffer, with
  every random choice left open.

Numbers are unbounded integers; widths, sign, wrap-around and truncation are written out where the
source has them (`Scanf.Signed`, `Scanf.Pattern`, `PerfMmapRead.Int32`, `Bytes.Signed64`).

## Where code and expectation differ

* `RecordRoundTrip.SampleRoundTripIff`: the decoder takes REGS_INTR before the stack copy and
  IDENTIFIER after it, while the header documents IDENTIFIER first and REGS_INTR last; and it steps
  over no LOST counts.  A sample comes back exactly when those do not matter.
* `RecordRoundTrip.PlainRoundTripIff`: four record kinds are read with exactly one trailing word and
  the others with none, so a record comes back exactly when its `sample_id` trailer has that length.
* `RecordRoundTrip.QuietChangesNothingIff`: the stack dump steps an `int` subscript over ints by 4, so it
  prints every fourth int and reaches four times too far (`RecordRoundTrip.FullDumpFitsIff`); and a text
  is printed with `%s` whether or not it holds a NUL.  Quiet changes nothing exactly when neither matters.
* `ReplayLog.WholeProgramsAgreeIff`: the replayer kills a child that it forked once more at its end, the
  compiled program does not.
* `FuzzerState.Fuzzer.MmapRandomEvent`: a pick that found no event is used as an index all the same.
* `ReplayLog.GroupIoctlAgreesIff` and `ReplayLog.ReadAgreesIff`: the compiled program cuts the
  argument of ENABLE, DISABLE and RESET to an int, and the replayer refuses large reads.
* `Groups.ReadSizeShortfall`: the nominal read size of a group of n events is short by 8(n - 1) bytes.
* `fuzz_overflow.c` keeps a `next_refresh` of its own, distinct from the static variable of that name
  set at `fuzzer/perf_fuzzer.c:779`; it never leaves zero, so `SignalSafety.SignalsAreSafe` includes
  that every re-arm asks for a refresh of 0.

## Model

| member | source | states |
|---|---|---|
| RecordRoundTrip.RecordRoundTrip | lib/parse_record.c:495-1144 | a well-formed record standing at an offset is decoded to itself and the next offset is exactly its header size further on, unless a print of it overruns (a stack dump leaves the stack, a text has no end, or the dump subscript would pass 2^31): then the turn is undefined; a quiet turn sees all but the payloads it steps over |
| RecordRoundTrip.PlainRoundTripIff | lib/parse_record.c:509-692 | a plain record comes back if and only if its trailer is the one the decoder expects for the kind and, when printed, its text holds a NUL |
| RecordRoundTrip.StreamRoundTrip | lib/parse_record.c:390-1147 | over any concatenation of well-formed records the loop returns those records, counts them, and ends with offset equal to size, exactly when no print of any of them overruns |
| RecordRoundTrip.StopsAtUnhandledKind | lib/parse_record.c:1137-1147 | at the first kind without a case the records before it are decoded as usual, one more event is counted and the whole chunk is taken |
| RecordRoundTrip.QuietChangesNothingIff | lib/parse_record.c:321-1154 | over any stream of records a quiet and a printing run count the same events and end at the same offset if and only if every text holds a NUL and every stack dump stays inside its stack |
| RecordRoundTrip.QuietRunFollows | lib/parse_record.c:390-1147 | over any bytes at all, where a printing run ends a quiet one ends with the same count and offset, having seen the same records up to the payloads it steps over |
| RecordRoundTrip.FullDumpFitsIff | lib/parse_record.c:904-929 | a dump of a stack of which all is used stays inside the stack exactly for 0 and 4 bytes |
| RecordRoundTrip.SixteenByteDump | lib/parse_record.c:904-929 | a stack of 16 bytes, all used, is decoded when quiet and overruns when printed |
| RecordRoundTrip.SampleRoundTripIff | include/perf_event.h:972-1058 | every sample body laid out as documented whose stack dump stays inside its stack is recovered in full when printed, for every count, size and register mask, exactly for the configurations where the two orders coincide and LOST is not read |
| RecordRoundTrip.AnySampleRoundTripIff | include/perf_event.h:972-1058 | with nothing said of the dump, every documented sample body is recovered exactly for those configurations that do not ask for STACK_USER |
| RecordRoundTrip.FaithfulRecoversIff | lib/parse_record.c:694-1044 | in such a configuration one sample is recovered if and only if its stack dump stays inside its stack |
| RecordRoundTrip.AddressThenThread | lib/parse_record.c:695-717 | with sample_type 3 the sixteen bytes of a sample are its address, its process and its thread |
| RecordRoundTrip.HeaderOrderDistinct | include/perf_event.h:972-1058 | the 19 parts have the documented places in the documented order, each once |
| RecordFormat.MasksAsDocumented | include/perf_event.h:142-161 | bit i of sample_type asks for the i-th part of the enumeration, and the low five bits of read_format for the two times, the id, the group and the lost count |
| ParseRecord.ItemRoundTrip | lib/parse_record.c:694-1044 | each of the sample parts, five of them of dependent length, is read back to its value and length, the stack exactly when its dump loop runs to the end, and quietly the registers and the raw payload are stepped over |
| ParseRecord.BodyRoundTrip | lib/parse_record.c:694-1044 | a whole sample body is read back part by part, exactly when every part is |
| ParseRecord.FieldsRoundTrip | lib/parse_record.c:509-692 | the fixed fields of a record kind are read back at their widths |
| ParseRecord.LayoutsAgree | include/perf_event.h:889-1155 | for every kind the decoder handles, the widths it reads are the documented ones, the same kinds carry a text, at the offset the header gives, and the same kinds one trailing word |
| ParseRecord.FaithfulOrders | lib/parse_record.c:866-902 | in a faithful configuration the documented order and the order of the chain of ifs, two lists of their own, request the same parts in the same order |
| ParseRecord.BodyComplaintIff | lib/parse_record.c:701-829 | a sample is complained of exactly for a pid, a number of events or the start of a branch that validation does not expect, and of nothing when not validating |
| PerfMmapRead.Memcpy | lib/parse_record.c:376-385 | a block copy that changes nothing else of its target |
| PerfMmapRead.Unroll | lib/parse_record.c:369-385 | the two copies leave the ring rotated to start at prev_head |
| PerfMmapRead.UnrolledAt | lib/parse_record.c:369-385 | position k of the unrolled ring is ring position (prev_head + k) mod N |
| PerfMmapRead.GroupCounters | lib/parse_record.c:73-87 | the counters of a group read, with or without ids |
| PerfMmapRead.HandleStructReadFormat | lib/parse_record.c:37-115 | reads what the format says, and reports a count other than the expected one when validating a group |
| PerfMmapRead.ReadLength | lib/parse_record.c:37-115 | that consumes 8(1 + te + tr + nr(1 + id)) bytes for GROUP and 8(1 + te + tr + id) otherwise |
| PerfMmapRead.PrintRegs | lib/parse_record.c:150-177 | one register per set bit of the mask when printing and no read at all when quiet, consuming eight bytes for each either way |
| Bits.WeightCounts | lib/parse_record.c:150-177 | the weight of a register mask is the number of its set bits |
| PerfMmapRead.PrintRaw | lib/parse_record.c:779-802 | the bytes of a raw payload are read only when they are printed |
| PerfMmapRead.DumpStack | lib/parse_record.c:922-924 | the dump loop: it goes wrong exactly when a printed element lies outside the stack or the int subscript would pass 2^31, and prints every fourth int |
| PerfMmapRead.DecodeStack | lib/parse_record.c:904-929 | the copy of the stack, its used length and its dump |
| PerfMmapRead.PrintText | lib/parse_record.c:532-541 | a text is printed up to its first NUL, which has to be there |
| PerfMmapRead.DecodeBranches | lib/parse_record.c:804-864 | the branches, three words each, and when validating one complaint for every branch that starts below the expected range |
| PerfMmapRead.CopyWords | lib/parse_record.c:767-864 | the word loop of callchains and branch stacks |
| PerfMmapRead.DecodeItem | lib/parse_record.c:694-1044 | each arm of the sample chain reads the part that ParseRecord describes, quietly or printing, and makes the complaints due when validating |
| PerfMmapRead.DecodeSample | lib/parse_record.c:694-1044 | the chain of arms reads the requested parts in the decoder's order and makes their complaints in that order |
| PerfMmapRead.DecodeFields | lib/parse_record.c:509-692 | fixed fields are read in order at their widths |
| PerfMmapRead.DecodeRecord | lib/parse_record.c:395-1144 | one turn of the record loop |
| PerfMmapRead.DecodeLoop | lib/parse_record.c:390-1147 | the loop computes the records seen, the complaints, the count and the final offset, or breaks off where a read or a print leaves its buffer |
| PerfMmapRead.Int32Wraps | lib/parse_record.c:346 | the int that holds head - prev_head is that difference up to a multiple of 2^32 |
| PerfMmapRead.Read | lib/parse_record.c:321-1154 | size 0, a null page and a failed malloc return early and touch nothing; otherwise the report is the loop's over the unrolled ring, quiet or printing, validating or not; unless that is undefined, data_tail becomes the head read, which is returned |
| RingProtocol.StepKeeps | include/perf_event.h:733-752 | every step of kernel or reader keeps the protocol invariant |
| RingProtocol.NothingLostOrTorn | lib/parse_record.c:343-1151 | over all interleavings the chunks decoded add up to the stream up to the tail, head - tail never exceeds N and unread bytes stay in the ring |
| RingProtocol.CopyLooksAtomic | lib/parse_record.c:369-385 | the byte-wise copy racing with the producer gives what an atomic copy would |
| RingProtocol.DrainsWhatWasPublished | lib/parse_record.c:343-1151 | in any run from between two calls, with the kernel writing meanwhile, a call that has since been decoded drained at least all that was published before it began |
| RingProtocol.CallEmptiesRing | lib/parse_record.c:343-1151 | no call can be held up: the reader alone can always bring one to its end, which sets the tail to the head and gives the producer its room back |
| RingProtocol.PutCanBePublished | include/perf_event.h:733-752 | a byte that was put can be published at once |
| RingRecords.DeliversWhatWasProduced | lib/parse_record.c:343-1151 | over all interleavings with a producer of whole records, the calls together see the first m records produced, each once and in order, a call being undefined exactly if a print of one of its records overruns |
| RingRecords.PublishedRecordsAreSeen | lib/parse_record.c:343-1151 | every record published before a call began is among those seen once the call has been decoded, whatever is produced meanwhile |
| RingRecords.PrintableRecordsAreSeen | lib/parse_record.c:343-1151 | when every record prints inside itself, every call of every interleaving runs to its end, quiet or not |
| RingRecords.QuietReadIff | lib/parse_record.c:321-1154 | a quiet and a printing call, each with any validation, report the same events and offset if and only if every record prints inside itself |
| RingRecords.ReadPrintsAll | lib/parse_record.c:402-1154 | over records that print inside themselves a printing call prints exactly those records and a quiet one nothing; both count them all, end at head - prev_head and make the same complaints, none without validation |
| RingRecords.ReadComplainsIff | lib/parse_record.c:321-1154 | such a call makes exactly the complaints that validation has against the parts of the records |
| RingRecords.ReadStopsAtUnhandledKind | lib/parse_record.c:1137-1147 | a call that comes to an unknown kind has printed the records before it, counts one event more and takes all bytes |
| Scanf.SscanfInvertsPrint | fuzzer/parse_log.c:23-49 | for any list of conversions, scanning what was printed gives the values back bit for bit |
| Scanf.ConvBack | fuzzer/fuzz_open.c:37-177 | one conversion, signed decimal or hexadecimal, at 16, 32 or 64 bits |
| Scanf.SignedOfPattern | fuzzer/fuzz_open.c:122-172 | two's complement, one way |
| Scanf.PatternOfSigned | fuzzer/parse_log.c:51-101 | two's complement, the other way |
| TraceLog.SameOrder | fuzzer/parse_log.c:23-101 | writer and reader list the 55 fields in the same order |
| TraceLog.EveryFieldOnce | fuzzer/fuzz_open.c:37-177 | the writer lists every field exactly once |
| TraceLog.ParseInvertsLog | fuzzer/parse_log.c:6-105 | parsing the line written for any open event recovers fd, pid, cpu, group_fd, flags and every attr field, reader and writer having lists of their own |
| TraceLog.LineHead | fuzzer/fuzz_open.c:383-391 | every open line begins with the letter, four decimal numbers and the flags in hexadecimal |
| TraceLog.FieldFormats | fuzzer/fuzz_open.c:37-177 | eight fields are written in hexadecimal and the others in decimal, and read as they were written |
| TraceLog.FieldWidths | include/perf_event.h:393-550 | the widths of the 55 fields |
| TraceLog.ParsedIsValid | fuzzer/parse_log.c:51-101 | whatever the line, a complete parse gives every field a value that fits it |
| AttrPrint.TermsValue | fuzzer/perf_attr_print.c:296-576 | the OR of the printed terms is the mask |
| AttrPrint.TermsDisjoint | fuzzer/perf_attr_print.c:296-576 | the terms share no bit and the residual holds no named bit |
| AttrPrint.StripMask | fuzzer/perf_attr_print.c:56-94 | the printer that strips bits from a local copy, stopping early when none are left, prints those terms |
| AttrPrint.MaskExprValue | fuzzer/perf_attr_print.c:535-576 | the printed OR-expression evaluates to the mask |
| AttrPrint.CacheExprValue | fuzzer/perf_attr_print.c:123-194 | the three-part cache expression recombines to every 64-bit config, the top part shifted arithmetically |
| AttrEmit.TypeAndConfigValue | fuzzer/perf_attr_print.c:96-294 | printed type and config evaluate to the values they were printed from |
| AttrEmit.LiteralBack | fuzzer/perf_attr_print.c:610-741 | unsigned fields printed with %d, %hd or %lldULL come back when assigned |
| AttrEmit.UnionFieldPrinted | fuzzer/perf_attr_print.c:610-741 | the member chosen of each union assigns the storage that was printed |
| AttrEmit.MemberNamed | fuzzer/perf_attr_print.c:610-741 | sample_freq, wakeup_watermark, bp_addr and bp_len are named exactly when freq, watermark or a breakpoint type says so |
| AttrEmit.NamesUsed | fuzzer/perf_attr_print.c:96-576 | the types and the bits of each mask that are printed by name |
| AttrEmit.EmittedCodeRebuildsAttr | fuzzer/perf_attr_print.c:610-741 | for every attr, running the emitted assignments on a zeroed struct rebuilds every field, skipped zeros included |
| LogToCode.GroupArgValue | fuzzer/log_to_code.c:81-86 | naming the group flag in front of the number does not change the argument |
| TraceModel.RequestsAsDocumented | include/perf_event.h:576-583 | the requests are the numbers that the header macros give |
| LogToCode.RunOpen | fuzzer/perf_attr_print.c:743-784 | the statements printed for an open line open the logged event, with getpid for the logged process and the leader through fd[] |
| LogToCode.RunIoctl | fuzzer/log_to_code.c:88-144 | the statements printed for an ioctl line make the logged call |
| LogToCode.RunLine | fuzzer/log_to_code.c:21-341 | the statements of any line make its calls and keep fd[] in step with the log |
| LogToCode.ProgramMakesLoggedCalls | fuzzer/log_to_code.c:457-546 | the emitted program makes exactly the calls the log means, whatever descriptors it is given |
| LogToCode.Translate | fuzzer/log_to_code.c:457-546 | the dispatch loop, carrying the logged pid, emits that program |
| ReplayLog.StepFollowsLog | fuzzer/replay_log.c:186-378 | each replayed line makes the calls it means and keeps the table a simulation |
| ReplayLog.TableSimulatesEveryPrefix | fuzzer/replay_log.c:186-307 | after every prefix the table is defined exactly for the descriptors then open, is injective, and sends each to the event opened for it |
| ReplayLog.BackEndsAgree | fuzzer/replay_log.c:873-1006 | up to the last line of the log, compiling it and replaying it make the same calls, for any descriptors the two kernels hand out |
| ReplayLog.WholeProgramsAgreeIff | fuzzer/replay_log.c:1008-1012 | run to their ends the two make the same calls if and only if the log enables no fork, since the replayer alone kills the child at the end |
| ReplayLog.GroupIoctlAgreesIff | fuzzer/log_to_code.c:88-119 | the two agree on ENABLE, DISABLE and RESET if and only if the argument survives the cut to int |
| ReplayLog.ReadAgreesIff | fuzzer/replay_log.c:357-378 | the two agree on a read if and only if its size fits the replayer's buffer of 65536 words |
| Replayer.Replay.constructor | fuzzer/replay_log.c:739-743 | the table starts empty |
| Replayer.Replay.OpenEvent | fuzzer/replay_log.c:186-277 | open_event on the array when the open succeeds: leader remapped, pid substituted, entry stored |
| Replayer.Replay.CloseEvent | fuzzer/replay_log.c:281-307 | close_event on the array |
| Replayer.Replay.MmapEvent | fuzzer/replay_log.c:55-102 | mmap_event: the call, or nothing for a descriptor without entry |
| Replayer.Replay.ReadEvent | fuzzer/replay_log.c:357-378 | read_event with its size limit |
| Replayer.Replay.IoctlEvent | fuzzer/replay_log.c:310-349 | ioctl_event with its remapped and by-address arguments |
| Replayer.Replay.SetupOverflow | fuzzer/replay_log.c:654-672 | setup_overflow: the handler and the three fcntl calls |
| Replayer.Replay.ForkEvent | fuzzer/replay_log.c:586-606 | fork, or kill and wait |
| Replayer.Replay.Dispatch | fuzzer/replay_log.c:884-998 | one turn of the loop is one step of ReplayLog |
| Replayer.Replay.Lines | fuzzer/replay_log.c:873-1006 | the loop over the lines of a fuzzer's log makes the calls the log means |
| Replayer.Replay.ReplayAll | fuzzer/replay_log.c:873-1012 | the whole replay, with the kill that closes it |
| SignalSafety.MoveKeeps | fuzzer/fuzz_mmap.c:340-559 | every single store, system call and handler run keeps the table invariant |
| SignalSafety.HandleSafe | fuzzer/fuzz_overflow.c:53-168 | a handler run at any point touches only pages mapped for it and changes nothing the operations rely on |
| SignalSafety.DisablesFirst | fuzzer/fuzz_overflow.c:53-168 | a handler disables the event first, re-arms it last if at all, and gives up only the descriptor it came for |
| SignalSafety.HandlerReadsOwnMapping | fuzzer/fuzz_overflow.c:124-156 | a re-armed overflow reads, and marks as read, the mapping of its own event |
| SignalSafety.SignalsAreSafe | fuzzer/fuzz_overflow.c:53-168 | over all runs, with signals between any two steps, every load and store in a control page finds it mapped with that protection |
| SignalSafety.TouchedIsMapped | fuzzer/fuzz_overflow.c:53-168 | the same of any one step after any run, and every re-arm asks for a refresh of 0 |
| SignalSafety.ActiveMeansMapped | fuzzer/fuzz_mmap.c:340-559 | at every point each active slot is a mapped page with the recorded protection, no two the same |
| SignalSafety.CountsHoldAtRest | fuzzer/fuzz_mmap.c:398-559 | between operations active_mmaps and active_events count the active slots, through failed mmaps, aux mmaps, stale mmap indices and the close-all loop |
| SignalSafety.ClearMustComeFirst | fuzzer/fuzz_mmap.c:540-545 | were a slot unmapped before it is marked inactive, a signal in between would be safe only for an unreadable slot |
| WholeOperations.UnmapRuns | fuzzer/fuzz_mmap.c:526-559 | the steps of unmap_mmap add up to the operation |
| WholeOperations.MapRuns | fuzzer/fuzz_mmap.c:340-524 | the steps of setup_mmap and setup_mmap_aux add up to the operation, an aux area following exactly if it is drawn and a slot is left |
| WholeOperations.CloseRuns | fuzzer/fuzz_close.c:19-63 | the steps of close_event add up to the operation, in either order of its halves |
| WholeOperations.OpenRuns | fuzzer/fuzz_open.c:378-449 | the steps of an open that the kernel grants add up to the operation, with a leader to tell or without |
| WholeOperations.GrantedOpenRuns | fuzzer/fuzz_open.c:228-449 | an open that the kernel grants can always begin and, run from its search for a slot to its end, leaves what Opened says |
| WholeOperations.SetupRuns | fuzzer/fuzz_mmap.c:340-524 | setup_mmap for any event can always begin and, run from its search for a slot to its end, aux area included, leaves what FuzzerState.SetUp says |
| WholeOperations.SetUpBelongsToEvent | fuzzer/fuzz_mmap.c:391-433 | a granted mapping names the event it was set up for and holds its descriptor, that event names the slot, and no other event or slot changes |
| WholeOperations.SetUpFails | fuzzer/fuzz_mmap.c:340-413 | when mmap fails or no slot is free, nothing is mapped or counted, no event is touched and the result is -1 |
| WholeOperations.AuxBelongsToParent | fuzzer/fuzz_mmap.c:446-524 | an aux area is linked to the mapping it was set up beside, and its event then names the area |
| WholeOperations.CloseAllRuns | fuzzer/fuzz_overflow.c:187-189 | the close-all loop, run to its end step by step, closes every active event and leaves none |
| FuzzerState.Fuzzer.constructor | fuzzer/perf_fuzzer.c:77-78 | zeroed tables are a start of the step machine |
| FuzzerState.Fuzzer.FindEmptyMmap | fuzzer/fuzz_mmap.c:125-136 | the first inactive mmap slot, or -1 |
| FuzzerState.Fuzzer.FindEmptyEvent | fuzzer/perf_fuzzer.c:175-186 | the first inactive event slot, or -1 |
| FuzzerState.Fuzzer.LookupEvent | fuzzer/perf_fuzzer.c:160-172 | the first active event with the descriptor, or -1 |
| FuzzerState.LookupAtRestIff | fuzzer/perf_fuzzer.c:160-172 | between operations a descriptor is found exactly if an active event has it |
| FuzzerState.Fuzzer.FindRandomActiveMmap | fuzzer/fuzz_mmap.c:138-161 | the active slot with x active ones before it, x being rand() modulo the counter; -1 exactly when x is not below the number of active slots |
| FuzzerState.Fuzzer.FindRandomActiveEvent | fuzzer/perf_fuzzer.c:106-121 | the same over events |
| FuzzerState.Fuzzer.FindRandomActiveSamplingEvent | fuzzer/perf_fuzzer.c:123-139 | the same over active sampling events, so -1 exactly when x is not below their number |
| FuzzerState.Fuzzer.FindRandomActiveBreakpointEvent | fuzzer/perf_fuzzer.c:141-157 | the same over active breakpoint events |
| FuzzerState.Fuzzer.MmapAuxRead | fuzzer/fuzz_mmap.c:163-201 | reading an aux mapping goes through its parent's page, with the parent's protection |
| FuzzerState.Fuzzer.ReadMmap | fuzzer/fuzz_mmap.c:203-240 | the loads, stores and result of perf_mmap_read |
| FuzzerState.HeadIsKept | fuzzer/fuzz_mmap.c:163-240 | the head is returned exactly through a page that can be read, and stored there and kept in the slot exactly if it can be written; no other slot changes |
| FuzzerState.Fuzzer.OurHandler | fuzzer/fuzz_overflow.c:53-168 | the handler on the arrays; a run inside another does nothing |
| FuzzerState.Fuzzer.CountOverflow | fuzzer/fuzz_overflow.c:97-156 | counting, throttling, giving up, reading and re-arming |
| FuzzerState.Fuzzer.UnmapMmap | fuzzer/fuzz_mmap.c:526-559 | unmap_mmap on the arrays |
| FuzzerState.Fuzzer.CloseEvent | fuzzer/fuzz_close.c:19-63 | close_event on the arrays, with either order having the same effect; a negative number changes nothing |
| FuzzerState.Fuzzer.SigioHandler | fuzzer/fuzz_overflow.c:187-189 | the close-all loop leaves no event active |
| FuzzerState.Fuzzer.FillAndMap | fuzzer/fuzz_mmap.c:354-433 | the slot filled, mapped and recorded, active last, or left failed |
| FuzzerState.Fuzzer.SetupMmapAux | fuzzer/fuzz_mmap.c:446-524 | setup_mmap_aux on the arrays |
| FuzzerState.HooksStoreInParent | fuzzer/fuzz_mmap.c:470-480 | the two stores that announce an aux area hit the page of its parent, if there is one that can be written |
| FuzzerState.Fuzzer.SetupMmap | fuzzer/fuzz_mmap.c:340-443 | setup_mmap on the arrays, with no slot free, with mmap failing, and with an aux area to follow; it uses event_data[-1] exactly when a slot is free and the event number is negative |
| FuzzerState.Fuzzer.MmapRandomEvent | fuzzer/fuzz_mmap.c:562-571 | the arm that maps an event picked at random: the pick goes unchecked, so with a true counter event_data[-1] is used exactly when a slot is free and no event is active |
| FuzzerState.Fuzzer.UpdateReadSize | fuzzer/fuzz_open.c:179-200 | the accumulated read size |
| FuzzerState.Fuzzer.OpenEvent | fuzzer/fuzz_open.c:228-449 | the tables after an open that the kernel grants |
| FuzzerState.RandomMmapPickAtRest | fuzzer/fuzz_mmap.c:138-161 | in every state between operations a pick of a mapping finds an active one, which can be unmapped, read or trashed, if and only if there is one, and is -1 otherwise |
| FuzzerState.RandomEventPickAtRest | fuzzer/perf_fuzzer.c:106-121 | in every state between operations a pick of an event gives the index of an active one, which can be closed, if and only if active_events is at least 1 |
| FuzzerState.EveryEventIsPickedOnce | fuzzer/perf_fuzzer.c:106-121 | and each active event is what exactly one x below the counter picks |
| Slots.PickIsOneToOne | fuzzer/perf_fuzzer.c:106-157 | an x picks one slot, and different x different slots |
| Slots.EverySlotIsPicked | fuzzer/perf_fuzzer.c:106-157 | every qualifying slot is picked by its rank, which is below the count |
| Slots.PickExists | fuzzer/perf_fuzzer.c:106-157 | a pick fails exactly for x at or above the count |
| Throttle.Accounting | fuzzer/fuzz_overflow.c:99-156 | after n overflows n is 10001 throttles plus overflows, overflows at most 10000, and n minus throttles were re-armed |
| Throttle.AbandonIff | fuzzer/fuzz_overflow.c:103-122 | the n-th overflow gives up if and only if it ends a period beyond the limit, and is re-armed if and only if it ends none |
| Throttle.FirstGiveUps | fuzzer/replay_log.c:617-642 | the first give-up is the 110,011th overflow after 110,000 re-arms, and in the replayer the 210,021st after 210,000 |
| Throttle.HandlerCounts | fuzzer/fuzz_overflow.c:97-156 | the fuzzer's handler counts for the event it looks up and re-arms or gives up as the counters say |
| Throttle.OpensFresh | fuzzer/fuzz_open.c:247-398 | an event becomes active only by one store of an open, and both its counters are zero then |
| Throttle.OverflowsAccountedFor | fuzzer/fuzz_overflow.c:97-156 | at every point of every run from the start, the overflows handled for an active event since its last open are 10001 throttles plus those counted, at most 10000 |
| Throttle.GivesUpIff | fuzzer/fuzz_overflow.c:119-123 | after any run from the start, the next handled overflow of an active event closes the descriptor exactly if it ends a period and is at least the 110,011th since the open |
| Throttle.ReplayCounters.OurHandler | fuzzer/replay_log.c:610-646 | the replayer's handler on its arrays, clearing the table entry of the replay's descriptor when it gives up |
| Groups.GroupsAreCounted | fuzzer/fuzz_open.c:397-449 | after any opens and closes each active event's number_in_group is one plus the opens that named it since its own, and its read size is the nominal one for that |
| Groups.ReadSizeShortfall | fuzzer/fuzz_open.c:179-200 | the nominal size against the documented one: equal exactly without GROUP or for a group of one |
| FilterGrammar.ChainParses | fuzzer/filter_tracepoint.c:269-313 | the text of a chain is one term of the filter grammar, the chain's tree, whatever follows it |
| FilterGrammar.TextParses | fuzzer/filter_tracepoint.c:269-313 | as a whole filter it parses to that tree, of depth levels, with the larger of 1 and levels comparisons and one operator fewer |
| FilterGrammar.TreeShape | fuzzer/filter_tracepoint.c:269-313 | depth and counts of the tree |
| FilterGenerator.Generator.FindEvent | fuzzer/filter_tracepoint.c:36-45 | the first tracepoint with the number |
| FilterGenerator.Generator.PrintWhitespace | fuzzer/filter_tracepoint.c:91-107 | appends nothing but white space |
| FilterGenerator.Generator.PrintExpression | fuzzer/filter_tracepoint.c:198-250 | in careful mode appends one comparison on one of the fields |
| FilterGenerator.Generator.OpenLevels | fuzzer/filter_tracepoint.c:273-282 | the first loop opens the levels, each perhaps negated |
| FilterGenerator.Generator.CloseLevels | fuzzer/filter_tracepoint.c:284-313 | the second loop fills and closes them |
| FilterGenerator.Generator.MakeTracepointFilter | fuzzer/filter_tracepoint.c:252-319 | succeeds if and only if the first tracepoint with the number exists and has fields; then, in careful mode, for every sequence of random choices the text appended parses to a left-nested chain of as many levels as the first of them picks, rand() modulo max_levels + 1 |

## Left out

- RingProtocol.NothingLostOrTorn: assumes sequentially consistent memory; the barrier before the tail store is commented out at lib/parse_record.c:1150.
- RingRecords.DeliversWhatWasProduced: rings are smaller than 2^31 bytes, beyond which the int that holds head - prev_head wraps (PerfMmapRead.Read keeps that wrap-around).
- PerfMmapRead.DecodeItem: a read beyond a buffer has no meaning in C and is reported as such. A RAW size below zero has one: `offset += size` moves the offset back and the loop goes on from there; the model stops at it, as if undefined.
- PerfMmapRead.PrintRaw: a raw payload is taken to be of neither IBS kind, whose dumps read fixed positions of it.
- PerfMmapRead.Read: the value -1 returned after a failed malloc is not followed into the next call.
- The wording of messages, those of `validate` included, and everything else printed for people: type names, IBS dumps, memory sources.
- PERF_RECORD_READ has a name but no case in the decoder, so it is one of the unhandled kinds.
- Branch stacks with a hardware index or counters, and sample bits above REGS_INTR.
- TraceModel.FollowsOpen: opens always succeed.
- Replayer.Replay.OpenEvent: an open that fails, which leaves the entry as it was, and the two counters that a successful open resets.
- Replayer.Replay.MmapEvent: the entries that keep the address and the size of the mapping, which serve only the trash and munmap lines.
- The non-open log lines are taken as already scanned; only the open line is modelled character by character.
- Comments, spacing and the tracepoint names in the emitted C, and the semicolons that the config printer sends to standard output.
- Replayer.Replay.Dispatch: the lines A, a, p, Q, U, r, S and q (access, affinity, poll, trash, munmap, sample rate, seed and quit) are no part of the model: the two back ends differ on them by design, and the affinity case of the replayer falls through to close. Lines whose descriptors lie outside the table subscript beyond an array in C and are excluded.
- Throttle.ReplayCounters.OurHandler: not combined with the descriptor simulation, since on giving up it clears the entry of the replay's descriptor, not of the logged one.
- SIGIO in the middle of another operation, and MAP_FIXED mappings laid over others.
- SignalSafety.CountsHoldAtRest: munmap is taken to fail exactly for a length of zero.
- FuzzerState.Fuzzer.SetupMmap: mmap flags, and the log lines written on the way.
- FuzzerState.Fuzzer.OpenEvent: opens that fail and are retried, the mapping set up within the open, which the model runs after it as an operation of its own (it stores into other fields), and the signal handler installed for half of the events.
- Groups.GroupsAreCounted: a group_fd that belongs to no active event makes the source write before the array and is excluded, as are descriptors that collide after the handler has closed one that is still marked active.
- Overflow and throttle counters are unbounded, so their wrap-around after 2^31 is not modelled.
- The modes that draw random values but skip the operation, the random choice of attributes, and failing opens that are retried.
- FilterGenerator.Generator.MakeTracepointFilter: the 8192-byte limit of the buffer and the copy handed to the caller; random values are opaque tokens, and but for the number of levels the contract does not say which choice a random number makes; the careless mode is modelled, but nothing is promised of its text.
- crashes, papi helpers, workloads, CPU and cache detection, BPF, and the other tests of the suite: input, output and data tables.
