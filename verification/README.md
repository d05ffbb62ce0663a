# clackd, modelled and verified

clackd is a Linux daemon that talks to programmable keyboards. This project
models its state machines and byte formats in Dafny and proves what they
promise over every run:

- **The VIA driver and its write-coalescing actor.** `ViaFrames` is the 32-byte
  wire protocol, `ViaBoard` a board one operation at a time, and `ViaFirmware`
  the firmware between the two. `ViaTransport` is the transport: a request may
  not arrive, its answer may never come, or come after the host has given up; it
  then waits in the input queue, and a later read gets it. `ViaWire` spells the
  frames out byte by byte. `ViaCoalescer` is the actor and `ViaDirect` the driver
  without it. `ViaRuns` holds what is true of every run of the actor on any board,
  `ViaSchedule` when its timer fires and that its loop serves it, `ViaStorage`
  what the board comes to store and answer; `ViaRefinement` shows that on a fault-free
  board it cannot be told from the unbuffered driver. On a board with faults it
  can: a set is answered before it is written, where the unbuffered driver would
  have reported the failure.
- **The GMK67 driver.** `KeyMatrix` and `KeydefCodec` are its tables and its
  576-byte paged key-definition area, `ShadowState` the host-side keymap,
  `Gmk67Device` the board (a customization flag, a page cursor, two areas), and
  `Gmk67Driver` the transactions, two-phase commit, rollback and read-back;
  `Gmk67Wire` spells these out byte by byte. `Gmk67Runs` says when board and
  shadow agree and what the board shows, `DeviceWorker` puts the per-device
  worker with its debounced commit on top, `WorkerReplies` says what it answers,
  and `WorkerLink` shows that worker to be the one the engine sees.
- **The engine.** `Registry` is the supervisor, command by command; `EngineRuns`
  is every interleaving of supervisor, workers and reconnect tasks,
  `EngineOutcomes` what the handling of each command leaves behind in them,
  `EngineIdentity` whose vendor and product a device goes by, `EngineEvents` what
  subscribers see and what becomes of failed and replaced workers; `Reconnect` is
  the backoff loop.
- **The two HID report-descriptor walkers.** `HidDescriptor` gives the item
  grammar of USB HID 1.11 (sections 6.2.2.2, 6.2.2.3 and 6.2.2.7) as a parser
  with its inverse, and proves both walkers against it; `HidWire` spells the
  items out byte by byte.

What the source keeps in fields and changes in place is a class here; each
method is proved to take exactly a step of a relation on plain values, and the
theorems about whole runs are lemmas over sequences of such steps. Anything
that can fail outside the daemon is left to choose freely: which calls fault,
the order in which a hash map yields its keys, when timers fire, how the engine's
parts interleave.

## What turned out not to hold

Each of these is in the model as the code has it, with the exact condition and,
where it takes a history to get there, a lemma that exhibits one.

- `rollback` does not push the old keymap again. After a failed commit each
  layer has some leading pages of the new keymap over what it held, and it still
  agrees with the confirmed keymap exactly if each edit on those pages restated
  the confirmed value (`Gmk67Runs.RolledBackLayer`; a layer that disagrees:
  `Gmk67Runs.FailedCommitDisagrees`). Layers touched by a failed commit are
  `suspect`; agreement over runs is proved of the rest.
- A failed explicit flush disarms the timer while entries remain. A non-empty
  buffer is unarmed exactly if there was such a flush and no set since
  (`ViaRuns.DeadlineOverRuns`, `ViaRuns.FailedFlushStrands`).
- The echo check cannot refuse a late answer to the very same question, so a
  keymap read can return a code that has been overwritten since
  (`ViaTransport.StaleRead`). It is current exactly if the key is buffered, no
  answer is owed, or the answer longest owed has the key's present code
  (`ViaRuns.ReadIsCurrentIff`); at worst it says what the sets before an earlier
  read of that key said, and never that before some round trip has failed
  (`ViaRuns.ReadsAreTransparent`).
- Nothing ever drains the input queue. Once an answer is owed, every answer read
  pushes another one back, so the transport stays as far behind even when nothing
  fails any more (`ViaRuns.LagPersists`), and from then on a read is answered
  exactly if the answer in front is to a read of that key
  (`ViaRuns.ReadIsAnsweredIff`).
- A lighting write that timed out may have changed the RAM of a channel that no
  save is due for. Every channel is the same in NVRAM and RAM unless it is
  waiting for a save, or a lighting write to it failed and it was not saved since
  (`ViaRuns.DurableOverRuns`); such a failure does harm exactly if the channel
  was not waiting and its RAM changed (`ViaRuns.FailedLightIff`,
  `ViaRuns.FailedLightMayLand`).
- The sets alone do not bound the coalescer's wear on a board that carries writes
  out and does not answer: each flush that stops at a failed write may cost one
  write more
  (`ViaRuns.WearOverRuns`, `ViaRuns.UnacknowledgedWriteRepeats`).
- A dead worker found while dispatching is evicted without a removal event, so
  two additions can follow each other: if and only if such an eviction came
  between (`EngineEvents.EventsAlternate`). The worker's own report, handled after
  that, starts no reconnect; it does exactly if the device's last event is still
  its addition (`EngineEvents.ReportStartsReconnectIff`; a run with both:
  `EngineEvents.EvictionGoesUnannounced`).
- A device unplugged and plugged in again can have two running workers, and an
  error from the one replaced evicts its healthy successor. The worker evicted is
  the one that failed exactly if no other was registered for the device since
  (`EngineEvents.ReportEvictsReporterIff`; a run with both:
  `EngineEvents.ReplacedWorkerEvictsSuccessor`). The worker replaced is given no
  command any more and can only drain its queue (`EngineEvents.OnlyRegisteredIsFed`,
  `EngineEvents.UnreachableOnlyDrains`).
- The unbuffered driver saves no lighting when it is dropped and the coalescer
  does, so the two leave the same NVRAM exactly if the unbuffered one had
  nothing unsaved (`ViaRefinement.CloseAgrees`, `ViaRefinement.UnsavedLightingIsDropped`).
- An accepted GMK67 edit can be lost: a commit that fails, be it by timer, by
  request or at close, rolls back every pending edit. Each edit is committed or
  rolled back, with all others then pending (`DeviceWorker.ClosedWorkerSettledAll`).
- The answer to a lighting write is not checked at all, so a refusal of it goes
  unnoticed, and only of it (`ViaFrames.RefusalIsCaught`).
- Key index 143 shares its slot with the page-check footer
  (`KeydefCodec.ScanInvertsEncode`); the board's own indices stop at 121.
- The feature walker knows no Push or Pop: its Report Count is the standard's
  exactly if no Pop changes the count (`HidDescriptor.CountIsGlobalUnlessPopped`,
  with a descriptor that fools it), and it accepts a Feature item cut short by
  the end of the descriptor.
- A comment puts the reconnect window at roughly 25 seconds
  (`src/engine/mod.rs:351-352`); the constants give 16.3
  (`Reconnect.TotalWindow`).

## Model

| member | source | states |
|---|---|---|
| ViaFrames.ValidateEcho | src/hal/via.rs:187-197 | accepts an answer iff it begins with the expected bytes |
| ViaFrames.ValidateMacroRange | src/hal/via.rs:206-218 | accepts a range iff it fits one frame and ends within the device's buffer |
| ViaFirmware.KeyWriteOnBoard | src/hal/via.rs:419-442 | the set-keycode frame, run by the firmware, sets exactly that key to that code, and its answer passes the echo check |
| ViaFirmware.KeyReadOnBoard | src/hal/via.rs:402-417 | the get-keycode frame changes nothing and the decoded answer is the stored code |
| ViaFirmware.NumbersOnBoard | src/hal/via.rs:271-287 | version, layer-count and macro-size frames decode to the board's own numbers |
| ViaFirmware.ValueReadOnBoard | src/hal/via.rs:503-517 | the lighting read returns the stored 29 value bytes |
| ViaFirmware.ValueWriteOnBoard | src/hal/via.rs:519-537 | the lighting write sets that value, zero padded, in RAM only |
| ViaFirmware.SaveOnBoard | src/hal/via.rs:385-400 | the save frame copies one channel from RAM to NVRAM |
| ViaFirmware.MacroReadOnBoard | src/hal/via.rs:462-482 | a macro read in range returns exactly that slice of the buffer |
| ViaFirmware.MacroWriteOnBoard | src/hal/via.rs:484-501 | a macro write in range replaces exactly that slice and nothing behind the buffer |
| ViaFirmware.RangeCheckIsExact | src/hal/via.rs:199-218 | among chunks a frame can carry, the range check passes exactly those that can never clobber the EEPROM behind the macro buffer |
| ViaFrames.EchoTellsApart | src/hal/via.rs:178-197 | a frame that answers one exchange passes another's echo check iff both have the same header: a desynchronized answer is refused |
| ViaTransport.SameHeaderIffQuestion | src/hal/via.rs:372-537 | a checked exchange shares its header with another iff they are the same question, up to the bytes of a macro chunk |
| ViaFrames.RefusalIsCaught | src/hal/via.rs:385-400 | a 0xFF refusal is caught by every check; a lighting write, which has none, takes it for success |
| ViaFrames.HeadersAreDistinct | src/hal/via.rs:372-537 | two exchanges share a header iff they are equal or write macro chunks of one length at one offset |
| ViaFrames.RequestsAreDistinct | src/hal/via.rs:372-537 | two exchanges share a frame iff they are equal or set one lighting value to data equal up to trailing zeros |
| ViaWire.KeymapOnTheWire | src/hal/via.rs:372-460 | version, layer-count, get- and set-keycode frames, byte by byte |
| ViaWire.StorageOnTheWire | src/hal/via.rs:271-517 | save, lighting-read, macro-size and macro-read frames, byte by byte |
| ViaWire.DataOnTheWire | src/hal/via.rs:484-537 | lighting values and macro chunks follow their headers, zero filled |
| ViaWire.AnswersOnTheWire | src/hal/via.rs:372-517 | where the host finds numbers, codes, values and chunks in an answer |
| ViaWire.EchoedPrefix | src/hal/via.rs:178-197 | how much of each request its answer must repeat: all that precedes the data, and of a lighting write nothing |
| ViaTransport.CheckedIfEchoed | src/hal/via.rs:187-197 | the echo check turns any round trip into one that succeeds only with the request carried out and with the answer longest owed, if any is, provided that is to this very question; else with the answer given now |
| ViaTransport.StaleRead | src/hal/via.rs:310-323 | a device that stalls during a read and a write of one key and then catches up: the next read of the key passes the echo check with the code from before the write |
| ViaTransport.Transport.Roundtrip | src/hal/via.rs:310-323 | one frame out, the oldest waiting answer in: on a board that faults the request may be lost or torn, its answer may never come, or come too late and join the queue |
| ViaTransport.Transport.Asked | src/hal/via.rs:402-417 | succeeds only with this request carried out and with an answer of this board to this very question, now or when it was asked before; without faults, fails only if another answer is in front |
| ViaTransport.Transport.GetProtocolVersion | src/hal/via.rs:373-383 | answers with the board's version or fails |
| ViaTransport.Transport.GetLayerCount | src/hal/via.rs:444-460 | answers with the board's layer count or fails |
| ViaTransport.Transport.GetKeycode | src/hal/via.rs:402-417 | answers with the stored code, or if answers are owed with the one longest owed, which must be to a read of this key |
| ViaTransport.Transport.SetKeycode | src/hal/via.rs:419-442 | lands, or fails having touched at most its own key |
| ViaTransport.Transport.CustomSave | src/hal/via.rs:385-400 | persists one channel, or fails having done that or nothing |
| ViaTransport.Transport.GetLighting | src/hal/via.rs:503-517 | answers with the stored value, or if answers are owed with the one longest owed, which must be to a read of this value |
| ViaTransport.Transport.SetLighting | src/hal/via.rs:519-537 | more than 29 bytes are refused untouched; otherwise whatever answer comes is taken for success, and a failure may have landed |
| ViaTransport.Transport.EnsureMacroBufferSize | src/hal/via.rs:271-287 | the macro buffer's size, remembered or asked for |
| ViaTransport.Transport.GetMacroBuffer | src/hal/via.rs:462-482 | the slice asked for, or the answer to an earlier read of it that was still owed; out of range is a protocol violation |
| ViaTransport.Transport.SetMacroBuffer | src/hal/via.rs:484-501 | replaces the slice; out of range is refused untouched; nothing behind the buffer ever changes |
| ViaCoalescer.SaveTouched | src/hal/via.rs:804-814 | in any order, channels leave the touched set exactly as they are persisted; Ok iff none is left; at most the one that failed is saved besides |
| ViaCoalescer.Coalescer.constructor | src/hal/via.rs:905-938 | starts with an empty buffer, no deadline and nothing touched |
| ViaCoalescer.Coalescer.FlushBuffer | src/hal/via.rs:783-799 | in any order and stopping anywhere: keys that left the buffer are on the board, every other buffered key but the failed one is undisturbed, and at most that one costs a write besides; Ok iff empty |
| ViaCoalescer.Coalescer.Serve | src/hal/via.rs:686-742 | one request is served as the step relation says, with its reply |
| ViaCoalescer.Coalescer.ServeSet | src/hal/via.rs:689-695 | buffers the set and arms the deadline only if it is not armed |
| ViaCoalescer.Coalescer.ServeFlush | src/hal/via.rs:709-726 | lighting is saved only once the keymap has drained; the timer is disarmed either way |
| ViaCoalescer.Coalescer.OnTimer | src/hal/via.rs:745-759 | flushes the keymap only; disarms once drained, re-arms one interval on otherwise; what readers see stays, and a fault-free board drains |
| ViaCoalescer.Coalescer.FinalFlush | src/hal/via.rs:763-770 | one last flush, an event only if it drained something |
| ViaCoalescer.Coalescer.OnClose | src/hal/via.rs:763-776 | one last flush, then one last save whatever the flush did |
| ViaCoalescer.Coalescer.React | src/hal/via.rs:681-761 | one pass of the select loop: a request is served and answered; a wake moves the clock up and ends in the timer iff a deadline was armed and has passed, which on a fault-free board leaves nothing buffered and the hardware holding what readers saw; no wake leaves an expired deadline |
| ViaCoalescer.Coalescer.Awake | src/hal/via.rs:745-759 | the timer is served iff a deadline was armed and has passed |
| ViaCoalescer.Coalescer.Run | src/hal/via.rs:644-777 | for every input sequence the loop ends closed and is a run of the step relation, pass by pass what each input woke, with one reply per request, in order |
| ViaCoalescer.OnlyOwnKeyScribbled | src/hal/via.rs:783-799 | a write that fails in mid-flush disturbs no key but its own, which is still buffered |
| ViaDirect.Driver.Call | src/hal/via.rs:958-1067 | every unbuffered driver call does and answers what the direct relation says |
| ViaCoalescer.FlushKeepsView | src/hal/via.rs:783-799 | hardware overlaid by buffer is unchanged by a flush at every order and failure point; drained, the hardware is the view; a fault-free board drains |
| ViaRuns.ServedMovesView | src/hal/via.rs:686-742 | only a set changes what readers see, and only at its key; a read gives the buffered code, else the answer longest owed, else the board's code, or fails |
| ViaRuns.ViewIsLedger | src/hal/via.rs:644-777 | over every run the view is the initial one overwritten by the accepted sets in order |
| ViaRuns.ReadsAreTransparent | src/hal/via.rs:644-777 | over every run, an answered read gives what the sets before some read of that key said: before this one, if the key is buffered or no answer is owed; answers are owed only once a round trip has failed; only a read of an unbuffered key can fail; after a successful commit, or a timer or close that drained, the hardware holds exactly what the sets say |
| ViaRuns.ReadIsCurrentIff | src/hal/via.rs:696-702 | an answered read is current iff the key is buffered, no answer is owed, or the answer longest owed, which is then to a read of this key, has its present code |
| ViaRuns.ReadIsAnsweredIff | src/hal/via.rs:696-702 | once the board faults no more, a read is answered iff the key is buffered, no answer is owed, or the one longest owed is to a read of this key |
| ViaRuns.LightReadWasTrue | src/hal/via.rs:503-517 | over every run, an answered lighting read gives what the RAM held when a read of that value was asked, now if nothing is owed |
| ViaRuns.MacroReadWasTrue | src/hal/via.rs:462-482 | the same of macro chunks |
| ViaRuns.OwedAreTraced | src/hal/via.rs:310-323 | over every run, each answer owed to a read was asked by an event of that run and true then |
| ViaRuns.OwedOnlyAfterFailure | src/hal/via.rs:310-323 | in every run from an empty queue, answers are owed only once a round trip has failed |
| ViaRuns.LagPersists | src/hal/via.rs:310-323 | in every run in which the board faults no more, as many answers are owed at the end as at the start |
| ViaRefinement.SimulatedStep | src/hal/via.rs:644-777 | each coalescer step on a fault-free board is matched by the unbuffered driver with the same reply |
| ViaRefinement.CoalescingRefinesDirect | src/hal/via.rs:644-777 | every fault-free run, timer flushes anywhere, is matched by a run of the unbuffered driver with the same replies to the same calls, its keymap always the view |
| ViaRefinement.EveryDirectRunAgrees | src/hal/via.rs:644-777 | on a fault-free board every run of the unbuffered driver over the same requests gives the same replies, and after each commit both hardware keymaps are equal |
| ViaRefinement.DirectRepliesAreForced | src/hal/via.rs:958-1067 | on a fault-free board the unbuffered driver has one possible reply and outcome per call |
| ViaRefinement.CloseAgrees | src/hal/via.rs:763-776 | after close both keymaps are equal and nothing is pending; both NVRAMs are equal iff the unbuffered driver had nothing unsaved |
| ViaRefinement.UnsavedLightingIsDropped | src/hal/via.rs:1034-1067 | a fault-free session of one lighting write after which the two NVRAMs differ |
| ViaRuns.ArmedStep | src/hal/via.rs:689-759 | the deadline invariant is kept by every step, and no set moves an armed deadline |
| ViaRuns.DeadlineOverRuns | src/hal/via.rs:689-759 | an armed deadline guards a non-empty buffer and is at most one interval after the later of the oldest set and the last re-arming; a non-empty buffer is unarmed iff an explicit flush failed and there was no set since |
| ViaRuns.FailedFlushStrands | src/hal/via.rs:709-726 | a run of a set and a failed flush that leaves the entry buffered and no timer armed |
| ViaRuns.LatencyIsBounded | src/hal/via.rs:745-759 | on a fault-free board with a punctual timer no buffered set is ever older than one interval |
| ViaSchedule.DeadlineIsExact | src/hal/via.rs:689-759 | over every run, on any board: the deadline is armed iff a set or a firing that did not drain armed it and no flush or drained firing came since, and then lies exactly one interval after that |
| ViaSchedule.TimerIsNeverEarly | src/hal/via.rs:689-759 | in every run a firing comes at least one interval after a set, or a firing that did not drain, with no flush and no firing in between |
| ViaSchedule.LoopDrains | src/hal/via.rs:681-761 | in every fault-free run of the loop, after a wake at or past the deadline nothing is buffered or armed and the hardware holds what the accepted sets say |
| ViaSchedule.LoopIsUrgent | src/hal/via.rs:681-761 | if the inputs wake the loop at each deadline, time never passes an armed deadline unflushed, and no buffered set is ever older than one interval |
| ViaSchedule.AnnouncedOverRuns | src/hal/via.rs:709-776 | over every run a layout update is announced once for each flush that drained, at close only if it drained something, and for nothing else |
| ViaRuns.DurableStep | src/hal/via.rs:709-742 | every step keeps each channel that is neither waiting for a save nor in doubt equal in NVRAM and RAM; nothing is saved while keycodes remain |
| ViaRuns.DurableOverRuns | src/hal/via.rs:709-742 | over every run each channel is equal in NVRAM and RAM unless it is waiting for a save, or a lighting write to it failed and it was not saved since; a successful commit leaves nothing waiting |
| ViaRuns.FailedLightIff | src/hal/via.rs:519-537 | a failed lighting write leaves a durable board durable iff the channel was waiting for a save already or its RAM is unchanged |
| ViaRuns.FailedLightMayLand | src/hal/via.rs:519-537 | on a board that faults any lighting write of a new value may land, be reported failed, and leave RAM and NVRAM apart on a channel nobody will save |
| ViaRuns.DirectKeepsDurable | src/hal/via.rs:1034-1067 | the unbuffered driver keeps the same lighting invariant, call by call |
| ViaRuns.DirectDurableOverRuns | src/hal/via.rs:1034-1067 | and over every run of calls |
| ViaRuns.WearOverRuns | src/hal/via.rs:783-799 | keycode writes carried out, acknowledged or not, plus buffered entries never exceed accepted sets plus flushes that stopped at a failed write; a successful commit costs one write per distinct buffered key |
| ViaRuns.UnacknowledgedWriteRepeats | src/hal/via.rs:745-759 | a write that is carried out and never acknowledged is carried out again at the next deadline |
| ViaRuns.DirectWearOverRuns | src/hal/via.rs:989-1004 | the unbuffered driver writes at most once for each set, whatever fails |
| ViaStorage.LightingIsLast | src/hal/via.rs:733-742 | over every fault-free run each lighting value is the last one accepted for it, zero filled; a write is accepted iff it is at most 29 bytes long |
| ViaStorage.SavingStep | src/hal/via.rs:709-726 | in every step only a commit or a close saves, and only channels that were waiting; a successful commit costs one save for each of them |
| ViaStorage.MacrosAreLast | src/hal/via.rs:727-732 | over every fault-free run each byte of the macro buffer is what the last accepted write over it put there; a chunk is accepted iff it is at most 28 bytes long and ends within the buffer |
| ViaStorage.FixedReadsOverRuns | src/hal/via.rs:703-708 | over every run version and layer count are answered with the board's own or fail, and fail only on a board with faults or answers owed |
| HidDescriptor.ParseIsFaithful | src/hal/via.rs:1200-1256 | the reference grammar loses no byte and stops only at a truncated item |
| HidDescriptor.ParseInvertsSerialized | src/hal/via.rs:1200-1256 | every item list is the parse of its own bytes |
| HidDescriptor.Stepped | src/hal/via.rs:1205-1222 | stepping by the announced length moves over exactly one item, or past a truncated last one |
| HidDescriptor.HasUsagePage | src/hal/via.rs:1200-1256 | on every byte sequence: true iff a complete Usage Page item has the target as its low 16 bits |
| HidDescriptor.HasFeatureReport | src/hal/legacy/gmk67.rs:1138-1185 | on every byte sequence: true iff some Feature item follows a latest Report Count of at least the minimum, or the descriptor ends inside such an item |
| HidDescriptor.CountIsGlobalUnlessPopped | src/hal/legacy/gmk67.rs:1138-1185 | the walker's count is the standard's everywhere iff no Pop changes the count |
| HidDescriptor.PoppedCountIsMissed | src/hal/legacy/gmk67.rs:1138-1185 | a descriptor whose 64-wide Feature the walker takes for one value wide |
| HidWire.ItemsOnTheWire | src/hal/via.rs:1200-1256 | the bytes of every item, and the prefixes that make a Usage Page, Report Count or Feature item |
| HidWire.ValueIsLittleEndian | src/hal/legacy/gmk67.rs:1138-1185 | item data is one number, low byte first |
| HidWire.CountIsLast | src/hal/legacy/gmk67.rs:1138-1185 | the count in force is at least a minimum iff that is zero or the last Report Count item says so |
| KeyMatrix.KeyIndexFor | src/hal/legacy/gmk67.rs:266-272 | a key index is found only on the matrix and lies between 1 and 121 |
| KeyMatrix.KeysAreLocated | src/hal/legacy/gmk67.rs:256-272 | each of the 66 keys is where the vendor layout puts it, and there are no others |
| KeyMatrix.MapsAreInverse | src/hal/legacy/gmk67.rs:256-299 | position-to-index and index-to-position undo each other, both ways |
| KeydefCodec.EncodeKeydefBuffer | src/hal/legacy/gmk67.rs:550-563 | the 576-byte array, slot by slot, with the footer over its end and overflowing indices skipped |
| KeydefCodec.ScanInvertsEncode | src/hal/legacy/gmk67.rs:1049-1064 | scanning an encoded area recovers exactly the entries, zero codes included, iff every index is at most 142 (or asks in slot 143 for the code the footer spells) |
| KeydefCodec.FooterIsNoEntry | src/hal/legacy/gmk67.rs:550-563 | the AA 55 footer closes the last page and is never read as an entry of its own |
| KeydefCodec.PagesAreNotCommands | src/hal/legacy/gmk67.rs:550-563 | no page of an encoded area begins like a framing command |
| KeydefCodec.LayerEntries | src/hal/legacy/mod.rs:254-259 | in any map order, lists each remap of the layer that sits on a key; empty iff there is none |
| KeydefCodec.DecodeInvertsEncode | src/hal/legacy/gmk67.rs:935-957 | the area pushed for a layer decodes to exactly that layer's keymap |
| KeydefCodec.ScanPage | src/hal/legacy/gmk67.rs:1049-1064 | one page's scan adds exactly the keys its 16 slots mark |
| ShadowState.ShadowCache.Load | src/hal/legacy/mod.rs:154-212 | starts from an arbitrary persisted map with nothing dirty |
| ShadowState.ShadowCache.GetKeycode | src/hal/legacy/mod.rs:229-231 | reads the pending edit if there is one, else the confirmed value, else zero |
| ShadowState.ShadowCache.SetKeycode | src/hal/legacy/mod.rs:234-238 | changes keymap and dirty set at one key and keeps the overlay invariant |
| ShadowState.ShadowCache.DirtyLayers | src/hal/legacy/mod.rs:246-251 | exactly the layers with pending edits, ascending, once each |
| ShadowState.ShadowCache.SetLighting | src/hal/legacy/mod.rs:272-274 | changes the lighting and nothing else |
| ShadowState.ShadowCache.PrepareCommit | src/hal/legacy/mod.rs:310-312 | changes the status and nothing else |
| ShadowState.ShadowCache.ConfirmCommit | src/hal/legacy/mod.rs:319-324 | the whole keymap becomes confirmed and nothing is dirty |
| ShadowState.ShadowCache.Rollback | src/hal/legacy/mod.rs:332-337 | the whole keymap reverts to the confirmed one and nothing is dirty |
| ShadowState.ShadowCache.AdoptConfirmed | src/hal/legacy/mod.rs:294-300 | the map read from the device becomes keymap and baseline |
| Gmk67Device.FeatureIo.SetFeature | docs/protocol/epomaker-ek68.md:86-110 | a report is received, or faults having been received or not |
| Gmk67Device.FeatureIo.GetPage | docs/protocol/epomaker-ek68.md:280-324 | the next page of the area being read out |
| Gmk67Driver.Driver.constructor | src/hal/legacy/gmk67.rs:645-663 | starts unsynced, from the shadow's lighting, with nothing sent |
| Gmk67Driver.Driver.AbortTransaction | src/hal/legacy/gmk67.rs:677-689 | one END attempt; if it went out the board has left customization mode |
| Gmk67Driver.Driver.RenderEffectFrames | src/hal/legacy/gmk67.rs:702-722 | sends a prefix of the render script, all of it iff Ok, and leaves the areas alone |
| Gmk67Driver.Driver.RenderEffect | src/hal/legacy/gmk67.rs:694-700 | one transaction: whole if Ok, else a prefix and one END attempt |
| Gmk67Driver.Driver.SendPages | src/hal/legacy/gmk67.rs:735-763 | after any number of pages the area has exactly those pages of the new one over the old |
| Gmk67Driver.Driver.OpenKeydef | src/hal/legacy/gmk67.rs:735-763 | customization on and the area announced: the board then waits for the first page |
| Gmk67Driver.Driver.CloseScript | src/hal/legacy/gmk67.rs:702-763 | end of communication, and the board shows the effect it was given |
| Gmk67Driver.Driver.CommitKeymapFrames | src/hal/legacy/gmk67.rs:735-763 | sends a prefix of the write script, all of it iff Ok |
| Gmk67Driver.Driver.CommitKeymap | src/hal/legacy/gmk67.rs:727-733 | one transaction, whole or closed by an END attempt; Ok means the area is the encoded one, failure a page-wise mix; the other layer is untouched |
| Gmk67Driver.Driver.PushLayer | src/hal/legacy/gmk67.rs:935-957 | one dirty layer goes out with its full keymap, one write transaction more; a layer without remaps is passed over |
| Gmk67Driver.Driver.PushDirtyLayers | src/hal/legacy/gmk67.rs:935-957 | one write per attempted layer, in order, up to the first failure: that layer may be torn, earlier ones decode to the keymap, the rest are untouched |
| Gmk67Driver.Driver.CommitToNvram | src/hal/legacy/gmk67.rs:896-919 | all dirty layers and a confirmed shadow, or a rolled-back shadow; exactly one write of the whole layer is logged for each attempted layer, all whole but the one that failed; a clean shadow sends nothing |
| Gmk67Driver.Driver.GetKeycode | src/hal/legacy/gmk67.rs:780-785 | the latest accepted edit, otherwise the confirmed value |
| Gmk67Driver.Driver.SetKeycode | src/hal/legacy/gmk67.rs:787-810 | accepts exactly the positions that have a key on a writable layer |
| Gmk67Driver.Driver.SetLighting | src/hal/legacy/gmk67.rs:835-858 | a mode that cannot be rendered is refused with nothing sent; otherwise one render transaction; Ok means that the board, reading the mode frame its own way, shows the settings asked for, brightness and speed capped, and that they are kept; on a board without faults Ok iff the mode is 01-13 or 80 |
| Gmk67Driver.ModeFrameReads | src/hal/legacy/gmk67.rs:451-463 | the board reads a mode frame as the settings it was made from, brightness and speed capped |
| Gmk67Driver.Driver.ReadPages | src/hal/legacy/gmk67.rs:1045-1066 | nine pages read cleanly add exactly what the area decodes to |
| Gmk67Driver.Driver.ReadKeydefLayer | src/hal/legacy/gmk67.rs:1034-1071 | sends a prefix of the read script and leaves the areas alone; Ok adds exactly the layer's remaps |
| Gmk67Driver.Driver.SyncLayer | src/hal/legacy/gmk67.rs:1016-1031 | one read transaction, whole or closed by an END attempt |
| Gmk67Driver.Driver.SyncEeprom | src/hal/legacy/gmk67.rs:1016-1031 | adopts what all layers decode to, or leaves the whole shadow unchanged; exactly the reads of the layers reached are logged, all whole but one that failed |
| Gmk67Driver.Driver.MaybeSyncOnAttach | src/hal/legacy/gmk67.rs:996-1009 | opt-in and at most once; a failure is tolerated |
| Gmk67Wire.RenderOnTheWire | src/hal/legacy/gmk67.rs:702-722 | the five reports of a lighting transaction, byte by byte |
| Gmk67Wire.KeydefOnTheWire | src/hal/legacy/gmk67.rs:735-763 | the thirteen reports of a remap transaction: on, nine pages announced for the layer's area, the pages, end, start |
| Gmk67Wire.EntryOnTheWire | src/hal/legacy/gmk67.rs:550-563 | a remapped key sits at four times its index: marker, zero, code low, code high; an unmapped one is zero |
| Gmk67Wire.ReadOnTheWire | src/hal/legacy/gmk67.rs:1034-1071 | the three reports of a read-back transaction |
| Gmk67Runs.StepKeepsAgreement | src/hal/legacy/gmk67.rs:896-957 | set, commit, lighting and read-back, failing anywhere, keep every unsuspected layer's area decoding to its confirmed remaps |
| Gmk67Runs.AgreementOverRuns | src/hal/legacy/gmk67.rs:896-957 | device agreement and the shadow invariants hold over every run that starts with them |
| Gmk67Runs.RolledBackLayer | src/hal/legacy/mod.rs:326-337 | after any failed commit a layer that agreed before still does iff each rolled-back edit on the pages that reached the board restated the confirmed value |
| Gmk67Runs.FailedCommitReplacesFront | src/hal/legacy/gmk67.rs:896-957 | however a commit fails, each layer has some leading pages of the new keymap over what it held |
| Gmk67Runs.FailedCommitOverRuns | src/hal/legacy/gmk67.rs:896-957 | the same of every failed commit in every run, for each layer not under suspicion before it |
| Gmk67Runs.FailedCommitDisagrees | src/hal/legacy/mod.rs:326-337 | an agreeing state and a failed commit after which the base layer disagrees |
| Gmk67Runs.CommitThenReadBack | src/hal/legacy/gmk67.rs:1016-1031 | a fault-free commit and read-back leave the keymap as it was iff every remap is on a key of a layer the read-back reaches |
| Gmk67Runs.CommitIsAtomic | src/hal/legacy/gmk67.rs:896-919 | a commit moves the whole keymap across or none of it; every key of a pushed layer then decodes from the device to its keymap value |
| Gmk67Runs.ReadsOverRuns | src/hal/legacy/mod.rs:229-238 | over every run reads see the latest edit since the last commit attempt or read-back, else the confirmed value |
| Gmk67Runs.SetsAreAcceptedIff | src/hal/legacy/gmk67.rs:787-810 | a set is accepted iff the layer is 0 or 1 and the position is a key of the board |
| Gmk67Runs.StatusOverRuns | src/hal/legacy/mod.rs:233-337 | over every run the shadow's status is pending since an accepted edit, and confirmed or failed as the last commit attempt with edits went |
| Gmk67Runs.LightingOverRuns | src/hal/legacy/gmk67.rs:835-893 | over every run the lighting read back and kept in the shadow is that last accepted, and the board shows it unless a rendering has failed since |
| DeviceWorker.WorkerStaysInStep | src/engine/mod.rs:832-964 | over every run the debounce is armed iff edits are pending; a timer commit never comes within 500 ms of the last accepted set; every commit attempt confirms all pending edits or rolls all of them back; a closed worker leaves none pending, and only a lighting command failing fatally leaves one neither committed nor rolled back |
| DeviceWorker.CommitsSettle | src/engine/mod.rs:850-964 | a timer, explicit or final commit makes the old keymap the confirmed one or the old confirmed one the keymap, and leaves nothing pending |
| DeviceWorker.EditsAreSettled | src/engine/mod.rs:832-964 | from its acceptance on, an edit is pending until some later commit attempt confirms it or rolls it back |
| DeviceWorker.ClosedWorkerSettledAll | src/engine/mod.rs:850-859 | a worker whose channel closed has committed or rolled back every edit it accepted |
| DeviceWorker.StepInStep | src/engine/mod.rs:843-964 | every event keeps worker and shadow in step, and every commit attempt settles all pending edits |
| DeviceWorker.StepIsDriverStep | src/engine/mod.rs:832-964 | whatever the worker does to the driver is one of the driver's own steps |
| DeviceWorker.WorkerKeepsAgreement | src/engine/mod.rs:832-964 | the device agrees with the shadow at every point of every worker run, and after a drained close with everything the shadow holds |
| DeviceWorker.ServedInOrder | src/engine/mod.rs:846-942 | commands are answered once each in arrival order, and a drained worker has answered them all |
| DeviceWorker.WorkerTask.constructor | src/engine/mod.rs:832-841 | starts running with no debounce armed |
| DeviceWorker.WorkerTask.Serve | src/engine/mod.rs:846-942 | serves the oldest command and replies, one step of the relation; a keycode is read from the keymap with its pending edits, the lighting as last set |
| DeviceWorker.WorkerTask.ServeSet | src/engine/mod.rs:865-890 | an accepted set arms the debounce anew, a refused one changes nothing |
| DeviceWorker.WorkerTask.ServeLighting | src/engine/mod.rs:932-941 | a fatal lighting failure retires the worker |
| DeviceWorker.WorkerTask.CommitNow | src/engine/mod.rs:891-905 | a commit disarms the debounce whatever comes of it, announces a layout only on success, and retires the worker iff the device is gone or out of reach |
| DeviceWorker.WorkerTask.OnTimer | src/engine/mod.rs:947-964 | the debounce fires only with nothing queued; a failed commit retires the worker iff the device is gone or out of reach |
| DeviceWorker.WorkerTask.OnClosed | src/engine/mod.rs:850-859 | flushes what is pending and stops |
| DeviceWorker.WorkerTask.Turn | src/engine/mod.rs:843-980 | one turn of the biased select: a queued command first, then the closed channel, then an expired debounce, else nothing |
| WorkerReplies.RepliesOverRuns | src/engine/mod.rs:860-942 | over every run from a clean shadow a read is answered with the code of the last set of that key answered Done since the last commit attempt, else with the confirmed one; a lighting read with the settings last accepted; a set is accepted iff there is a key to remap; macros are refused |
| WorkerReplies.ReplyOfStep | src/engine/mod.rs:860-942 | what each command is answered, told by the state it finds |
| WorkerReplies.CommitMeansWhatItSays | src/engine/mod.rs:891-905 | a commit answered Done has confirmed everything, one refused has rolled everything back; a layout is announced iff a timer or explicit commit went through |
| WorkerReplies.RetiresIff | src/engine/mod.rs:984-998 | a command retires the worker iff its answer says that the device is gone or out of reach |
| WorkerReplies.TimerKeepsDistance | src/engine/mod.rs:829-964 | in every run a timer commit comes at least 500 ms after every set accepted before it |
| WorkerReplies.TimerIsDue | src/engine/mod.rs:829-964 | in every run, while edits are pending, the debounce is due 500 ms after the last accepted set |
| Registry.FateOf | src/engine/mod.rs:590-756 | a dispatched command goes through iff the device is registered, a keymap access has layer, row and column below the topology's, the worker has not exited and fewer than 16 commands wait; the other four fates by the same guards |
| Registry.Supervisor.constructor | src/engine/mod.rs:380-400 | starts with an empty registry |
| Registry.Supervisor.Register | src/engine/mod.rs:466-467 | no live handle is ever overwritten |
| Registry.Supervisor.StartReconnectBackoff | src/engine/mod.rs:1022-1029 | no live cancel sender is ever overwritten; a fresh token modulo 2^64 |
| Registry.Supervisor.DispatchOp | src/engine/mod.rs:590-756 | unknown device, off the matrix, dead worker (evicted), full queue, or queued: each answered or passed on once |
| Registry.Supervisor.OnConnected | src/engine/mod.rs:433-505 | cancels a reconnect and ignores a duplicate; otherwise the device comes in with the topology probed and a fresh running worker if it was attached, is retried under the next token if it went away or may not be opened, and is neither in nor retried else |
| Registry.Supervisor.OnDisconnected | src/engine/mod.rs:506-516 | cancels a reconnect and removes the device |
| Registry.Supervisor.OnError | src/engine/mod.rs:517-535 | evicts the device and starts a reconnect if it was disconnected |
| Registry.Supervisor.OnReattached | src/engine/mod.rs:536-554 | accepts iff the token is the one currently registered for the device |
| Registry.Supervisor.HandleCommand | src/engine/mod.rs:407-588 | every command moves the engine as its relation says and keeps attached and reconnecting disjoint |
| EngineRuns.RegistryAfterHandling | src/engine/mod.rs:433-554 | handling keeps the registry in line with the event history |
| EngineRuns.EngineOverRuns | src/engine/mod.rs:380-980 | in every reachable state: attached and reconnecting are disjoint, a device is attached iff its last event added it, with the worker that event registered, queues stay within 32 and 16, queued keymap accesses fit their worker's topology, and every reply sender is in exactly one place |
| EngineOutcomes.ConnectOutcome | src/engine/mod.rs:433-505 | in every run a handled connect of a device not registered leaves it in with a fresh worker, retried under the next token by a task with its identity, or neither, exactly as the attach went; one registered stays as it is |
| EngineOutcomes.DisconnectOutcome | src/engine/mod.rs:506-516 | in every run a handled disconnect leaves the device neither in nor retried, and no other touched |
| EngineOutcomes.ErrorOutcome | src/engine/mod.rs:517-535 | in every run a handled report evicts the registered device and, if it is gone, retries it under the next token with its own vendor and product |
| EngineOutcomes.ReattachOutcome | src/engine/mod.rs:536-554 | in every run a reattachment under the registered token brings its handle in where none was; under any other it does nothing |
| EngineOutcomes.QuestionOutcome | src/engine/mod.rs:555-580 | in every run the device list, topology and identity are answered from the registry, and nothing else changes |
| EngineOutcomes.DispatchOutcome | src/engine/mod.rs:590-756 | in every run a dispatched command is refused as unknown, off the matrix or busy with nothing else changed, evicts a device whose worker is gone, or goes to the back of the registered worker's queue |
| EngineOutcomes.ShutdownOutcome | src/engine/mod.rs:380-400 | after shutdown nothing is registered or under way |
| EngineOutcomes.WaitingIsBounded | src/engine/topology.rs:57-95 | in every reachable state at most 32 commands wait for the engine and 16 for a worker, and each keymap access among these has layer, row and column below those of its device |
| EngineIdentity.IdentityIsLastConnect | src/engine/mod.rs:433-554 | in every run that starts fewer than 2^64 reconnects, through any failures and reattachments, a registered device goes by the vendor and product of the last connect of it handled while it was out |
| EngineEvents.EventsAlternate | src/engine/mod.rs:732-754 | of consecutive events about a device, a removal is followed by an addition, and an addition by a removal unless, and only unless, an unannounced eviction came between |
| EngineEvents.EventsOverRuns | src/engine/mod.rs:433-554 | the same of every reachable history |
| EngineEvents.FirstEventAdds | src/engine/mod.rs:433-554 | in an alternating history the first event about a device is an addition |
| EngineEvents.FirstEventOverRuns | src/engine/mod.rs:433-554 | in every reachable history the first event about a device is never a removal |
| EngineEvents.ReportStartsReconnectIff | src/engine/mod.rs:517-535 | in every run a failed worker's report removes the device, whichever worker is registered for it, and starts a reconnect iff the device's last event is still its addition when the report is handled; otherwise it changes nothing |
| EngineEvents.ReportEvictsReporterIff | src/engine/mod.rs:517-535 | in every run the worker a report evicts is the one that failed iff no other was registered for the device since that one was; a report always comes from a worker of that device that has exited |
| EngineEvents.ReplacedWorkerEvictsSuccessor | src/engine/mod.rs:517-535 | a run in which a device has two running workers and the report of the one replaced evicts its idle successor |
| EngineEvents.OnlyRegisteredIsFed | src/engine/mod.rs:590-633 | a worker is only ever given a command as the registered one of a device |
| EngineEvents.UnreachableOnlyDrains | src/engine/mod.rs:846-859 | a worker that no handle leads to stays out of reach through every step and its queue only shrinks |
| EngineEvents.EvictionGoesUnannounced | src/engine/mod.rs:745-752 | a run in which a failed worker is evicted by a dispatch, its report starts nothing, and a second addition follows the first |
| EngineRuns.SendersStep | src/engine/mod.rs:590-782 | every step of every part moves reply senders between places without losing or doubling one |
| EngineRuns.OnePlaceOnly | src/engine/mod.rs:590-782 | an issued sender is in one place once and in no other |
| EngineRuns.QueueDropped | src/engine/mod.rs:967-980 | a failed worker's queue is dropped whole, each sender once |
| EngineRuns.HangUpDropsNothing | src/engine/mod.rs:850-859 | a worker nothing can reach any more leaves no sender behind |
| EngineRuns.QueuesStep | src/engine/mod.rs:590-633 | no step lets a queue outgrow its channel or hold an access off the matrix |
| EngineRuns.TokensOverRuns | src/engine/mod.rs:1022-1029 | with fewer than 2^64 reconnects started, every registered token is new, held by one device, unaccepted, and uncancelled since its task started |
| EngineRuns.ReattachIsABAFree | src/engine/mod.rs:536-554 | in every such run an accepted reattachment was started for that device with no connect or disconnect of it handled since, and no token is accepted twice |
| Reconnect.ReconnectTask | src/engine/mod.rs:1047-1121 | in every world the k-th sleep is the capped doubling of the initial delay, at most the limit of them are begun, it stops at the first turn that does not retry, and it ends as that turn says |
| Reconnect.TotalIsBounded | src/engine/mod.rs:1047-1121 | n sleeps add up to at most initial * (2^n - 1) and at most n caps |
| Reconnect.TotalWindow | src/engine/mod.rs:340-353 | with the daemon's constants the sleeps total at most 16300 ms, reached iff all eight are begun |
| WorkerLink.WorkerStepIsEnginePath | src/engine/mod.rs:832-980 | every step of the worker over its driver is a path of the engine's steps for that worker, with one answer per command served |
| WorkerLink.ArrivalIsDispatch | src/engine/mod.rs:590-633 | a command that goes through to the engine's queue arrives at the worker's |
| WorkerLink.ServingAnswersOnce | src/engine/mod.rs:846-942 | serving a command keeps the engine's invariants and leaves its sender answered once and held nowhere else |

## Left out

- hidraw, ioctl and errno handling, tokio's own machinery, and timeouts as such: a call that fails does so with an arbitrary driver error.
- The D-Bus interface, signal pump, udev, systemd and `devices.toml` (`src/ipc`, `src/main.rs`), and `clackctl`.
- JSON save and load of the shadow: loading yields an arbitrary map, and nothing is said about the file.
- Gmk67Driver.Driver.SetLighting: does not model the channel dispatch, the 0-15 scaling and hue conversions, the patching of a VIA channel-3 value or the JSON write, because lighting reaches the driver parsed here.
- Macros on the GMK67, which the driver refuses, and `get_macro_count`, which only asks for a number.
- `get_matrix_dimensions` and its cached version probe, model names, and log lines.
- ViaTransport.Transport.SetLighting: the firmware is taken to handle every channel, so that a refusal that passes for success does not arise at the board; `ViaFrames.RefusalIsCaught` says what the frames would show.
- ViaTransport.Transport.Roundtrip: a frame that was written without error is taken to be carried out, and the input queue to have no bound.
- ViaTransport.Transport.EnsureMacroBufferSize: whether the size is already remembered is left open at every call, so the cache field itself is not modelled.
- Gmk67Device.FeatureIo.GetPage: the paced read between frames is taken not to move the page cursor, and pages are taken to be written through as they arrive.
- Gmk67Device.FeatureIo.SetFeature: the board is taken to tell a mode frame from a framing command by the page-check code at bytes 14 and 15, since a mode frame may begin with the same two bytes as one.
- Gmk67Driver.Driver.SyncEeprom: a board of one layer has its Fn layer left unread; that layer then counts as suspect.
- The VIA board answers for every (layer, row, column) it is asked, as the driver itself checks no bounds.
- DeviceWorker: the driver under the worker is the GMK67 one; with a VIA driver the worker arms no debounce.
- Time: the debounce and the flush deadline fire at some moment after they expire; only ViaRuns.LatencyIsBounded and ViaSchedule.LoopIsUrgent ask for punctuality.
- Registry.Supervisor.HandleCommand: ListDevices answers a set, so the sorting of the ids is not modelled.
- EngineIdentity.IdentityIsLastConnect: like ReattachIsABAFree it stops before the 2^64th reconnect.
- EngineRuns: worker panics, and reconnect tasks or workers still running after shutdown losing their last messages, are only modelled as those messages going nowhere.
- EngineRuns.ReattachIsABAFree: after 2^64 reconnects tokens repeat and the property is lost; the model has the wrap-around, the theorem stops before it.
