# Verified models of the chlib protocol engines

chlib is firmware for the CH559, an 8051 microcontroller. Behind its register
writes stand several small protocol engines: a crash-safe flash store, a USB
host that serves two ports over one bus, a HID report descriptor parser,
AES-128 with LE legacy pairing, a BLE peripheral with its ATT server, and an
I2C, an EP0, a timer and a light-gun engine. This project models them in Dafny and proves what they
promise.

Code that works in place is modelled in place: classes with the same variables,
arrays for the buffers, loops where the source has loops. Each method is proved
against a function or a predicate, and the results about whole runs are lemmas
about those.

| file | models | main results |
|---|---|---|
| Flash.dfy, FlashDurability.dfy | src/flash.c | crash atomicity over every run, exactly for the magics other than 0xffffffff; the store as a byte map |
| AesTables.dfy, Gf256.dfy, Aes.dfy, AesVector.dfy | src/crypto/aes.c | the in-place code is the FIPS 197 cipher over the algebraic S-box, also when input and output are one array; the cipher is a bijection; what each round key byte does, and the standard's example |
| Smp.dfy, SmpPairing.dfy, SmpDriver.dfy | src/ble/smp.c | agreement with an independent initiator, exactly where the code follows the Core specification's tables; safety over every PDU sequence; the life of a bond |
| UsbTransfer.dfy, UsbGraph.dfy, UsbHost.dfy, UsbSchedule.dfy, UsbRoute.dfy, UsbWire.dfy, UsbEnumeration.dfy | src/usb/usb_host.c | bus exclusion and device addressing over every run, and exactly which STALL breaks it; shape and completion of transfers under every interleaving of the two hubs; no device used that has not been addressed and configured; every request byte by byte; termination of the poll loop in every reachable state |
| HidReport.dfy, HidMeaning.dfy | src/usb/hid/hid.c | the cursor loop is a fold over items; fields in range, disjoint and ordered, exactly when no hat switch is counted zero times; which axis goes where; items read back from their bytes |
| Att.dfy, AttServer.dfy, AttClient.dfy, AttPeer.dfy | src/ble/att.c | the record loops refine the responses; all four discovery procedures and long reads are complete over many requests; exactly which writes are taken |
| BlePeripheral.dfy, BleLink.dfy, L2cap.dfy | src/usb/ble/ble_peripheral.c, src/ble/l2cap.c | no packet for the controller is lost or overwritten, bring-up in order, and what a disconnection makes of it; key distribution back to back; framing is read back |
| I2cHost.dfy | src/i2c.c | nine clock pulses per byte under every clock stretching, bits and acknowledgement |
| Ep0.dfy | src/usb/usb_device.c | fragmentation of control IN data |
| Timer3.dfy | src/timer3.c | no torn counter reads |
| Guncon3.dfy | src/usb/hid/hid_guncon3.c | the report cipher is a bijection |

How hardware appears in the models:

- Flash: an erase and the programming of one 16-bit word are atomic steps.
  `Driver.power` counts the steps that still succeed before the supply fails, so
  a call with too little power is a call that the power failure cuts. Programming
  clears bits (`Burn`).
- USB: `Env` is what one call of `fsm` reads: attachment, delay expiry, packet
  completion with the controller's answer, and the interface the configuration
  callback chose. Every answer sequence is allowed. A delay expires at any time.
  One theorem rests on the controller completing no packet while UH_EP_PID is
  zero (`StopsOnZero`).
- I2C: per timer tick the target may hold each of the two lines low.
- Timer: each read of a counter byte happens at some time, in order.
- BLE: `Env` is what one call of `ble_peripheral_poll` meets: the device comes or
  goes, an IN transfer completes with an event or a channel PDU, the bus is idle,
  the host takes the next transfer.
- SMP: the bytes that `random_fill` delivers are parameters.

Where the code and expectations differ, the models follow the code:

- `flash_init` cannot tell the erased pattern from a magic of 0xffffffff, and
  `flash_write` during an unfinished recovery destroys both copies
  (`CrashSafeMagics`, `WriteNeedsRecovery` give the exact conditions).
- A STALL gives the bus back at once (src/usb/usb_host.c:761-768). At the end of
  the poll loop bus exclusion still holds exactly when the transfer was
  SET_ADDRESS, whose hub takes the bus again, the first look at a device, or the
  last one before READY (`StallIsSafeIff`). `StallBreaksExclusion` is a run in
  which it does not, and in `StallLetsBothDrive` that run goes on to two
  transfers in flight.
- A hub that notices a detach clears UH_EP_PID even when the other hub owns the
  bus (src/usb/usb_host.c:878); `Fsm` states this one exception to "a non-owner
  writes nothing that is shared". The packet on the bus is never started again,
  and its hub keeps the bus for nothing (`DetachStrandsTransfer`); `StrandByDetach`
  runs the host into it.
- A finished control IN transfer reports the length that was asked for, because
  its status stage sets `transaction_size` to zero; that is the number of bytes
  received exactly when the device sent them all (`ControlReport`,
  `ShortTransferReportsAll`).
- With a packet size of zero an empty packet counts as a full one, and an IN
  data stage need not end (`EmptyPacketsNeverEnd`).
- A hat switch with a Report Count of zero is recorded past the end of the report
  (`SoundIffHatsCounted`).
- Usages stay behind an Input item, where HID 1.11 section 6.2.2.8 ends them: later
  fields without a usage can take the slots of X and Y (`UsagesCarryOver`).
- `usb_host_hub_switch` restarts at SET_ADDRESS from any state, which is safe
  exactly for a hub off the bus and past its first pass (`HubSwitchIsSafeIff`,
  `SafeSwitchIsSound`). Any other switch ends with a bus that nobody can take or a
  detach that nobody notices (`UnsafeSwitchBreaks`, and the runs
  `SwitchInFirstPass`, `SwitchWhileResetting`, `SwitchWhileOwning`).
- A long read by a client that knows only the MTU is complete exactly when the
  server's buffer is no smaller or the value fits the first reply
  (`LongReadByMtuIff`, and `LongReadCutShort` for a value that is cut short).
- `l2cap_parse` adds its two lengths in 16 bits; what it takes lies inside the data
  exactly when the length field is below 0xfff8 (`AcceptedIsInsideIff`,
  `WrappedIsAccepted`).
- Tables 2.6 and 2.8 of the Core specification (Vol 3 Part H) let the IO
  capabilities choose the method as soon as either side wants MITM;
  `on_pairing_request` asks for both (src/ble/smp.c:242-253). Code and tables
  agree exactly when no passkey is set, the initiator wants MITM, or it has no
  keyboard (`TableFollowedIff`); a central with a keyboard that only asks for
  bonding is `TableNotFollowed`.
- A DisconnectionComplete event during bring-up enables advertising at once
  (src/usb/ble/ble_peripheral.c:345-352): the step under way is never confirmed
  and the ones behind it are never sent (`StepsSkipped`, `AllConfirmedIff`);
  `DisconnectedEarly` runs the driver through it.
- A client can set an MTU of zero (src/usb/ble/ble_peripheral.c:366-372). The bound
  of a read reply, MTU - 1 in a byte, is then 255 and no longer the buffer's
  (`ReplyInBufferIff`, `MtuZeroOverruns`).

## Model

| member | source | states |
|---|---|---|
| Flash.Driver.Erase | src/flash.c:35-43 | one atomic step: all cells 0xff, or nothing when the power is gone |
| Flash.Driver.Program | src/flash.c:51-61 | one atomic step programs a word, clearing bits only; nothing when the power is gone |
| Flash.PartialStep | src/flash.c:51-61 | programming the next word down of an erased tail is assignment, so every word is erased when it is programmed |
| Flash.FormatStep | src/flash.c:89-102 | the same for the two words of the magic on a freshly erased block |
| Flash.Driver.Restore | src/flash.c:45-64 | wherever the power fails, the data block is untouched, or the erased block with the top words of the back-up; complete after one erase and 512 words |
| Flash.Driver.Init | src/flash.c:72-105 | leaves exactly the store of the recovery decision cut after the steps the power allowed, and tells the result |
| Flash.Driver.Format | src/flash.c:83-105 | erases and programs the magic in two words, cut wherever the power fails |
| Flash.Driver.BackUp | src/flash.c:122-140 | the back-up block gets the new image from the top down, the old data block untouched |
| Flash.Driver.Write | src/flash.c:117-146 | refuses to touch the magic; otherwise back-up then data block, cut after the steps the power allowed |
| Flash.Driver.Read | src/flash.c:148-155 | returns the bytes from the offset on, also those behind the block, exactly when the data block shows the magic |
| FlashDurability.PartialShowsMagic | src/flash.c:122-144 | because the magic goes in last, a copy cut short that shows it is the whole image |
| FlashDurability.FormatIsAtomic | src/flash.c:83-105 | a cut format shows nothing or the complete formatted block |
| FlashDurability.InitIsAtomic | src/flash.c:66-105 | an init cut anywhere keeps the recoverable image or has had its whole effect; one that returns true leaves a valid data block |
| FlashDurability.WriteIsAtomic | src/flash.c:117-146 | the recoverable image is the new one exactly from the step that completes the back-up on |
| FlashDurability.RunIsFold | src/flash.c:45-146 | over every run of inits and writes cut at any points, the recoverable image is the fold of calls applied whole or not at all, with every call that returned applied |
| FlashDurability.CrashAtomicity | src/flash.c:45-146 | the same from any contents of the two blocks: all-or-nothing durability, no stale back-up comes back |
| FlashDurability.BootRecovers | src/flash.c:72-105 | an uninterrupted init puts the recoverable image into the data block and returns true exactly when there is one or it was forced |
| FlashDurability.CrashSafeMagics | src/flash.c:45-146 | crash atomicity holds for all stores and runs if and only if the magic is not 0xffffffff |
| FlashDurability.ErasedMagicLosesData | src/flash.c:72-82 | the run that breaks atomicity when the magic is the erased pattern |
| FlashDurability.WriteNeedsRecovery | src/flash.c:117-146 | on a recoverable store a write works if and only if the data block already shows the magic, and otherwise destroys both copies |
| FlashDurability.FoldIsByteMap | src/flash.c:129-133 | each byte of the image is what the latest applied write that covers it put there, and untouched bytes stay |
| FlashDurability.StoreIsByteMap | src/flash.c:117-155 | over crash-free writes the data block is a plain byte map, for every magic |
| FlashDurability.WriteAnswer | src/flash.c:117-146 | a write that returns true has put its bytes where they belong and left all others alone; one that returns false was aimed at the magic and has changed nothing |
| AesTables.SboxInverse | src/crypto/aes.c:7-41 | the substitution table is a permutation with the inverse table of FIPS 197 |
| AesTables.SboxIsAffineInverse | src/crypto/aes.c:7-41 | every entry is the S-box of FIPS 197 section 5.1.1: the affine image of the multiplicative inverse of its index in GF(2^8), that of zero the image of zero |
| AesTables.AffineInverse | src/crypto/aes.c:7-41 | the affine transformation of section 5.1.1 is a bijection with the stated inverse |
| Gf256.MixInverse | src/crypto/aes.c:95-107 | the column matrix of FIPS 197 section 5.3.3 undoes that of section 5.1.3, byte by byte, for all columns |
| Gf256.UnmixInverse | src/crypto/aes.c:95-107 | and the other way round |
| Aes.RconTable | src/crypto/aes.c:43-45 | the constants are the powers of x in the field |
| Aes.ExpandKey | src/crypto/aes.c:51-73 | the array is the key schedule of FIPS 197 section 5.2 |
| Aes.NextWord | src/crypto/aes.c:56-71 | one round of the loop stores the next word of the schedule and changes nothing before it |
| Aes.SubBytesInPlace | src/crypto/aes.c:116-118 | the substitution on every byte |
| Aes.ShiftRowsInPlace | src/crypto/aes.c:75-93 | the chain of moves is the cyclic shift of row r by r |
| Aes.MixTrick | src/crypto/aes.c:101-105 | the doubling trick is a row of the matrix product of section 5.1.3 |
| Aes.MixColumnsInPlace | src/crypto/aes.c:95-107 | the loop multiplies every column by the matrix |
| Aes.AddRoundKeyInPlace | src/crypto/aes.c:121-123 | the round key added |
| Aes.EncryptBlock | src/crypto/aes.c:109-132 | the output is the FIPS 197 cipher of the input, also when both are the same array |
| Aes.RoundInverse | src/crypto/aes.c:115-124 | a full round and its inverse cancel, in either order |
| Aes.CipherInverse | src/crypto/aes.c:109-132 | under every round key array the inverse cipher of section 5.3 undoes the cipher and is undone by it: encryption is a bijection |
| AesVector.Example | src/crypto/aes.c:43-132 | key expansion and cipher give the cipher text of FIPS 197 Appendix B for its key and plain text, through every value of its table |
| AesVector.RoundKeysOfExample | src/crypto/aes.c:43-73 | the expanded key of the example, which also fixes the ten round constants |
| AesVector.LaterKeysWait | src/crypto/aes.c:115-124 | bytes 16 n + 16 and up of the round keys do not matter before the rounds behind n |
| AesVector.RoundKeyByte | src/crypto/aes.c:121-123 | round n adds each of the bytes 16 n to 16 n + 15 to the byte in its place and to no other |
| AesVector.LastKeyByte | src/crypto/aes.c:126-131 | for all keys and plain texts: changing byte 160 + i of the round keys changes byte i of the cipher text by as much, and no other |
| AesVector.FirstKeyIsPlain | src/crypto/aes.c:112-114 | changing byte i of the round keys acts as the same change of byte i of the plain text |
| SmpDriver.ScheduleIsUnique | src/crypto/aes.c:51-73 | the round keys are determined by the key |
| SmpDriver.Responder.EnsureTkKeys | src/ble/smp.c:88-103 | keeps the cached key, or expands the TK of the session's pairing mode |
| SmpDriver.Responder.ComputeC1 | src/ble/smp.c:123-143 | the buffer, used in place throughout, ends as c1 of Core Vol 3 Part H section 2.2.3 |
| SmpDriver.Responder.ComputeS1 | src/ble/smp.c:147-155 | the buffer ends as s1 of section 2.2.4 |
| SmpDriver.Responder.Initialize | src/ble/smp.c:157-173 | the session of a new connection, with the bond kept and the key cache dropped |
| SmpDriver.Responder.OnPairingRequest | src/ble/smp.c:215-259 | session and reply follow the request function |
| SmpDriver.Responder.Negotiate | src/ble/smp.c:227-253 | the response PDU, and Just Works unless both want MITM, the peer has a keyboard and there is a passkey |
| SmpDriver.Responder.OnPairingConfirm | src/ble/smp.c:261-287 | session and reply follow the confirm function, the reply reversed to wire order in place |
| SmpDriver.Responder.OnPairingRandom | src/ble/smp.c:289-317 | session and reply follow the random function: compare, then derive the STK |
| SmpDriver.Responder.HandlePdu | src/ble/smp.c:319-347 | the dispatcher follows the session function for every PDU, also empty, malformed and unknown ones, in a buffer with room for the reply |
| SmpDriver.RoomIsEnough | src/ble/smp.c:319-347 | no reply is longer than the room its PDU needs, and every reply that is not a failure fills it |
| SmpDriver.Responder.NextPhase3Pdu | src/ble/smp.c:355-389 | key distribution follows the session function |
| SmpDriver.Responder.Lookup | src/ble/smp.c:391-412 | finds the LTK for exactly the bonded EDIV and Rand |
| SmpPairing.C1WireIsC1 | src/ble/smp.c:119-143 | c1 on integers kept least significant byte first is the reversal of the code's c1 on reversed inputs |
| SmpPairing.S1WireIsS1 | src/ble/smp.c:145-155 | the same for s1 |
| SmpPairing.PairingAgreement | src/ble/smp.c:215-317 | for all addresses, randoms and passkeys an honest initiator that follows Tables 2.6 and 2.8, and whose TK is the number the user typed or zero, least significant byte first, accepts the responder, and both end with one STK, whenever the code follows the tables |
| SmpPairing.SameTkAgrees | src/ble/smp.c:261-317 | the same for every request and an initiator that has the responder's TK |
| SmpPairing.TableFollowedIff | src/ble/smp.c:229-253 | the code chooses Passkey Entry exactly as Tables 2.6 and 2.8 do if and only if no passkey is set, the initiator wants MITM, or it has no keyboard |
| SmpPairing.TableTkIff | src/ble/smp.c:84-103 | for every passkey from 1 to 999999 the TK of the tables is the TK of the code in exactly those cases |
| SmpPairing.TableNotFollowed | src/ble/smp.c:242-253 | a request for which the tables ask for the passkey and the code goes on with a TK of zero |
| SmpPairing.TkIsPasskey | src/ble/smp.c:84-103 | read as one number, most significant byte first, the TK of Passkey Entry is the low 24 bits of the passkey, so any passkey of six digits itself, and that of Just Works is zero |
| SmpPairing.ResponseOffers | src/ble/smp.c:227-241 | the seven bytes of a Pairing Response, for every passkey |
| SmpPairing.AnswerOf | src/ble/smp.c:208-347 | exactly which PDUs in which phase get which failure code, no answer, or the answer of the step, and which make the session fail |
| SmpPairing.ConfirmBinds | src/ble/smp.c:123-143 | under one key and one set of addresses and PDUs two confirm values agree if and only if the randoms do |
| SmpPairing.OnlyTheCommittedRandom | src/ble/smp.c:289-317 | after an honest confirm exactly the committed random PDU leads to STK_READY, any other to a failure with the reason Confirm Value Failed |
| SmpPairing.InitiatorRejectsOthers | src/ble/smp.c:275-278 | an initiator accepts a responder random if and only if it is the one the confirm was made for |
| SmpPairing.OutOfOrderIsHarmless | src/ble/smp.c:261-268 | a PDU that is malformed, unknown or out of order changes no session field |
| SmpPairing.PairingSafety | src/ble/smp.c:215-347 | over every PDU sequence STK_READY means a request, then a confirm, then a random, no restart since; mconfirm is c1 of mrand and stk is s1 of the two randoms under the key held |
| SmpPairing.FirstPairingTk | src/ble/smp.c:88-103 | within the first pairing after smp_init the key held is the TK that the one request negotiated |
| SmpPairing.BondSavedAndLoaded | src/ble/smp.c:175-206 | what is saved is what is loaded; with nothing loaded no key is found |
| SmpPairing.BondSurvives | src/ble/smp.c:157-206 | reconnects, reloads of the saved bond into any session and any PDU but a pairing request keep the bond |
| SmpPairing.DistributionRoom | src/ble/smp.c:355-389 | which PDU of key distribution needs how much room, and that one without room waits |
| SmpPairing.EveryConnectionPairs | src/ble/smp.c:157-173 | on every new connection, whatever the session went through before, nothing is taken before a request, and what the first pairing ends with is distributed from the LTK on |
| SmpPairing.BondRoundTrip | src/ble/smp.c:355-412 | a first pairing distributes LTK, then EDIV and Rand, then nothing; ever after, also behind power cycles, the LTK is found under exactly that EDIV and Rand |
| UsbTransfer.SetupShape | src/usb/usb_host.c:276-296 | a transfer starts with the eight request bytes in the packet buffer, DATA0 and nothing left to send |
| UsbTransfer.StepShape | src/usb/usb_host.c:740-865 | every answer of the device keeps the shape of the transfer |
| UsbTransfer.ControlTransferShape | src/usb/usb_host.c:740-865 | whatever NAKs interleave, a finished transfer was SETUP, its data stage, and an empty packet the other way (USB 2.0 section 8.5.3), set up with the toggles DATA0, DATA0 then automatic, and automatic, and IN data lies in `buffer` unchanged, ended by a short packet or a satisfied request |
| UsbTransfer.TransferCompletes | src/usb/usb_host.c:740-829 | without STALL or error a transfer is finished once the device has answered as many packets as the data takes and two more, whatever NAKs interleave |
| UsbTransfer.EmptyPacketsNeverEnd | src/usb/usb_host.c:770-776 | with a packet size of zero a device that sends nothing keeps an IN data stage open for ever |
| UsbTransfer.ControlReport | src/usb/usb_host.c:699-707 | a finished control IN transfer reports the length that was asked for, which is the number of bytes received if and only if the device sent all of them |
| UsbTransfer.ShortTransferReportsAll | src/usb/usb_host.c:699-707 | a device that answers a request with one short packet: the transfer is finished and reports more than has come in |
| UsbTransfer.InTransferGathers | src/usb/usb_host.c:1093-1105 | an IN transfer gathers its packets in `buffer` in order and unchanged, up to the STALL that overwrites the first byte, and also when a NAK ends it |
| UsbTransfer.ReadingReports | src/usb/usb_host.c:699-707 | and reports exactly how many bytes they were, unless a transmission error has halted it |
| UsbGraph.MoveKeepsGood | src/usb/usb_host.c:323-865 | every move of every state handler keeps the ownership invariant of its hub, and what it sends it sends as the owner |
| UsbGraph.StallIsSafeIff | src/usb/usb_host.c:761-768 | at the end of the poll loop in which a transfer is stalled the lock names a hub exactly when it uses the bus, if and only if the transfer was SET_ADDRESS, the first look at a device, or the last before READY |
| UsbGraph.StallThenMove | src/usb/usb_host.c:761-768 | behind a STALL the loop makes one move more, which takes the bus again exactly for SET_ADDRESS |
| UsbGraph.StallBreaksExclusion | src/usb/usb_host.c:761-768 | a run from the start in which a stalled request for the device descriptor leaves the bus free and its hub reading strings |
| UsbGraph.StallLetsBothDrive | src/usb/usb_host.c:761-768 | the same run goes on to a state in which both hubs have a transfer in flight |
| UsbGraph.HubSwitchIsSafeIff | src/usb/usb_host.c:1151-1154 | a hub switch keeps the invariant of its hub if and only if the hub is off the bus, not resetting and past its first pass |
| UsbGraph.SwitchWhileOwning | src/usb/usb_host.c:1151-1154 | a run with a switch during a transfer: the hub waits for ever for the bus it has |
| UsbGraph.SwitchInFirstPass | src/usb/usb_host.c:1151-1154 | a run with a switch during the first pass: the hub ends waiting for ever for the bus it has |
| UsbGraph.SwitchWhileResetting | src/usb/usb_host.c:1151-1154 | a run with a switch during the second reset: the hub has a transfer in flight and no call notices that its device goes |
| UsbGraph.SafeSwitchIsSound | src/usb/usb_host.c:1151-1154 | behind a switch of a hub off the bus, not resetting and past its first pass, every further run keeps the lock with the hub that uses the bus and frees it on a detach |
| UsbGraph.UnsafeSwitchBreaks | src/usb/usb_host.c:1151-1154 | behind any other switch, unless the other hub has the bus, at most three more calls of its own end in a state where one of the two fails |
| UsbGraph.NextKeepsInv | src/usb/usb_host.c:867-970 | every call of fsm without a harmful STALL, of a transfer entry point or of a safe hub switch keeps the invariant of both hubs |
| UsbGraph.BusExclusion | src/usb/usb_host.c:216-239 | over every run without a harmful STALL or an unsafe hub switch the lock names a hub exactly when that hub is in a bus-using state, so never both; inside a poll loop only the owner has a transfer in flight |
| UsbGraph.DetachFreesBus | src/usb/usb_host.c:867-884 | a hub that owns the bus is never resetting, so its next fsm call notices a detach and frees the bus |
| UsbGraph.LoopEndSettles | src/usb/usb_host.c:1059-1066 | a poll loop never stops in a state that still has to give the bus back or take it again |
| UsbGraph.LoopDescends | src/usb/usb_host.c:1059-1066 | each repetition of the poll loop lowers an explicit rank on states, as delays and transfers never lead into a delay or a transfer at once, also where the bus is used without the lock |
| UsbGraph.NextKeepsLive | src/usb/usb_host.c:867-970 | every call of fsm, of a transfer entry point or of a hub switch keeps what the rank rests on, STALLs and unsafe switches included |
| UsbGraph.EveryLoopEnds | src/usb/usb_host.c:1059-1066 | over every run, whatever STALLs and switches it holds, and wherever it has come to, a poll loop calls fsm at most three times |
| UsbHost.Owner | src/usb/usb_host.c:216-239 | a hub in a bus-using state that is not giving the bus back holds the lock |
| UsbHost.AddressKept | src/usb/usb_host.c:382-424 | USB_DEV_AD is zero while the owner's device has no address and that device's address afterwards, and SET_ADDRESS carries the address of its hub, whichever handler runs and also behind a STALL that does no harm |
| UsbHost.WalkEnds | src/usb/usb_host.c:522-559 | the descriptor walk ends when every descriptor has a length |
| UsbHost.PollStep | src/usb/usb_host.c:1059-1066 | one call of fsm descends in rank or settles, in every state there is |
| UsbHost.HandledApplies | src/usb/usb_host.c:867-970 | what a handler does to the variables is one move of the two-hub graph |
| UsbHost.StepKeepsSane | src/usb/usb_host.c:867-970 | one call of fsm keeps bus ownership and addressing of both hubs, unless the device answers with a STALL that does harm |
| UsbHost.NonOwnerKeepsShared | src/usb/usb_host.c:867-970 | under bus ownership a hub that has the bus neither before nor after a call leaves engine, buffer, templates, strings and address alone, and clears UH_EP_PID exactly when it notices a detach |
| UsbHost.Host.LockTransaction | src/usb/usb_host.c:220-232 | takes a free bus and sets the device address; refuses otherwise |
| UsbHost.Host.UnlockTransaction | src/usb/usb_host.c:234-239 | only the owner frees the bus |
| UsbHost.Host.FindString | src/usb/usb_host.c:241-249 | the first string index that is not zero |
| UsbHost.Host.TransactCont | src/usb/usb_host.c:251-274 | the next 64 bytes at most move into the packet buffer, for the same endpoint and with the given toggle |
| UsbHost.Host.Transact | src/usb/usb_host.c:276-288 | a transfer begins with its first packet, its toggle and its report state |
| UsbHost.Host.SetupTransfer | src/usb/usb_host.c:290-296 | a control transfer begins with the SETUP packet of the request |
| UsbHost.Host.StateIdle | src/usb/usb_host.c:323-330 | waits, or debounces a new device; changes nothing else |
| UsbHost.Host.StateConnect | src/usb/usb_host.c:332-346 | resets the port and forgets a switched address |
| UsbHost.Host.StateEnable | src/usb/usb_host.c:359-380 | goes on to the first look or to SET_ADDRESS once the device is back |
| UsbHost.Host.StateSetAddress | src/usb/usb_host.c:382-392 | takes the bus under address zero and sends the hub's address, or waits |
| UsbHost.Host.StateSetAddressDone | src/usb/usb_host.c:394-400 | keeps the bus under the new address |
| UsbHost.Host.StateGetDeviceDesc | src/usb/usb_host.c:402-412 | asks for 8 bytes on the first pass, which takes the bus, and for 18 later |
| UsbHost.Host.StateGetDeviceDescRecv | src/usb/usb_host.c:414-450 | first pass: packet size, bus given back, second reset; later: class, boot support, ports, strings and fresh templates |
| UsbHost.Host.StateGetStringDesc | src/usb/usb_host.c:452-463 | asks for the first string left, or goes on at once when there is none |
| UsbHost.Host.StateGetStringDescRecv | src/usb/usb_host.c:465-492 | asks for the rest of a string once, then crosses it off |
| UsbHost.Host.WalkConfiguration | src/usb/usb_host.c:521-559 | hub and HID template are those of the descriptor fold, and it hangs exactly when the fold has no end |
| UsbHost.Host.StateGetConfigurationDescRecv | src/usb/usb_host.c:501-562 | asks again until the length agrees, then reads header and descriptors; hangs only on a descriptor of length zero |
| UsbHost.Host.StateSetConfiguration | src/usb/usb_host.c:564-569 | sends the configuration value |
| UsbHost.Host.StateSetConfigurationDone | src/usb/usb_host.c:571-579 | every data toggle goes back to DATA0 |
| UsbHost.Host.StateSetFeature | src/usb/usb_host.c:581-592 | skips or sends the wake-up request, without retry, and goes on by device class |
| UsbHost.Host.StateExtraSetup | src/usb/usb_host.c:594-600 | hub, boot protocol or report descriptor, in this order |
| UsbHost.Host.StateHidSetProtocol | src/usb/usb_host.c:618-624 | boot protocol for keyboards, report protocol otherwise |
| UsbHost.Host.StateHidSetProtocolDone | src/usb/usb_host.c:626-631 | only a device in report protocol is asked for its report descriptor |
| UsbHost.Host.StateGetHubDescRecv | src/usb/usb_host.c:639-651 | asks again until the length agrees, then notes the number of ports |
| UsbHost.Host.StateSetPortPowerFeature | src/usb/usb_host.c:653-663 | powers the current port, or goes on behind the last |
| UsbHost.Host.StateClearPortConnectionFeature | src/usb/usb_host.c:671-680 | clears the current port, or is done behind the last |
| UsbHost.Host.StateDone | src/usb/usb_host.c:688-692 | gives the bus back |
| UsbHost.Host.StateInRecv | src/usb/usb_host.c:699-707 | passes on the asked minus the remaining size, clears the retry flag and gives the bus back |
| UsbHost.Host.StateOutDone | src/usb/usb_host.c:709-713 | gives the bus back |
| UsbHost.Host.StateHidGetReport | src/usb/usb_host.c:715-724 | passes a report on unless the transfer ended in a NAK, clears the retry flag and gives the bus back |
| UsbHost.Host.StateDelay | src/usb/usb_host.c:726-738 | waits, or goes to the state the delay was for |
| UsbHost.Host.StorePacket | src/usb/usb_host.c:747-759 | received bytes go behind those already there |
| UsbHost.Host.Decide | src/usb/usb_host.c:747-828 | the decisions on a completed packet are those of the transfer model |
| UsbHost.Host.StateTransaction | src/usb/usb_host.c:740-829 | nothing before completion; then the engine, the hub and the move follow the verdict |
| UsbHost.Host.StateTransactionIn | src/usb/usb_host.c:831-838 | opens an IN data or status stage with the toggle of that stage |
| UsbHost.Host.StateTransactionOut | src/usb/usb_host.c:840-847 | opens an OUT data or status stage with the toggle of that stage |
| UsbHost.Host.StateTransactionCont | src/usb/usb_host.c:855-858 | issues the next packet |
| UsbHost.Host.StateTransactionRetry | src/usb/usb_host.c:860-865 | issues the same packet again, the engine unchanged |
| UsbHost.Host.CheckAttached | src/usb/usb_host.c:867-884 | a detached hub goes idle, stops the packet and frees the bus if it owns it |
| UsbHost.Host.Dispatch | src/usb/usb_host.c:886-970 | every state is served by its handler: the hub's data, the shared data and the branch taken are functions of the data before and of what was read from the hardware |
| UsbHost.Host.Fsm | src/usb/usb_host.c:867-970 | from every state, attach check and handler are one step of the graph with its whole effect on the data; it keeps all invariants unless the device answers with a STALL that does harm, and what termination rests on always; it hangs only on a descriptor of length zero |
| UsbHost.Host.Poll | src/usb/usb_host.c:1059-1066 | from every state there is, also behind STALLs that do harm, at most three fsm calls; it hangs only when some descriptor on the walk has length zero; the other hub is untouched and no bus is left to give back; the ownership invariants are kept unless the first call meets a STALL that does harm |
| UsbHost.Host.UsbHostSetup | src/usb/usb_host.c:1076-1091 | taken exactly when the hub is ready and the bus free: SETUP of the request, the OUT data in front of `buffer`, all other data unchanged; otherwise nothing changes |
| UsbHost.Host.UsbHostIn | src/usb/usb_host.c:1093-1119 | the same for IN packets, with the asked size noted and no retry |
| UsbHost.Host.UsbHostOut | src/usb/usb_host.c:1121-1130 | the same for OUT packets, with the data and the toggle of the endpoint |
| UsbHost.Host.UsbHostHidGetReport | src/usb/usb_host.c:1132-1149 | the same for a HID report request with type, id, interface and size, with retry, for HID devices only |
| UsbHost.Host.UsbHostHubSwitch | src/usb/usb_host.c:1151-1154 | any hub goes to SET_ADDRESS under the new address; every invariant is kept for a hub off the bus, not resetting and past its first pass |
| UsbSchedule.OtherKeepsBus | src/usb/usb_host.c:216-239 | while a hub has the bus the other one's fsm neither takes it nor touches the engine, whatever its device does; on its detach it clears UH_EP_PID |
| UsbSchedule.RunDrives | src/usb/usb_host.c:867-970 | over every interleaving of the two hubs' fsm calls, until the transfer reports, the packets on the bus and the engine are those that the transfer on its own makes of the device's answers |
| UsbSchedule.ScheduledControlTransfer | src/usb/usb_host.c:740-970 | so a control transfer between calls of the other hub has the shape of USB 2.0 section 8.5.3 on the bus and its data in `buffer`, and reports as the owner of the bus |
| UsbSchedule.ScheduledTransferCompletes | src/usb/usb_host.c:740-970 | without STALL or error it lasts for fewer answers than the packets of its data and two more, and leaves the hub in its report state as the owner of the bus |
| UsbSchedule.SetupIsCarriedOut | src/usb/usb_host.c:1076-1091 | an accepted usb_host_setup is carried out in this way and reports the length asked for |
| UsbSchedule.ScheduledInTransfer | src/usb/usb_host.c:1093-1105 | over every interleaving of the two hubs' fsm calls what comes in on the bus for an IN transfer lies in `buffer` and is what is reported, also when a NAK ends the transfer |
| UsbSchedule.InIsCarriedOut | src/usb/usb_host.c:1093-1105 | so it is for an accepted usb_host_in, which does not retry |
| UsbSchedule.PayloadIsSent | src/usb/usb_host.c:1076-1091 | the OUT data on the bus is the caller's |
| UsbSchedule.RequestDrives | src/usb/usb_host.c:382-686 | and so is every request that a handler sends during enumeration |
| UsbSchedule.SenderOwns | src/usb/usb_host.c:251-296 | whatever a handler sends it sends as the owner of the bus |
| UsbSchedule.DescriptorAsSent | src/usb/usb_host.c:414-450 | packet size, class, boot support, hub flag and string indices noted are the bytes the device sent |
| UsbSchedule.DetachStrandsTransfer | src/usb/usb_host.c:867-884 | a detach of the other hub's device stops the packet on the bus for good, as the controller completes none while UH_EP_PID is zero: its hub waits with the bus locked, whatever either hub's fsm does |
| UsbSchedule.StrandByDetach | src/usb/usb_host.c:867-884 | a run of the host from its start that comes to this: one device is pulled out as soon as it has been noticed, while the first request to the other one is on the bus |
| UsbWire.BytesRead | src/usb/usb.h:10-16 | for every request: what a device takes from the eight bytes by section 9.3 of USB 2.0 are the direction, type, code, value, index and length of the request |
| UsbWire.ReadsOnce | src/usb/usb.h:10-16 | no other eight bytes are read so |
| UsbWire.SetupRead | src/usb/usb_host.c:276-296 | from every state of the engine a control transfer starts with a SETUP packet on endpoint 0 that is read as the request |
| UsbWire.FinishedRead | src/usb/usb_host.c:740-829 | a finished control transfer has sent that packet first, and no other SETUP packet |
| UsbWire.LaunchRead | src/usb/usb_host.c:1076-1091 | an accepted control transfer: the packet in the buffer is read as the request, and goes to the address of the hub's device |
| UsbWire.CarriedOutRead | src/usb/usb_host.c:867-970 | over every interleaving of the calls of both hubs, what the device has read when the transfer is over is the request, once |
| UsbHost.Host.constructor | src/usb/usb_host.c:76-214 | the initial state, with the twelve request templates |
| UsbWire.TemplatesKept | src/usb/usb_host.c:76-164 | no call of fsm changes what is fixed in the request templates |
| UsbWire.RequestOnWire | src/usb/usb_host.c:382-686 | byte by byte the SETUP packet of each of the eleven requests of an enumeration |
| UsbWire.ReportOnWire | src/usb/usb_host.c:1132-1149 | the SETUP packet of a Get Report request |
| UsbWire.ToldAddressIsUsed | src/usb/usb_host.c:382-400 | the address in the SET_ADDRESS packet is the one the device is spoken to under from then on |
| UsbWire.VerdictByToken | src/usb/usb_host.c:761-828 | what becomes of a packet, by the handshake codes of USB 2.0 |
| UsbWire.PacketFits | src/usb/usb_host.c:251-262 | a packet takes as much of the data as is left, up to 64 bytes, and the rest stays for the next one |
| UsbWire.TokenOnWire | src/usb/usb_host.c:831-865 | the token and endpoint register of every packet behind the first |
| UsbWire.PacketStops | src/usb/usb_host.c:740-745 | a completed packet is stopped, whatever follows; one that has not completed is left alone |
| UsbWire.TransferOnWire | src/usb/usb_host.c:1093-1130 | the register and the toggle of the first packet of usb_host_in and usb_host_out |
| UsbWire.OutAlternates | src/usb/usb_host.c:571-579 | DATA0 and DATA1 alternate over the good OUT transfers of an endpoint, from DATA0 on when the configuration is set; nothing else changes a toggle |
| UsbEnumeration.ConnectForgets | src/usb/usb_host.c:332-346 | a device that has just been attached has no address of its own |
| UsbEnumeration.DeviceNoted | src/usb/usb_host.c:414-450 | what is kept of a device descriptor, by its byte offsets |
| UsbEnumeration.StringNoted | src/usb/usb_host.c:465-492 | each string is asked for by its header and then in its whole length, one after the other |
| UsbEnumeration.ConfigurationNoted | src/usb/usb_host.c:501-521 | a configuration descriptor is asked for again until all of it was; then its value and its remote wakeup bit are kept |
| UsbEnumeration.HubNoted | src/usb/usb_host.c:639-651 | the same for a hub descriptor and its number of ports |
| UsbEnumeration.PortsInOrder | src/usb/usb_host.c:653-686 | ports 1 to the last get both requests, one after the other |
| UsbEnumeration.RouteByClass | src/usb/usb_host.c:581-631 | which requests follow the configuration, by what the device is |
| UsbEnumeration.InterfaceNoted | src/usb/usb_host.c:528-551 | which interface is selected and what is kept of it |
| UsbEnumeration.WalkAtZero | src/usb/usb_host.c:522-561 | a descriptor of length zero ends the walk exactly when it is the interface that is selected |
| UsbEnumeration.EndpointNoted | src/usb/usb_host.c:556-559 | the packet size of an endpoint |
| UsbEnumeration.HidNoted | src/usb/usb_host.c:552-555 | the length of the report descriptor |
| UsbEnumeration.KeyboardNoted | src/usb/usb_host.c:501-562 | what is kept of the configuration of a boot keyboard |
| UsbEnumeration.CompositeNoted | src/usb/usb_host.c:501-562 | the same for a device with three interfaces, left alone or with one asked for by the callback |
| UsbRoute.MoveAdvances | src/usb/usb_host.c:323-865 | every move of every handler takes an enumeration at most one of its eighteen steps further, and through its four gates only out of a transfer that has been answered |
| UsbRoute.OnlyErrorsHalt | src/usb/usb_host.c:826-828 | a hub halts only behind a transmission error, or in one of the two states that have no handler |
| UsbRoute.OnlyThesePause | src/usb/usb_host.c:323-865 | the states in which a call may change nothing, and what each waits for |
| UsbRoute.NextAdvances | src/usb/usb_host.c:867-970 | the same for every event of the two hubs |
| UsbRoute.LastPassage | src/usb/usb_host.c:323-686 | over every run a hub that is further than a step, from SET_ADDRESS to remote wakeup, has taken it, and nothing has thrown it back since: no step is skipped |
| UsbRoute.ReadyIsConfigured | src/usb/usb_host.c:1059-1074 | over every run: whenever a hub is READY or has a caller's transfer on the bus, its device has, since it was attached or the hub was switched, answered SET_ADDRESS, the requests for its device and configuration descriptors, and SET_CONFIGURATION, in that order |
| HidReport.CheckHidReportDesc | src/usb/hid/hid.c:234-443 | the cursor loop over the bytes is the fold over the items, long and truncated items included |
| HidReport.RecordButtons | src/usb/hid/hid.c:331-335 | the button loop of an Input item |
| HidReport.RecordAxes | src/usb/hid/hid.c:336-358 | the axis loop: named slots, then the next free slot |
| HidReport.HandleInput | src/usb/hid/hid.c:321-361 | what an Input item records, in the order of the tests |
| HidReport.HandleOneByte | src/usb/hid/hid.c:284-404 | the items with one byte of data |
| HidReport.HandleTwoBytes | src/usb/hid/hid.c:405-438 | the items with two bytes of data |
| HidReport.InputSound | src/usb/hid/hid.c:321-361 | an Input item keeps all controls inside the report, disjoint and the buttons in order |
| HidReport.SoundIffHatsCounted | src/usb/hid/hid.c:258-443 | behind every item every control lies inside the bits read so far, no two share a bit and buttons ascend, if and only if no hat switch with count zero is recorded |
| HidReport.FieldsAreSound | src/usb/hid/hid.c:224-443 | so the final report is sound for every descriptor of fewer than 65535 bits |
| HidReport.ReportSizeIsSum | src/usb/hid/hid.c:359-369 | report_size is the sum of size times count over the Input items since the chosen Report ID, and the parser stops exactly at a Report ID behind a usable report |
| HidReport.ZeroCountHat | src/usb/hid/hid.c:325-327 | a descriptor whose hat switch is recorded outside its report |
| HidReport.AxesPlaced | src/usb/hid/hid.c:337-357 | of the fields of an Input item those with the usages X, Y, Z and Rz are in slots 0 to 3 and the others in turn in free ones; each slot holds position and width of the last field it got, and fields are left over only when no slot is free |
| HidReport.UsagesCarryOver | src/usb/hid/hid.c:321-361 | an Input item without usages uses those of the one before: two more bytes move X and Y |
| HidReport.StickIsRead | src/usb/hid/hid.c:224-443 | the stick of a game pad: X from bits 0 to 7, Y from bits 8 to 15 |
| HidMeaning.ItemsRead | src/usb/hid/hid.c:257-441 | encoding then scanning: any list of short and long items is read back from its bytes, whatever lies before |
| HidMeaning.CutShort | src/usb/hid/hid.c:257-285 | scanning ends within the bytes exactly when an item is cut off |
| HidMeaning.ItemMeaning | src/usb/hid/hid.c:268-425 | Usage Page, Usage, Report Size, Report Count and both collection items, by tag, type and size |
| HidMeaning.OthersIgnored | src/usb/hid/hid.c:268-440 | nothing but these, Input and Report ID changes anything |
| HidMeaning.ReportIdMeaning | src/usb/hid/hid.c:362-388 | exactly which report is taken as it is, and that any other is forgotten |
| HidMeaning.StartMeaning | src/usb/hid/hid.c:234-256 | nothing is known at the start |
| HidMeaning.ButtonsPlaced | src/usb/hid/hid.c:331-336 | up to thirteen buttons, each at the bit of its place in the report |
| HidMeaning.ConstantMeaning | src/usb/hid/hid.c:323-324 | constants are counted only |
| HidMeaning.HatMeaning | src/usb/hid/hid.c:325-327 | a hat switch of four bits |
| HidMeaning.CounterMeaning | src/usb/hid/hid.c:328-330 | the counter that a PS4 pad is known by |
| HidMeaning.ButtonsMeaning | src/usb/hid/hid.c:331-336 | other single bits are buttons |
| HidMeaning.AxesMeaning | src/usb/hid/hid.c:337-361 | all else are axes |
| AttServer.Server.FindAttr | src/ble/att.c:103-111 | the first attribute with the handle |
| AttServer.Server.LastOfGroup | src/ble/att.c:113-121 | the last handle before the next service |
| AttServer.Server.PutRecord | src/ble/att.c:173-177 | the record of an attribute behind what is in the buffer |
| AttServer.Server.PutRecords | src/ble/att.c:154-179 | the record loop of the list responses takes exactly the first matching records of one length that fit buffer and MTU |
| AttServer.Server.PutList | src/ble/att.c:154-186 | records behind their header, or Attribute Not Found |
| AttServer.Server.HandleReadByGroupType | src/ble/att.c:136-186 | the buffer holds the response of the specification function, error cases included |
| AttServer.Server.HandleReadByType | src/ble/att.c:188-234 | the same |
| AttServer.Server.HandleFindInfo | src/ble/att.c:236-268 | the same |
| AttServer.Server.HandleFindByTypeValue | src/ble/att.c:270-321 | the same |
| AttServer.Server.HandleRead | src/ble/att.c:323-349 | the value up to what fits, behind the handle and encryption checks, for every MTU; zero lifts the bound |
| AttServer.Server.HandleReadBlob | src/ble/att.c:351-382 | the value from the offset on, up to what fits, for every MTU |
| AttServer.Server.DoWrite | src/ble/att.c:384-408 | the first failing check in order, or the data byte by byte over the front of the value and nothing else changed |
| AttServer.Server.Serve | src/ble/att.c:427-461 | reply and database after every request are those of the specification function, in a buffer with room for the reply |
| AttClient.ResponseBoundIff | src/ble/att.c:427-461 | every reply to every request fits the buffer and the MTU if and only if the MTU has room for an error response of five bytes |
| AttClient.ReplyInBufferIff | src/ble/att.c:339-382 | every reply fits the buffer if and only if the MTU is not zero or every readable value fits it behind an opcode |
| AttClient.MtuZeroOverruns | src/usb/ble/ble_peripheral.c:366-372 | behind an exchange that sets an MTU of zero a value of 20 bytes is put into a buffer of ten |
| AttClient.SplitRecords | src/ble/att.c:154-186 | records of one length are read back from a response as they went in |
| AttClient.ParseListRsp | src/ble/att.c:136-321 | a client reads from a list response exactly the entries of its page |
| AttClient.GroupEndIsLast | src/ble/att.c:113-121 | a service range contains an attribute behind the service exactly when no other service lies between: ranges are disjoint and cover everything |
| AttClient.NextPage | src/ble/att.c:157-179 | asking again behind the last entry, or its group end, selects exactly what is left |
| AttClient.DiscoverFrom | src/ble/att.c:136-321 | the restarting client terminates and sees the matching attributes in order up to the first that fits no response |
| AttClient.DiscoveryCompleteIff | src/ble/att.c:136-321 | discovery of services by group type, attributes by type, descriptors, and services by value sees each exactly once and in order, if and only if each fits a response alone |
| AttClient.ByValueIsComplete | src/ble/att.c:270-321 | discovery by type and value always is complete, as its records have four bytes |
| AttClient.EverythingIsAll | src/ble/att.c:157-163 | what discovery should see: all matching attributes, ascending |
| AttClient.LongReadRebuilds | src/ble/att.c:323-382 | Read and then Read Blob at the accumulated offset rebuild every value for every MTU and buffer size |
| AttClient.LongReadByMtuIff | src/ble/att.c:339-348 | a client that knows only the MTU gets the whole value if and only if the buffer is no smaller than the MTU or the value fits the first reply |
| AttClient.LongReadCutShort | src/ble/att.c:339-348 | a value of 20 bytes of which such a client gets nine, at an MTU of 23 and a buffer of ten |
| AttClient.WriteReadsBack | src/ble/att.c:384-408 | an accepted write is what a long read then gives, and no other attribute reads differently |
| AttClient.LockedIsSealed | src/ble/att.c:332-338 | on an unencrypted link no Read, Read Blob or write depends on or changes the value of an attribute that asks for encryption |
| AttPeer.WriteAnswer | src/ble/att.c:384-425 | for every context and Write Request: a Write Response if and only if the first attribute of the handle exists, is writable, is not locked and is as long as the data; then it holds the data over the front of its value and nothing else has changed; otherwise the error of the first failing test, and the same database |
| AttPeer.CommandAnswer | src/ble/att.c:452-457 | a Write Command does the same and is never answered |
| AttPeer.OnlyWritableChanges | src/ble/att.c:384-461 | no request changes an attribute but a write of its handle, and only if it is writable and not locked |
| AttPeer.BadRequestAnswer | src/ble/att.c:427-461 | a wrong length and an unknown opcode, by the error codes |
| AttPeer.MtuAnswer | src/ble/att.c:123-134 | the MTU of the link |
| AttPeer.ReadAnswer | src/ble/att.c:323-349 | the error of the first failing test, or as much of the value as buffer and MTU hold |
| AttPeer.BlobAnswer | src/ble/att.c:351-382 | the same from an offset on |
| AttPeer.RangeAnswer | src/ble/att.c:136-321 | for the four range requests: which ranges are refused, which find nothing, and that all else is a list of the kind asked for |
| L2cap.FrameRoundTrip | src/ble/l2cap.c:18-55 | a built frame parses back to its connection, channel and payload, whatever follows it |
| L2cap.AcceptedIsInsideIff | src/ble/l2cap.c:18-34 | an accepted payload lies inside the data if and only if the length field is below 0xfff8 |
| L2cap.WrappedIsAccepted | src/ble/l2cap.c:18-34 | eight bytes with a length field of 0xfff8 that are accepted |
| L2cap.HeaderRead | src/ble/l2cap.c:37-55 | for every handle, channel and payload: what the controller and the peer read in the eight header bytes |
| L2cap.Build | src/ble/l2cap.c:36-55 | the buffer holds the frame, also when the payload already lay in its place, and nothing behind it changes |
| BlePeripheral.Peripheral.SendCommand | src/usb/ble/ble_peripheral.c:448-460 | stages a command exactly when nothing is staged; the buffer changes either way |
| BlePeripheral.Peripheral.SendFrame | src/usb/ble/ble_peripheral.c:448-464 | the same for an ACL frame |
| BlePeripheral.Peripheral.OnCommandComplete | src/usb/ble/ble_peripheral.c:315-337 | the step moves on, and the next one is asked for, exactly on the matching opcode with status zero |
| BlePeripheral.Peripheral.OnConnectionComplete | src/usb/ble/ble_peripheral.c:294-309 | a fresh session for the peer and one security request, or nothing on a bad status |
| BlePeripheral.Peripheral.OnLtkRequest | src/usb/ble/ble_peripheral.c:242-276 | the fresh STK for a zero EDIV and Rand, else the bonded key, else a negative reply |
| BlePeripheral.Peripheral.PumpPhase3 | src/usb/ble/ble_peripheral.c:206-227 | stages the next PDU of key distribution, or ends it with the session idle and the bond saved |
| BlePeripheral.Peripheral.OnEncryptionChange | src/usb/ble/ble_peripheral.c:278-292 | key distribution begins exactly when encryption starts on a fresh STK |
| BlePeripheral.Peripheral.OnDisconnection | src/usb/ble/ble_peripheral.c:345-352 | asks for advertising again, at whatever step bring-up is |
| BlePeripheral.Peripheral.OnEvent | src/usb/ble/ble_peripheral.c:311-356 | every event is served by its handler and keeps the invariants; what it makes of bring-up is a function of the event; an unknown one changes nothing |
| BlePeripheral.AllConfirmedIff | src/usb/ble/ble_peripheral.c:311-352 | behind a disconnection every step before advertising has been confirmed if and only if the first disconnection came once advertising had been asked for |
| BlePeripheral.StepsSkipped | src/usb/ble/ble_peripheral.c:345-352 | otherwise advertising is enabled while the step under way is never confirmed and the steps behind it are never asked for |
| BlePeripheral.DisconnectedEarly | src/usb/ble/ble_peripheral.c:345-352 | the driver run to the point: started, RESET confirmed, the link drops with the event mask asked for, advertising confirmed; bring-up counts as done after RESET, event mask and ADV_ENABLE, the second never confirmed |
| BlePeripheral.Peripheral.OnPdu | src/usb/ble/ble_peripheral.c:229-240 | a pairing PDU goes to the session, and its reply, if any, is staged on the same channel |
| BlePeripheral.Peripheral.HandOver | src/usb/ble/ble_peripheral.c:493-501 | exactly the staged packet goes out; during key distribution the next PDU follows at once |
| BlePeripheral.Peripheral.Poll | src/usb/ble/ble_peripheral.c:503-543 | over every run packets go out in the order and with the contents they were produced with, none is lost; bring-up asks for each step once the one before is confirmed, and behind disconnections for advertising once each; key distribution reads nothing until it has saved the bond |
| BleLink.LinkKeyIsAgreed | src/usb/ble/ble_peripheral.c:247-276 | after a pairing that agrees the first key request of the link gets the key that the initiator holds |
| BleLink.LinkKeyOfBond | src/usb/ble/ble_peripheral.c:247-276 | any other gets the bonded key, under exactly its EDIV and Rand |
| BleLink.LinkKeyIsDistributed | src/usb/ble/ble_peripheral.c:247-276 | through reconnects, power cycles and all PDUs but a new request that is the key, under the names, that key distribution has sent |
| BleLink.OpcodesRead | src/usb/ble/ble_peripheral.c:54-64 | group and command of the eight bring-up steps |
| BleLink.EventMeaning | src/usb/ble/ble_peripheral.c:311-352 | which event answers the bring-up step under way, which sends bring-up back to advertising, and that all others mean nothing to it |
| BleLink.BringUpInOrder | src/usb/ble/ble_peripheral.c:311-352 | over every run of events on a link that has not dropped, bring-up is over only when the eight commands have been answered with Success, one after the other |
| BleLink.DoneBehindADrop | src/usb/ble/ble_peripheral.c:345-352 | once the link has dropped, it counts as over exactly while advertising has been answered since the last drop |
| BleLink.SecurityRequestRead | src/usb/ble/ble_peripheral.c:197-204 | the bytes of the security request |
| I2cHost.Host.OnTimer | src/i2c.c:207-297 | one interrupt is one tick of the engine |
| I2cHost.Host.Write | src/i2c.c:379-389 | nine pulses with the bits of the byte and a free ninth; true exactly when the ninth is low |
| I2cHost.Host.Read | src/i2c.c:391-401 | nine pulses, the line free in eight and driven low in the ninth; the result is the eight levels seen |
| I2cHost.WriteTick | src/i2c.c:207-297 | every tick of a write, stretched or not, keeps the place in the byte and the pulses so far |
| I2cHost.ReadTick | src/i2c.c:207-297 | the same for a read |
| I2cHost.ByteIsWritten | src/i2c.c:379-389 | under every finite clock stretching a write ends, with exactly nine pulses, the data bits most significant first at their rising edges, and the ninth level as the answer |
| I2cHost.ByteIsRead | src/i2c.c:391-401 | the same for a read, with the acknowledgement driven in the ninth pulse |
| I2cHost.ByteOfBits | src/i2c.c:212-225 | a byte is determined by its eight bits in this order |
| I2cHost.ReadsWhatIsSent | src/i2c.c:391-401 | a target that presents the bits of a byte is read as that byte |
| I2cHost.BitsByWeight | src/i2c.c:215-229 | the bits of a byte on the line, by their weights |
| I2cHost.StartCondition | src/i2c.c:209-214 | a write on an idle bus starts with the data line falling while the clock is high |
| I2cHost.StopCondition | src/i2c.c:277-286 | the two states that make a STOP condition, under every clock stretching |
| I2cHost.RepeatedStart | src/i2c.c:286-294 | the idle state, and the two states that let both lines go for another START condition |
| I2cHost.StableWhileHigh | src/i2c.c:207-297 | over every run of a write and of a read the host changes the data line, behind the START condition, only while the clock is low or in the tick that makes it low |
| Ep0.Device.Send | src/usb/usb_device.c:94-105 | arms the first packet as DATA1 and keeps the rest |
| Ep0.Device.Cont | src/usb/usb_device.c:107-117 | arms the next packet with the other toggle and keeps the rest |
| Ep0.Device.GetDescriptor | src/usb/usb_device.c:119-131 | sends the first min(size, wLength) bytes, or halts on an unknown descriptor |
| Ep0.TransferOf | src/usb/usb_device.c:94-117 | from any point of a transfer, what the host takes is what is left, in full packets up to the last, with alternating toggles |
| Ep0.DescriptorTransfer | src/usb/usb_device.c:94-131 | a descriptor request gets the first min(size, wLength) bytes, full packets before the last, toggles from DATA1, and a short last packet whenever the host could take more |
| Timer3.NotTorn | src/timer3.c:64-75 | with equal high bytes less than a period minus 255 ticks apart, the value put together is what the counter held at the low read |
| Timer3.TornAtTheBound | src/timer3.c:64-75 | at a period minus 255 ticks a read can be torn, so the bound is exact |
| Timer3.OneChange | src/timer3.c:64-75 | the high byte changes at most once in 128 ticks, also across the restart |
| Timer3.TickRaw | src/timer3.c:64-75 | with two iterations in a row within 128 ticks the loop ends by the second, with a value the counter held at that iteration's low read |
| Guncon3.KeyCycle | src/usb/hid/hid_guncon3.c:59-69 | the key bytes are used in the cycle 4, 3, 2, 1, 7, 6, 5 |
| Guncon3.RoundInverse | src/usb/hid/hid_guncon3.c:71-76 | each of the three kinds of round has an inverse under the same pad and key byte |
| Guncon3.ByteInverse | src/usb/hid/hid_guncon3.c:62-78 | any run of rounds and the same rounds backwards cancel, in either order |
| Guncon3.CipherInverse | src/usb/hid/hid_guncon3.c:54-80 | decoding a report has a two-sided inverse, and bytes 13 and 14 stay |
| Guncon3.ReportIsDecoded | src/usb/hid/hid_guncon3.c:25-82 | a report and the plain bytes that key and table make of it |
| Guncon3.DecodeThree | src/usb/hid/hid_guncon3.c:62-78 | the inner loop runs three rounds and moves the key on |
| Guncon3.Decode | src/usb/hid/hid_guncon3.c:54-80 | the nested loops decode the report in place, each byte by its own three of the 39 rounds |

## Left out

- Flash program and erase failures, and erases cut half-way: the durability results assume that every step that happens succeeds.
- Flash.Driver.Read: the memory behind the block is a parameter.
- UsbTransfer.ControlTransferShape: IN requests of 1 to 1024 bytes and OUT data of at most 64 bytes, and a device that sends no more than was asked for; longer OUT data depends on a receive length that an OUT packet does not set. Which of DATA0 and DATA1 an automatic toggle comes to is the controller's business.
- UsbGraph.BusExclusion: runs without a STALL that does harm, as `StallIsSafeIff` delimits it, and without a hub switch that does, as `HubSwitchIsSafeIff` does; behind either it can be lost.
- UsbHost.Host.Fsm: port registers, bus speed and callbacks are left out, and so are real delay lengths: a delay may expire at any time.
- UsbHost.Host.StorePacket: bytes past the end of the 1024-byte `buffer` are dropped, where the source would write behind it.
- UsbHost.Host.UsbHostSetup: the OUT data is as long as the request says and fits `buffer`; the source checks neither.
- UsbSchedule.ScheduledControlTransfer: between the calls of `fsm` comes no hub switch; the transfer entry points refuse while the bus is locked.
- UsbHost.Host.StateReset, StateGetConfigurationDesc and the other handlers without a row only start a delay or send a template; they carry the same contract.
- HidReport.RecordAxes: usages past the twelfth, which the source reads behind its array, count as no usage.
- HidReport.CheckHidReportDesc: the 16-bit wrap of the cursor (a descriptor fits the 1024-byte buffer), `dpad`, which the loop never sets, and sign, shift and polarity, which it always clears; the device-specific corrections behind the `quit` label.
- Smp: the session is one value in a field, and the 16-byte values are built in an array of their own before they are copied into the reply, so overlapping of request and reply buffers is not modelled; neither are the copy loops of `smp_set_bond` and `smp_get_bond`, nor the quality of `random_fill`.
- SmpDriver.Responder.HandlePdu: the reply buffer has room for what the PDU has written to it (`Room`); the source tests `out_max` for two bytes only.
- SmpPairing.PairingAgreement: the first pairing after `smp_init`, and OOB data on neither side. A second request on one connection runs under the cached key, for which `PairingSafety` still holds but nothing is said about the TK.
- SmpPairing.BondRoundTrip: key distribution of the first pairing after `smp_init`; the phase 3 index is reset only there.
- Att: values of at most 251 bytes, as a record length is a single byte; the four record loops are one loop with the kind of response as a parameter.
- AttClient.LongReadRebuilds: for an MTU of at least 2; below, a reply brings no byte of a value, or for zero all of it.
- AttServer.Server.Serve: the buffer has room for the reply; for an MTU of zero the source does not check that.
- AttClient.LockedIsSealed: only Read, Read Blob and the writes test the encryption flag.
- I2cHost.ByteIsRead: behind a start condition or another byte, with the clock held low. STOP generation, the repeated start, edge timing within a tick and the whole device mode are left out.
- Ep0.DescriptorTransfer: requests that a vendor callback answers, SET_ADDRESS and the status stages.
- Timer3.TickRaw: no iteration is interrupted for as long as a period minus 255 ticks.
- BlePeripheral.Peripheral.Poll: without notifications of the application, which share the ACL buffer with responses. Events and frames are values that were long enough to be read, the reply of the ATT server is any bytes, and the choice of the hub, the parameters of the HCI commands and the application callbacks are left out.
- Register set-up, GPIO, ADC, PWM, UART, serial printing and LED patterns.
