# A verified model of the TFTP server

This project models the three parts of the TFTP server library that carry its protocol logic and
proves what they do on every input, in every environment and under every interleaving:

- the **packet codec** (`Wire`, `Codec`, `CodecTheorems`, `Acceptance`, `TftpPacketModel`, `Negotiation`):
  RRQ, WRQ, DATA, ACK and ERROR of section 5 of RFC 1350, options and OACK of RFC 2347;
- the **block transfer engine** (`Session`, `Handlers`, `SessionTheorems`, `Refusals`, `Network`,
  `StoredFile`, `Lossless`, `AgreedBlocks`, `WriteRequests`): the lockstep DATA/ACK exchange of section 2
  of RFC 1350 with the short-block ending of section 6;
- the **thread pool** (`ThreadPool`, `PoolTheorems`, `PoolProgress`, `Submission`, `Shutdown`): `Submit`,
  `WorkerThread` and `Shutdown`.

`dafny verify dfyconfig.toml` checks everything.

## How it is built

**Codec.** `Print` and `Parse` are the format as functions on byte sequences; the class `TftpPacket`
holds the source's fields, moving offsets, `SIZE_MAX` sentinel and loops, and its methods are proved
against them. The option map is an `unordered_map` in the source, so printing takes the iteration
order as a parameter and every theorem holds for all orders. Strings are byte sequences. `Acceptance` says
byte by byte, with the protocol's numbers and names written out, which datagrams are read as which packets.

**Transfer.** `Session` is an automaton over observable events (each `sendto`, each receive, the write
callback) with unbounded block counts. The methods in `Handlers` have the source's loops, retry
counters, wrapping 16-bit block numbers and byte offsets; each is proved to perform a run of the
automaton in its environment, and `RunIsUnique` shows there is only one. The environment is three
arbitrary functions: the result of the i-th `sendto`, of the i-th receive, and of the write callback.
Theorems about all traces of the automaton are therefore theorems about all runs of the handlers.
`Network` joins the two loops over a network that loses, duplicates, delays and reorders, and
`StoredFile` asks what that network can make the receiver store; `Lossless` joins them over a channel
that delivers each datagram exactly once, and `AgreedBlocks` feeds the receiver blocks of a negotiated size.
`Refusals` says which ERROR follows what and when a session gives up; `WriteRequests` says what the options
of a request change.

**Pool.** A state machine whose steps are single accesses to shared state, with lock ownership and a
program counter per thread; a run is any sequence of actions of any number of client threads. Besides safety
(`PoolTheorems`), `PoolProgress` and `Submission` show what the pool can always still do.

## Where the code does less than it seems

These are theorems, each with the exact condition:

- An upload only builds up the file, whatever the network does, if and only if it has at most 65536
  blocks: above that an old block can be accepted in place of the last one (`UploadIntactIff`). The
  default size limit admits about two million blocks.
- "Every acknowledged block was accepted" (`InStepIff`) and "a sender that reports completion has a
  receiver holding the file" (`CompletionIff`) hold if and only if there are at most 65536 blocks, 65535
  when ACK 0 was the greeting and may still arrive.
- Nothing but the file can be stored if and only if it has at most 65536 blocks, or at most twice as many
  (one less with ACK 0 under way) and each full block equals the one 65536 before it and the limits refuse
  a file longer by 65536 blocks (`OnlyTheFileIsStoredIff`). Otherwise a mixed, truncated or lengthened
  file is stored as complete (`WrongFileStored`, `TruncatedUpload`, `LengthenedUpload`).
- Every block size b from 8 to 65464 is agreed to, but an upload in such blocks stores the file if and only
  if b is 512 or the whole file fits one block of less than 512 bytes (`AgreedUploadIff`).
- An announced size n limits the upload to n + 512 bytes, but the sum wraps around: an n within 512 of 2^64
  limits it to less than 512 bytes (`UploadStoredIff`).
- An OACK without options is accepted but prints as a datagram that is not (`Normalisation`, `EmptyOack`).
- A failed `Deserialize` leaves the received operation code in the object (`TftpPacket.Deserialize`).
- `Shutdown` may come to hang after its `notify_all` if and only if some worker was at that moment between
  testing the wait predicate and blocking (`ShutdownMayHangIff`; spurious wake-ups aside). Otherwise it can
  return from every state that follows.

Comments in the source that the code contradicts; the model follows the code: the default transfer
limit is 1 GiB, not 1 MB (src/internal/tftp_server_impl.cpp:57); `read_string_validated` can succeed
with an empty string (src/tftp_packet.cpp:25); a failed parse does not leave a clean state, because
`ResetState` runs before the operation code is assigned and not after the failure
(include/tftp/tftp_packet.h:59, src/tftp_packet.cpp:341-342, :380).

## Model

| member | source | states |
|---|---|---|
| Wire.TakeString | src/tftp_packet.cpp:27-75 | What is split off is a NUL-free string within the limit, followed in the input by its NUL and by what remains |
| Wire.TakeStringComplete | src/tftp_packet.cpp:27-75 | The converse: every string within the limit that is followed by NUL is read back exactly, whatever follows |
| TftpPacketModel.ReadStringValidated | src/tftp_packet.cpp:27-75 | The offset loop reads exactly that string and moves past its NUL, or signals SIZE_MAX with an empty string, at any offset and for any limit |
| TftpPacketModel.ReadOptions | src/tftp_packet.cpp:432-482 | The options loop fails exactly when the option text is malformed or exceeds 16 options, and otherwise builds the map with the last duplicate winning |
| TftpPacketModel.TftpPacket.ResetState | src/tftp_packet.cpp:198-207 | Operation code 1, octet mode, zero numbers, empty strings and no options, whatever the object held |
| TftpPacketModel.TftpPacket.SetOption | src/tftp_packet.cpp:194-196 | Only that option changes |
| TftpPacketModel.TftpPacket.DeserializeRequest | src/tftp_packet.cpp:392-492 | All-or-nothing: on failure no field changes; on success the three request fields are those of the parsed request |
| TftpPacketModel.TftpPacket.Deserialize | src/tftp_packet.cpp:340-631 | The final state is a function of the bytes alone, whatever the object held: on success the object stands for the parsed packet and everything else is reset; after a failure only the operation code, the first two bytes of 4 to 516, is not reset; the oversized-payload branch is unreachable |
| TftpPacketModel.TftpPacket.SerializeRequest | src/tftp_packet.cpp:216-253 | The bytes are the request format for every option order |
| TftpPacketModel.TftpPacket.Serialize | src/tftp_packet.cpp:212-335 | The bytes are the format of the packet the operation code selects; empty if and only if the code is unknown |
| TftpPacketModel.AppendOptions | src/tftp_packet.cpp:320-325 | The append loop writes each option once, in order, after what was there |
| TftpPacketModel.ObjectRoundTrip | src/tftp_packet.cpp:212-335 | For every object with a known operation code, whatever its other fields hold: its bytes are read as the packet it stands for if and only if that is well formed and at most 516 bytes; the object read into then has the packet's fields and reset values elsewhere, so it equals the first if and only if the first had no other values |
| CodecTheorems.LastDuplicateWins | src/tftp_packet.cpp:474 | Of several options with the same name the map holds the value of the last |
| CodecTheorems.RoundTrip | src/tftp_packet.cpp:212-335 | For all six kinds and all option orders, parsing the printed packet gives it back if and only if it is well formed and at most 516 bytes long |
| Acceptance.ModeSpelling | src/tftp_packet.cpp:90-119 | A mode is recognised from exactly the spellings of netascii, octet or mail with each letter in either case, and printed in lower case; the letters are literals |
| Acceptance.RequestTextParses | src/tftp_packet.cpp:392-491 | Every text of the request grammar is read as the filename, mode and options it spells |
| Acceptance.RequestAcceptance | src/tftp_packet.cpp:340-491 | Bytes are accepted as a given RRQ or WRQ (filename, mode, options) if and only if there are at most 516 of them and they spell it: filename 1..255 bytes, a mode in any letter case, up to 16 options of 1..64 bytes each way |
| Acceptance.OackAcceptance | src/tftp_packet.cpp:577-624 | Bytes are accepted as an OACK with a given map if and only if they are 0 6 and spell it, in 4..516 bytes |
| Acceptance.DataAcceptance | src/tftp_packet.cpp:493-518 | Accepted as DATA n with a payload if and only if the bytes are 0 3, n with its high byte first, and the payload of at most 512 bytes |
| Acceptance.AckAcceptance | src/tftp_packet.cpp:519-536 | Accepted as ACK n if and only if the bytes are 0 4 and n with its high byte first |
| Acceptance.ErrorAcceptance | src/tftp_packet.cpp:537-576 | Accepted as an ERROR if and only if the bytes are 0 5, a code up to 7, a terminated message of at most 255 bytes, and anything after that up to 516 bytes |
| CodecTheorems.Normalisation | src/tftp_packet.cpp:340-631 | Printing what was parsed never grows it and is read as the same packet, if and only if it is not an OACK without options; DATA and ACK come back byte for byte |
| CodecTheorems.EmptyOack | src/tftp_packet.cpp:589-592 | The concrete bytes 0 6 0 0 where printing and parsing fails |
| Negotiation.BuildOack | src/internal/tftp_server_impl.cpp:435-500 | The hand-built OACK equals the printed OACK carrying the negotiated values in the same order |
| Negotiation.OackDelivers | src/internal/tftp_server_impl.cpp:431-500 | For every accepted request with options the OACK is at least 5 bytes shorter than the request, fits a datagram, and reads back as the same names: blksize keeps its value if and only if it is a number in 8..65464 or is 512 already, otherwise it is 512; timeout likewise with 1..255 and 6; every other value is kept |
| Session.RunIsUnique | src/internal/tftp_server_impl.cpp:315-635 | In a given environment a session has one complete run, so the handler contracts determine the whole trace |
| Handlers.SendPacket | src/internal/tftp_server_impl.cpp:657-669 | The run is extended by one to five sendto calls of the same datagram, stopping at the first success; the datagram leaves if and only if one of the next five calls succeeds |
| Handlers.SendError | src/internal/tftp_server_impl.cpp:741-770 | The run is extended by one to twenty-five sendto calls through the nested loops; the ERROR leaves, once, if and only if one of the next twenty-five calls succeeds; the session is over |
| Handlers.ReceivePacket | src/internal/tftp_server_impl.cpp:672-739 | One receive event; a timeout, a failure and an unreadable datagram all give no packet |
| Handlers.HandleReadRequest | src/internal/tftp_server_impl.cpp:315-394 | In every environment the offset and 16-bit counter code performs the run of the download automaton; the size subtraction never underflows; it terminates |
| Handlers.Greet | src/internal/tftp_server_impl.cpp:431-531 | One OACK attempt if there are options, otherwise ACK 0 with retries |
| Handlers.ReceiveFile | src/internal/tftp_server_impl.cpp:533-617 | The receive loop terminates in every environment with a complete file or a finished session |
| Handlers.HandleWriteRequest | src/internal/tftp_server_impl.cpp:396-635 | In every environment the handler performs the run of the upload automaton, including the 64-bit sum of tsize and 512 |
| SessionTheorems.ReadTrace | src/internal/tftp_server_impl.cpp:344-391 | The i-th DATA sent carries i mod 65536 and the i-th block, each block is sent once, at most one ahead of the acknowledgements; a completed run sent all; at most 5 sendto calls per block |
| SessionTheorems.AckPrecedesBlock | src/internal/tftp_server_impl.cpp:370-391 | A block leaves only after ACKs 1..i arrived for all i blocks before it |
| SessionTheorems.BlocksJoin | src/internal/tftp_server_impl.cpp:354-389 | The first k blocks joined are the first 512k bytes, so all blocks are the file |
| Refusals.RefusedRead | src/internal/tftp_server_impl.cpp:339-347 | A missing file sends only ERROR 1 "File not found", an oversized one only ERROR 3 "File size too large" (the datagrams are literals), at most once, and it is given up only after 25 sendto calls |
| Refusals.KnownErrors | src/internal/tftp_server_impl.cpp:741-752 | The five ERROR datagrams, written out, are read as their codes and messages |
| Refusals.ErrorArrives | src/tftp_packet.cpp:285-303 | An ERROR with any code up to 7 and any plain message is read as that code and those characters |
| Refusals.RefusalFollows | src/internal/tftp_server_impl.cpp:551-632 | Over all runs: after a packet that is not DATA, data above a limit, or a failed write callback, the session is not over and the next thing attempted is ERROR 4, 3 or 2 with its message; no other ERROR is ever attempted, except to repeat a failed attempt |
| Refusals.ReadGivesUp | src/internal/tftp_server_impl.cpp:365-368 | A download ends on a failed sendto call if and only if it is the fifth in a row, the twenty-fifth for an ERROR |
| Refusals.WriteGivesUp | src/internal/tftp_server_impl.cpp:502-530 | An upload ends on a failed sendto call if and only if it is the first for its OACK, the twenty-fifth in a row for an ERROR, the fifth for anything else |
| SessionTheorems.WriteTrace | src/internal/tftp_server_impl.cpp:523-632 | Over all runs: at most max/512+1 blocks; the buffer is their payloads in order; the replies are one greeting and the ACKs of the accepted blocks, the last one perhaps missing, then at most one ERROR; a completed run sent every ACK and no ERROR; one write at most, after a short block, within both limits; bounded sendto calls |
| SessionTheorems.BlockPrecedesAck | src/internal/tftp_server_impl.cpp:541-595 | ACK i leaves only when exactly DATA 1..i have arrived and ACKs 1..i-1 have left; before the greeting nothing has arrived |
| SessionTheorems.WriteLoopHead | src/internal/tftp_server_impl.cpp:541-617 | At each loop head the buffer is 512 bytes per accepted block and within the limit, and the expected number is (length/512 + 1) mod 65536 |
| WriteRequests.GreetingFirst | src/internal/tftp_server_impl.cpp:431-531 | The first datagram attempted for an accepted write request reads as an OACK with the right answers if it has options and as ACK 0 if not; no OACK is attempted afterwards |
| WriteRequests.StoresOnlyAdmitted | src/internal/tftp_server_impl.cpp:601-627 | In all runs every stored content is within the server's limit and, if tsize announces n, within n + 512 (modulo 2^64); an absent or unreadable tsize adds no limit |
| WriteRequests.UploadStoredIff | src/internal/tftp_server_impl.cpp:417-627 | On an exactly-once channel a file in blocks of 512 reaches the write callback if and only if its size is within these limits |
| AgreedBlocks.BlockIsCut | src/internal/tftp_server_impl.cpp:713-732 | A DATA datagram of any length is read as DATA with at most its first 512 bytes |
| AgreedBlocks.BlockTakenWhole | src/internal/tftp_server_impl.cpp:564-610 | The receive loop takes a block whole and goes on to the next if and only if it has 512 bytes |
| AgreedBlocks.AgreedUpload | src/internal/tftp_server_impl.cpp:534-627 | What an upload in blocks of any size hands to the write callback: below 512 the first block alone; from 512 on the first 512 bytes of each block, or nothing when the last block has 512 or more |
| AgreedBlocks.AgreedUploadIff | src/internal/tftp_server_impl.cpp:464-479 | Every size in 8..65464 is agreed to; the upload then stores the file if and only if the size is 512 or the file fits one block of less than 512 bytes |
| Network.Projection | src/internal/tftp_server_impl.cpp:349-391 | Each side of a joint run is a run of its handler's automaton |
| Network.ReceiverIsUpload | src/internal/tftp_server_impl.cpp:522-617 | The receiver's side, after its greeting, is a run of the write handler |
| Network.UploadIntact | src/internal/tftp_server_impl.cpp:533-617 | Up to 65536 blocks, in every reachable state the buffer is a block-aligned prefix of the file, and the whole file once the loop ended on a short block |
| Network.OnlyTheFileIsStored | src/internal/tftp_server_impl.cpp:621-627 | Up to 65536 blocks, nothing but the file reaches the write callback in any run |
| Network.StaleBlock | src/internal/tftp_server_impl.cpp:564-573 | Above 65536 blocks, a run that corrupts the buffer, for every such file |
| Network.UploadIntactIff | src/internal/tftp_server_impl.cpp:349-391 | All reachable states are intact if and only if there are at most 65536 blocks |
| Network.StaleAck | src/internal/tftp_server_impl.cpp:379-391 | Above the bound, a run in which the sender counts a block the receiver lacks |
| Network.InStepIff | src/internal/tftp_server_impl.cpp:379-391 | acknowledged <= accepted <= acknowledged + 1 in all reachable states if and only if there are at most 65536 blocks, 65535 when ACK 0 may still arrive |
| Network.CompletionIsGenuine | src/internal/tftp_server_impl.cpp:388-394 | Within that bound, a sender that completes has a receiver holding the whole file |
| Network.FalseCompletion | src/internal/tftp_server_impl.cpp:379-394 | Above that bound, for every admitted file, a run in which the sender completes while the receiver still waits for the last block |
| Network.CompletionIff | src/internal/tftp_server_impl.cpp:379-394 | Completion of the sender means that the receiver has the whole file, in all runs, if and only if the file is within that bound |
| StoredFile.ForgedUpload | src/internal/tftp_server_impl.cpp:564-617 | Any content made of blocks sent no later under the same numbers can be stored, with both sides completing |
| StoredFile.WrongFileStored | src/internal/tftp_server_impl.cpp:564-627 | For each k above 65536 whose block differs from block k-65536, and not the last: both sides complete and the file with that block replaced is stored |
| StoredFile.TruncatedUpload | src/internal/tftp_server_impl.cpp:379-391 | Above twice 65536 blocks (one less with ACK 0): old ACKs carry the sender ahead, its last block ends the upload 65536 blocks early, and the shorter file is stored |
| StoredFile.LengthenedUpload | src/internal/tftp_server_impl.cpp:564-627 | Above 65536 blocks, when the limits admit it: old blocks carry the receiver past the end and a file longer by 65536 blocks is stored |
| StoredFile.OnlyTheFileIsStoredIff | src/internal/tftp_server_impl.cpp:533-627 | In all runs nothing but the file reaches the write callback, if and only if none of these three confusions is possible: a condition on the file, the limits and the greeting |
| Lossless.RunIsLockstep | src/internal/tftp_server_impl.cpp:350-391 | On an exactly-once channel there is one course of events, for every file size |
| Lossless.TransferCompletes | src/internal/tftp_server_impl.cpp:534-617 | It never gets stuck and ends after exactly floor(n/512)+1 rounds with the receiver holding the file, however often block numbers wrap |
| ThreadPool.WorkerCount | src/internal/tftp_thread_pool.cpp:11-19 | As many workers as asked for, at most 64; for 0 the hardware's number, at most 64, or 4 if that is unknown |
| PoolTheorems.Conservation | src/internal/tftp_thread_pool.cpp:77-111 | In every reachable state the pushed tasks are the popped ones in order, then those discarded or waiting; each is in exactly one of queued, in a worker's hand, finished, discarded |
| PoolProgress.QueuedTaskCanRun | src/internal/tftp_thread_pool.cpp:77-107 | From every reachable state with the flag not set, each queued task can be run to its end without spurious wake-ups: no notification is lost before Shutdown |
| Submission.SubmittedTaskCanRun | src/internal/tftp_thread_pool.h:53-79 | From every reachable state with the flag not set, a Submit call can have its task enqueued and run to its end |
| Submission.SubmitAcceptedIff | src/internal/tftp_thread_pool.h:53-79 | Some continuation enqueues the task of a Submit call if and only if the flag was not set when it began; if it was, its first step returns |
| Submission.FrontIsTaken | src/internal/tftp_thread_pool.cpp:83-95 | In every continuation, a worker that evaluates the wait predicate with tasks waiting stays inside the lock with the queue unchanged until it has taken the front task, flag or no flag; three of its own steps suffice |
| Submission.NotifyOne | src/internal/tftp_thread_pool.h:77 | notify_one wakes exactly one sleeping worker, any of them, or none if none sleeps |
| PoolTheorems.ActiveCount | src/internal/tftp_thread_pool.cpp:97-107 | The counter equals the number of workers between increment and decrement and stays within 0..64 |
| PoolTheorems.AtMostOneMore | src/internal/tftp_thread_pool.cpp:80-107 | In every run each worker performs at most one step that begins a task while the flag is set |
| PoolTheorems.MutualExclusion | src/internal/tftp_thread_pool.h:68-75 | No two threads are inside the lock together |
| PoolTheorems.ShutdownSafety | src/internal/tftp_thread_pool.cpp:33-58 | Once the Shutdown call that set the flag returned, nothing is queued, held or running, and no later step of any thread enqueues, starts or finishes a task |
| Shutdown.MissedWakeup | src/internal/tftp_thread_pool.cpp:41-85 | After notify_all a worker can still block if and only if one was between its predicate test and blocking |
| Shutdown.CanReturn | src/internal/tftp_thread_pool.cpp:33-58 | From every state in which the flag is set and no worker sleeps, some continuation without spurious wake-ups lets Shutdown return |
| Shutdown.ShutdownMayHangIff | src/internal/tftp_thread_pool.cpp:33-85 | After notify_all some continuation leads to a state from which Shutdown never returns, if and only if a worker was between its predicate test and blocking (spurious wake-ups aside) |
| Shutdown.ShutdownCanReturn | src/internal/tftp_thread_pool.cpp:33-58 | In every pool some run from the start lets Shutdown return |
| Shutdown.ShutdownCanHang | src/internal/tftp_thread_pool.cpp:33-48 | In every pool a run from the start after which, without spurious wake-ups, Shutdown never returns |

## Left out

- Handlers.ReceivePacket: an oversized datagram is cut to the buffer as on Unix; the Windows error return is not modelled, nor is the address of the sender, which the source never checks.
- Handlers.HandleReadRequest: the read callback is a given result and byte sequence; configuration locks are not modelled.
- Number parsing (`std::stoull`, `std::stoi`) is an arbitrary function; nothing proved depends on its details.
- Path checks (`IsPathSecure`, `NormalizePath`), `HandleClient`'s dispatch, the default file handlers and the validators: file-system calls or single branches.
- The factories (`CreateData` and the others), `HasOption`, `GetOption` and the getters: each reads or assigns single fields, and no protocol decision is made in them.
- `Start`, `Stop`, `ServerLoop`, sockets and real time: operating-system behaviour; a timeout is a receive that yields nothing and sleeps do nothing.
- The pool is a state machine on values rather than a class, because its subject is the interleaving of threads; weak memory effects are not modelled (all flag accesses in the source are sequentially consistent).
- Return of `Shutdown` is stated as the possibility to go on until it returns; that a scheduler does so, and that a task's function returns, is not modelled. Futures and task results are not modelled.
- `TftpClient` is a stub in the repository; the unused helpers `copy_string` and `read_string` are not modelled.
