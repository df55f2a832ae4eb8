# goactors: a verified model

A Dafny model of the core of the goactors actor engine, with proofs about every
input, every batch and every interleaving. `dafny verify dfyconfig.toml` checks
the whole of it.

| files | what they model |
|---|---|
| `Mailbox*.dfy` | an actor's mailbox: the lock-free queue with node recycling and the inbox that drives it, as an interleaving of atomic steps |
| `Supervision*.dfy` | a supervised process: panics, replay of the interrupted batch, the restart budget, poison pills, cleanup |
| `Shutdown*.dfy` | shutting down trees of processes by poison pills, nested ones too, as an interleaving |
| `Varints.dfy`, `Wire*.dfy`, `Codec*.dfy` | the protobuf codec of PID, Message and Envelope: the format as functions, and the generated code that fills a buffer backwards and advances an index |
| `Transport*.dfy` | a batch on its way to another node: interning, the codec, the reader |
| `Registry*.dfy` | the copy-on-write process registry, as an interleaving |
| `RingBuffer.dfy` | the growable ring buffer |
| `Agent.dfy` | the cluster agent's membership, kinds and activation tables |
| `Option.dfy` | two small types that several modules share |

Each concurrent part is a state machine: a `State`, an enabling predicate, an
`Apply`, an inductive invariant that every step keeps, and theorems about every
state a run can reach. Each sequential part is imperative where the source is,
proved against a function, and the theorems are about the function. Fields and
parameters called auxiliary or ghost are never read to decide anything.

Every lemma carries `{:induction false}`: its proof is the one written in it.

## What turned out not to hold

These are statements the source suggests that fail for some runs or inputs. Each
is shown to fail on a concrete one, and the exact condition is proved for all.

- An inbox may be started again after it was stopped (actor/inbox.go:104-116).
  Stop does not wait for the running goroutine, so two goroutines can end up
  inside PopBatch or Invoke at once. It is safe exactly if nobody still owns the
  inbox (`StoppedWithOwner`, `StartSafeIff`).
- A Stop may be overwritten: a Start that has won its CAS publishes idle over it
  (actor/inbox.go:104-116). A Stop holds until the next Start exactly if it does
  not fall into one (`StopHoldsIff`).
- A process that was cleaned up inside a replay has its inbox started again by
  the Start calls still on the stack (actor/process.go:138-143). Exactly when a
  restart within the call had got past Started (`InboxSurvivesCleanup`,
  `InboxSurvivesCleanupIff`).
- A panic while a graceful pill drains the batch loses the pill: its cancel is
  never called and what is behind it is taken again (actor/process.go:77-104).
  A pill's cancel is called exactly if it is reached and, being graceful, its
  drain meets no panic (`PillLost`, `PoisonedBatch`).
- Poisoning several processes at a time may leave a parent waiting for ever
  (actor/process.go:195-200). It is safe exactly if none of them is in the tree
  of another (`TwoPillsHang`, `PillsSafeIff`). A shutdown under way can still be
  completed exactly if nobody is sending a pill to, or waiting for, a process that
  was poisoned from outside (`FinishableIff`).
- A get of a response ID can miss an entry that was there all through the call,
  if an actor is added under that ID (actor/registry.go:72-90). Exactly the IDs
  of responses are in danger (`StaleGet`, `LinearizableIff`).
- Two PIDs share one lookup key, whatever the hash, if their address and ID run
  together to the same string (actor/pid.go:43-47), and the second one's messages
  go to the first (`RunTogether`). Nil senders among others, and nil targets, do
  not arrive as sent either (`MixedSenders`, `NilTarget`), and a message that
  fails to serialize arrives as a phantom (`Phantom`). What arrives is fixed for
  every batch by `Transported`; `ExactIff` and, in terms of addresses and IDs,
  `ExactIffTexts` say when that is what was sent.
- An Envelope with nil elements, or whose unknown bytes are not whole unknown
  fields, does not come back as it was (`NilComesBackEmpty`, `KnownAmongUnknown`);
  exactly those do not (`RoundTripIff`).
- Agents may disagree on the active actors, exactly if one ID names two actors
  (`Disagreement`, `AgreementIff`).

## Assumptions

- Go's atomics are sequentially consistent; reading and zeroing a slot in
  PopBatch is one step, since only the consumer touches it. sync.Pool is a set
  of free nodes and may always hand out a new one; sync.Mutex sections are
  atomic, except that cloning the registry snapshot is a step per entry.
- A Stopped handler and the Producer do not panic. InternalError panics are not
  limited by the source, so a run is given how many there will be.
- A byte slice and a buffer are shorter than 2^63 bytes, and one that is parsed
  and written again than 2^62; a batch has at most 2^31 messages (the inbox hands
  over at most 4096).
- Payload serializer and deserializer are arbitrary functions, as is the hash of
  a PID; what a theorem needs of them is in its `requires`.
- Payloads, envelopes and processes that are only passed on are numbers.
- A ring buffer is made with a size of at least 1, and PopN and PopNInto are not
  called with a negative count: the source panics otherwise.

## Model

| member | source | states |
|---|---|---|
| MailboxProof.StepInv | mpsc/mpsc.go:51-110 | every atomic step of every goroutine keeps the mailbox invariant: shape of the list with its gaps, slots, producers, consumer, length, wakeups, sender order |
| MailboxTheorems.DeliveredInOrder | mpsc/mpsc.go:51-110 | in every interleaving the items popped so far are a prefix of the items in tail-swap order: nothing lost, duplicated or reordered |
| MailboxTheorems.SenderOrderKept | actor/inbox.go:65-68 | each sender's items are appended and delivered in the order of its Send calls; only the one it is still pushing may be missing |
| MailboxTheorems.NoLostWakeup | actor/inbox.go:65-83 | an idle inbox with an undelivered item always has a goroutine that is certain to call schedule, even while len is zero or negative |
| MailboxTheorems.QuiescentEmpty | actor/inbox.go:65-111 | when no goroutine is left, an inbox that is not stopped is idle and empty, everything sent was delivered, and len is exact |
| MailboxTheorems.SingleConsumer | actor/inbox.go:70-111 | at most one goroutine is between the idle-to-running CAS and the end of run, with in.proc set and nobody rewriting it |
| MailboxTheorems.StartSafeIff | actor/inbox.go:104-116 | after a Start that finds the inbox stopped, no two goroutines can ever be inside PopBatch or Invoke at once, if and only if no goroutine still owns the inbox |
| MailboxTheorems.NoRestartDisciplined | actor/inbox.go:104-116 | every run without a Start after a Stop satisfies that condition throughout |
| MailboxTheorems.StoppedWithOwner | actor/inbox.go:85-116 | a run that leaves a stopped inbox with an owner, so that any Start is unsafe |
| MailboxTheorems.RecyclingSafe | mpsc/mpsc.go:51-108 | a pooled node is not the tail, not reachable from head, not held by any producer or the consumer, and keeps no message alive |
| MailboxTheorems.NeverStuck | mpsc/mpsc.go:51-110 | no goroutine is ever about to follow a nil or unallocated pointer, so each can always take its next step |
| MailboxTheorems.LenAccounting | mpsc/mpsc.go:58-68 | len is appended minus consumed, corrected by producers between swap and add and a consumer between head store and subtraction; never below minus the producers in flight |
| MailboxProgress.PopHandsOver | mpsc/mpsc.go:73-112 | from every reachable state PopBatch, left alone, hands over exactly the items linked behind head, in order and at most 4096 of them, moves head, takes their number from len and gives as many nodes back to the pool; it reports an empty queue if and only if nothing is linked there |
| MailboxProgress.RunHandsOver | actor/inbox.go:85-102 | run, left alone and not stopped, hands over everything linked behind head, batch after batch, before it goes idle |
| MailboxProgress.DrainsOut | actor/inbox.go:65-111 | progress: from every reachable state the goroutines that are there can run to their end without a further call; unless the inbox was stopped it is then idle and every item sent was delivered |
| MailboxProgress.StopHolds | actor/inbox.go:85-116 | after a Stop that does not fall into a Start and until the next Start, in every run, the inbox stays stopped and at most one batch of 4096 is still delivered; nothing is, unless a goroutine was inside PopBatch |
| MailboxProgress.StopHoldsIff | actor/inbox.go:104-116 | a Stop holds in every run until the next Start if and only if no goroutine is in the middle of Start |
| MailboxProgress.StartHolds | actor/inbox.go:104-111 | once a Start is through and until the next Stop, in every run, no other Start takes effect: the inbox stays idle or running and nobody gets to write in.proc |
| Supervision.Process.InvokeMsg | actor/process.go:111-119 | a pill is never shown, a user message is shown once |
| Supervision.Process.Drain | actor/process.go:97-102 | the graceful loop is the flat machine's draining phase, up to its first panic |
| Supervision.Process.Invoke | actor/process.go:65-109 | Invoke with recovery, replay buffer and nested restarts equals the flat machine run on the batch, then one inbox start per pending Start; it terminates |
| Supervision.Process.Start | actor/process.go:121-144 | Start equals the flat machine run from before Initialized on the replay buffer |
| Supervision.Process.TryRestart | actor/process.go:146-184 | tryRestart equals the flat machine run from the crash; the restart budget is kept |
| SupervisionTheorems.ReplayInOrder | actor/process.go:65-109 | for every pill-free batch and crash pattern a prefix of the batch is shown, each message once and in order across all nested restarts; if not all of it, the trace ends with the exhaustion notice and one Stopped |
| SupervisionTheorems.CountIsRest | actor/process.go:76-92 | across all nested restarts the messages of a batch that were shown and the ones mcount reports are the whole batch, also when the budget runs out |
| SupervisionTheorems.PanicsArePaid | actor/process.go:146-184 | every panic costs exactly one restart but the one that exhausts the budget; restarts never exceed the maximum; exhaustion happens if and only if there is one panic more than restarts left |
| SupervisionTheorems.WithinBudgetExactlyOnce | actor/process.go:65-184 | a batch that panics no more often than there are restarts left is shown completely, exactly once and in order |
| SupervisionLife.LifecycleGrammar | actor/process.go:121-208 | from the first Start through any batches and panics up to the first cleanup, the trace is a life of a strict automaton: Initialized and its notice, Started and its notice, messages; after a panic Stopped and the notice with the next restart number, after an InternalError Initialized; a cleanup, of a pill or after the exhaustion notice, leaves the parent, poisons the children, stops the inbox, leaves the registry, shows Stopped, says so and calls a pill's cancel, each exactly once, in this order and nowhere else |
| SupervisionStop.CleanupIsLast | actor/process.go:186-208 | a call cleans up at most once, as its last act, with the seven acts of cleanup spelt out in order (whose cancel is called: PoisonedBatch) |
| SupervisionStop.InboxSurvivesCleanupIff | actor/process.go:138-143 | after a cleanup within Invoke the inbox is left running if and only if a restart within that call got past Started; without a cleanup it is running |
| SupervisionStop.InboxSurvivesCleanup | actor/process.go:138-143 | a process, from its first Start on, that is cleaned up and left with a running inbox |
| SupervisionPills.UpToPill | actor/process.go:89-108 | up to its first pill a batch is shown once and in order however often it is replayed, or a prefix of it if the budget runs out |
| SupervisionPills.HardStop | actor/process.go:94-104 | a pill that is not graceful ends the batch at once: nothing behind it is shown and its cancel is called last |
| SupervisionPills.GracefulStop | actor/process.go:94-104 | without a panic in the drain, all user messages behind a graceful pill are shown once and in order, further pills are passed over, and its own cancel is called last and no other |
| SupervisionPills.DrainPanicLosesPill | actor/process.go:77-102 | after a panic in the drain the pill is lost: what is behind it, further pills included, is taken again as a batch of its own, and only a later pill's cancel can be called |
| SupervisionPills.PillLost | actor/process.go:77-102 | the smallest run: the message behind the pill is shown twice and no cancel is called |
| SupervisionPills.PoisonedBatch | actor/process.go:65-119 | any batch, with any pills of either kind and any panics: which messages are shown, how often and in which order; and the cancel called, last and no other, is that of the first pill not lost to a panic in its drain |
| SupervisionPills.WhichPill | actor/process.go:94-115 | one graceful pill is lost per panicking drain; the pill whose cancel is called is the next one |
| ShutdownTheorems.StepInv | actor/process.go:186-208 | every move of every process keeps the shutdown invariant: who may be pilled, waiting, gone, linked, registered and told |
| ShutdownTheorems.StoppedOnce | actor/process.go:186-208 | in every interleaving, with any processes poisoned from outside of which none is in another's tree, Stopped is delivered at most once per process, and only within the trees |
| ShutdownTheorems.DescendantsFirst | actor/process.go:195-205 | in every interleaving and any order of children, all descendants are stopped before their ancestor |
| ShutdownTheorems.TreeComplete | actor/process.go:186-208 | when the cancel of an outside pill fires, every process of that tree has had its Stopped and is out of the registry, whatever other shutdowns are under way |
| ShutdownTheorems.ShutdownComplete | actor/process.go:186-208 | when all of them have fired, exactly the trees have been stopped, the registry is the old one minus exactly the trees, and the other processes are untouched but for the links to the roots |
| ShutdownTheorems.NeverStuck | actor/engine.go:229-265 | until all those cancels have fired some process can move |
| ShutdownTheorems.AlwaysEnds | actor/process.go:186-208 | no shutdown of a forest of n takes more than n(3n+6) moves, whoever is poisoned |
| ShutdownHang.PillsSafeIff | actor/process.go:195-200 | for every forest and every set of processes poisoned from outside: every interleaving that goes on until nobody can move ends with all their cancels called, if and only if none of them is in the tree of another |
| ShutdownHang.Hangs | actor/process.go:195-200 | if one of them is in the tree of another, there is a run after which, in every continuation, everyone from the upper one down to the lower one's parent waits, and the upper one's cancel is never called |
| ShutdownHang.TwoPillsHang | actor/engine.go:229-265 | the smallest case: a parent and its child |
| ShutdownNested.FinishableIff | actor/process.go:195-200 | for every forest and every set of processes poisoned from outside, nested ones too, and every state an interleaving reaches: the shutdown can still be completed if and only if no process is sending a pill to, or waiting for, one of the set |
| ShutdownNested.NoOrphans | actor/process.go:186-208 | whoever is poisoned, a process leaves the registry only when each of its children has taken a pill, and those not poisoned from outside are gone |
| ShutdownNested.DeadLetters | actor/engine.go:236-265 | a process that has left the registry is sent nothing any more, in any run |
| Varints.SovCountsDigits | remote/remote_vtproto.pb.go:866-868 | sov is the number of base-128 digits |
| Varints.EncodeVarint | remote/remote_vtproto.pb.go:575-585 | exactly the sov(v) bytes before offset are written, with the digits of v |
| Varints.DecodeVarint | remote/remote_vtproto.pb.go:878-891 | the shift-and-or loop on 64-bit or 32-bit words returns the number the bytes stand for modulo the word, or overflow after ten bytes, or end of input |
| Varints.OrAdds | remote/remote_vtproto.pb.go:887 | or-ing bits that start at n into a word whose bits end below n adds them, at any word width, with the bits beyond it dropped before or after |
| Varints.VarintRoundTrip | remote/remote_vtproto.pb.go:575-585 | reading back what was written gives the same uint64 and uses exactly the bytes written, whatever follows |
| Varints.Int32RoundTrip | remote/remote_vtproto.pb.go:1136-1154 | the same for every int32 through its ten-byte sign-extended form, with a 32-bit accumulator |
| Varints.Int32Truncates | remote/remote_vtproto.pb.go:1136-1154 | an int32 field is accepted exactly when the 64-bit loop accepts, and is its low half |
| Wire.Skip | remote/remote_vtproto.pb.go:1301-1378 | skip is total and strictly advances |
| Wire.NextField | remote/remote_vtproto.pb.go:875-1065 | reading a field is total and stays within the input |
| WireTheorems.UnknownAgrees | remote/remote_vtproto.pb.go:1301-1378 | an unknown field, groups included, stays the same field wherever it stands and whatever follows it |
| WireTheorems.EntryReads | remote/remote_vtproto.pb.go:872-1064 | a field that was written is read back with its number, value and length, whatever follows |
| WireTheorems.ParseEncoded | remote/remote_vtproto.pb.go:872-1071 | for any message type, parsing written fields followed by unknown ones stores the fields in order and keeps the rest byte for byte |
| WireTheorems.ParsedUnknowns | remote/remote_vtproto.pb.go:1051-1064 | whatever is accepted, the unknown bytes kept are whole unknown fields |
| WireFields.SkipsOneField | remote/remote_vtproto.pb.go:1301-1378 | skip, which only counts its depth, steps over exactly one field of the Protocol Buffers Encoding ("Message Structure"), groups nested to any depth included, whatever follows |
| WireFields.UnknownPiece | remote/remote_vtproto.pb.go:1051-1064 | a field of the format with a number the message does not use is read as unknown, with exactly its own bytes |
| WireFields.PiecesUnknown | remote/remote_vtproto.pb.go:1051-1064 | any series of such fields is a series of unknown fields in the sense of the round trip theorems |
| WireRefusals.VarintEnds | remote/remote_vtproto.pb.go:878-891 | a varint ends at its first byte below 128 and stands for the seven low bits of each byte modulo the word; beyond ten bytes it is an overflow |
| WireRefusals.VarintOpen | remote/remote_vtproto.pb.go:878-891 | one without such a byte is the end of input, or an overflow after ten bytes |
| WireRefusals.TagRefused | remote/remote_vtproto.pb.go:892-904 | for any 64-bit tag: which error an end of group, a number that is not positive as an int32, a wrong wire type or one that does not exist gives |
| WireRefusals.FieldAgrees | remote/remote_vtproto.pb.go:875-1065 | a field, known or unknown, depends on its own bytes alone |
| WireRefusals.CutFieldRefused | remote/remote_vtproto.pb.go:875-1065 | no proper part of a field is accepted as a field |
| WireRefusals.CutRefusedIff | remote/remote_vtproto.pb.go:872-1071 | of an accepted message cut off after k bytes, what is left is accepted if and only if the cut is between two fields |
| WireRefusals.ParseMixed | remote/remote_vtproto.pb.go:872-1071 | known and foreign fields in any order: the known ones are stored in the order they come in, the foreign ones kept byte for byte |
| CodecTheorems.PidSize | actor/actor_vtproto.pb.go:414-430 | PID.SizeVT is the length of what is written |
| CodecTheorems.MessageSize | remote/remote_vtproto.pb.go:829-850 | Message.SizeVT is the length of what is written |
| CodecTheorems.EnvelopeSize | remote/remote_vtproto.pb.go:783-827 | Envelope.SizeVT is the length of what is written |
| CodecTheorems.PidRoundTrip | actor/actor_vtproto.pb.go:466-580 | a PID comes back with its unknown fields, a nil one empty |
| CodecTheorems.MessageRoundTrip | remote/remote_vtproto.pb.go:1073-1214 | a Message comes back, negative indices included |
| CodecTheorems.EnvelopeRoundTrip | remote/remote_vtproto.pb.go:872-1072 | an Envelope comes back with nested PIDs and Messages and all unknown fields, nil elements as empty ones |
| CodecTheorems.RoundTripIff | remote/remote_vtproto.pb.go:396-478 | it does so if and only if its unknown bytes are whole unknown fields at every level, and unchanged if and only if it also has no nil element |
| CodecTheorems.NilComesBackEmpty | remote/remote_vtproto.pb.go:396-478 | an Envelope with a nil target, and what comes back |
| CodecTheorems.KnownAmongUnknown | remote/remote_vtproto.pb.go:396-478 | an Envelope whose unknown bytes hold a known field, which does not come back as it was |
| CodecTheorems.AcceptedWhole | remote/remote_vtproto.pb.go:872-1072 | an accepted Envelope has no nil element and sound unknown bytes at every level |
| CodecBounds.EnvelopeDoubles | remote/remote_vtproto.pb.go:783-850 | an accepted Envelope takes at most twice as many bytes to write as it came in |
| CodecBounds.Canonical | remote/remote_vtproto.pb.go:872-1072 | whatever bytes (fewer than 2^62) are accepted as an Envelope, writing and parsing it again gives the same Envelope |
| CodecBuffers.MarshalPidTo | actor/actor_vtproto.pb.go:155-182 | back to front, exactly SizeVT bytes before hi are written with the PID's encoding and nothing else changes |
| CodecBuffers.MarshalMessageTo | remote/remote_vtproto.pb.go:498-533 | the same for a Message |
| CodecBuffers.MarshalEnvelopeTo | remote/remote_vtproto.pb.go:396-478 | the same for an Envelope, its repeated fields last element first |
| CodecBuffers.MarshalEnvelopeVT | remote/remote_vtproto.pb.go:378-389 | the buffer of SizeVT bytes is filled completely with the encoding |
| CodecParser.SkipField | remote/remote_vtproto.pb.go:1301-1378 | the loop with its index and group depth computes the skip of the format and advances |
| CodecParser.FieldAt | remote/remote_vtproto.pb.go:875-1065 | the body of the unmarshal loop reads the next field of the format, with the same errors |
| CodecParser.UnmarshalVT | remote/remote_vtproto.pb.go:872-1072 | the loop parses the format into the message it is given |
| Transport.LookupPIDs | remote/stream_writer.go:208-222 | the id leads to the entry of the PID's key; a new key is appended; nil gets 0 and changes nothing |
| Transport.LookupTypeName | remote/stream_writer.go:224-233 | the same for type names |
| Transport.Invoke | remote/stream_writer.go:55-96 | one pass builds the three tables and the array of messages, with nil for what does not serialize |
| Transport.Receive | remote/stream_reader.go:38-53 | delivers message by message and stops at the first deserialization error or bad index |
| TransportTheorems.InternedDense | remote/stream_writer.go:208-233 | throughout a batch the tables are dense, free of duplicate keys, and every index is in range and leads back to its key |
| TransportTheorems.IndexResolved | remote/stream_writer.go:208-233 | the index a PID was given leads, in the finished table, to the earliest PID with its key; nil leads to the earliest PID of all |
| TransportTheorems.Transported | remote/stream_reader.go:38-53 | for every batch, what the reader delivers from the bytes on the wire is, slot by slot, what `Arrives` says: earliest PID with the key, phantom for a failed message, stop at a failure |
| TransportTheorems.ExactIff | remote/stream_writer.go:208-222 | if all payloads serialize, the reader delivers exactly the writer's list in order if and only if all targets are set and told apart by key and the senders are all nil, or all set and told apart |
| TransportTheorems.SameKeyIff | actor/pid.go:43-47 | under a hash that does not collide on them, two PIDs have one lookup key if and only if address followed by ID is the same text |
| TransportTheorems.ExactIffTexts | remote/stream_writer.go:208-222 | if all payloads serialize and the hash does not collide on the batch, the reader delivers exactly the writer's list in order if and only if all targets are set, no two different ones have the same address followed by ID, and the senders are all nil, or all set with the same condition |
| TransportTheorems.OneAddressApart | actor/pid.go:43-47 | PIDs of one address always meet that condition |
| TransportTheorems.ReadsUpTo | remote/stream_reader.go:38-53 | whatever Envelope comes in, its messages are delivered in order up to the first bad index, nil message or failing payload, and the reader ends there for that reason |
| TransportTheorems.RunTogether | actor/pid.go:43-47 | for every hash, two different PIDs with one key, and the misdelivery it causes |
| TransportTheorems.MixedSenders | remote/stream_reader.go:47-50 | a batch of two in which a nil sender arrives as the other message's sender |
| TransportTheorems.NilTarget | remote/stream_writer.go:209-211 | a message without a target goes to the first target of the batch, or ends the reader |
| TransportTheorems.Phantom | remote/stream_writer.go:77-81 | a message that fails to serialize is delivered to the first target as the empty payload of the first type |
| RegistryTheorems.StepInv | actor/registry.go:49-122 | every step of every goroutine keeps the registry invariant: lock ownership, partial clones, read windows, counts |
| RegistryTheorems.StepChanges | actor/registry.go:49-122 | every step leaves the plain map alone or makes exactly the one change it is meant to make; no write disturbs another key, whatever IDs are used |
| RegistryTheorems.GetLinearizable | actor/registry.go:72-90 | in every interleaving a get returns what the plain map held for the ID at some moment during the call, unless the ID is a response's and an actor was added under that same ID |
| RegistryTheorems.LinearizableIff | actor/registry.go:72-90 | all gets of an ID are linearizable in all runs, whatever is added and removed, if and only if the ID is not a response's |
| RegistryTheorems.OneAddWins | actor/registry.go:97-114 | in every run, of competing adds of an ID that nobody removed, exactly one is installed once any has returned; what is installed is started exactly once or about to be |
| RegistryTheorems.StaleGet | actor/registry.go:72-90 | for every response ID, a run in which an actor is added under it and a get returns nil although the ID was there all through the call |
| RegistryCalls.GetAnswered | actor/registry.go:72-90 | in every run, from the step that calls get: it answers what the plain map held for that ID at some moment after the call and before the return, unless the ID is a response's and an actor was added under it |
| RegistryCalls.AddAnswered | actor/registry.go:97-114 | in every run, an add that has returned put its own process under its free ID at some moment of the call, or was refused because the ID was taken at some moment |
| RegistryCalls.RemoveAnswered | actor/registry.go:49-67 | in every run, at some moment of a Remove that has returned there was nothing under its ID; only if an actor has the ID of a pending response is the response alone removed |
| RegistryCalls.RegisterAnswered | actor/registry.go:118-122 | in every run, at some moment of a registerResponse that has returned its process was the one registered, and the one found under its ID unless an actor hides it |
| RegistryCalls.CallsFinish | actor/registry.go:49-122 | from every reachable state all pending calls can return without a new call; every step that is not a call brings that nearer |
| RingBuffer.RingBuffer.constructor | ringbuffer/ringbuffer.go:19-29 | an empty buffer of the given size, all slots zero |
| RingBuffer.RingBuffer.Push | ringbuffer/ringbuffer.go:31-52 | appends to the sequence the buffer stands for, growing if needed; unused slots stay zero and the cost bounds are kept |
| RingBuffer.RingBuffer.Grow | ringbuffer/ringbuffer.go:34-48 | doubling keeps the sequence and copies as many slots as it adds |
| RingBuffer.RingBuffer.Len | ringbuffer/ringbuffer.go:54-56 | the length of the sequence |
| RingBuffer.RingBuffer.Pop | ringbuffer/ringbuffer.go:58-72 | takes the first item, or reports that there is none; its slot is cleared |
| RingBuffer.RingBuffer.PopN | ringbuffer/ringbuffer.go:74-98 | takes the first n items, or all there are |
| RingBuffer.RingBuffer.PopNInto | ringbuffer/ringbuffer.go:100-130 | the same into the caller's storage if it is large enough, writing nothing beyond |
| RingBuffer.NothingLost | ringbuffer/ringbuffer.go:31-98 | of the plain sequence: what was handed out and what is left are what was pushed, in order |
| RingBuffer.PerformAll | ringbuffer/ringbuffer.go:31-98 | from any initial size any series of calls hands out what a plain FIFO would; the capacity is the initial one or at most twice the longest length; the slots copied are the capacity added, and fewer than two per push |
| Agent.NewMemberSet | cluster/member_set.go:7-15 | the set of the listed IDs, the last one listed counting |
| Agent.Slice | cluster/member_set.go:51-59 | exactly the members, each once, in some order |
| Agent.Except | cluster/member_set.go:69-83 | exactly the members whose IDs are not listed, each once |
| Agent.Agent.MemberJoin | cluster/agent.go:215-249 | adds the member and exactly its kinds |
| Agent.Agent.RebuildKinds | cluster/agent.go:291-301 | the kinds are exactly those of the members |
| Agent.Agent.MemberLeave | cluster/agent.go:251-265 | removes the member and every active actor on its host, and nothing else |
| Agent.Agent.HandleMembers | cluster/agent.go:203-213 | the member IDs are those of the list, known members as they were known; the kinds are the old ones plus those of whoever joined if no known member is missing from the list, and exactly the members' otherwise; no active actor remains on a departed host and no other is lost |
| Agent.Agent.HandleActorTopology | cluster/agent.go:111-115 | adds the announced actors in order, the first for an ID counting |
| Agent.Serve | cluster/agent.go:55-88 | for any series of messages: the member IDs are those of the last list; the kinds are the local ones plus the members' as long as nobody has left, and exactly the members' from then on; and as long as no actor is deactivated and no member leaves, whoever joins, the active actors are the announced ones |
| Agent.AgreementIff | cluster/agent.go:111-115 | agents that see the same announcements in any order with any repeats hold equal tables if and only if each ID names one actor |
| Agent.Disagreement | cluster/agent.go:274-279 | two announcements under one ID that leave two agents with different tables |

## Left out

- Queue.Pop: the inbox only uses PopBatch, and Pop is PopBatch of one without the loop.
- Reuse of the inbox's batch slice between PopBatch calls, and of the dst argument of PopBatch: the items handed over are values here.
- Backpressure: NewInbox ignores its size argument, and the queue is unbounded.
- Fairness and time: the theorems are about what every run keeps and how it can end, not about how soon.
- MailboxProgress.DrainsOut: says that a run to the end exists, not that every schedule takes it; while a producer is held up between its tail swap and its link, the consumer may go idle and be scheduled again any number of times.
- Middleware, stack traces, restart delays, timestamps and the contents of broadcast events beyond their kind and count.
- MarshalVTStrict, CloneVT, EqualVT, TestMessage and the cluster package's codec: the same shapes again.
- The difference between a nil and an empty byte slice.
- The proto.Marshal, proto.Size and proto.Unmarshal branches of the Envelope codec: PID always has the generated methods, so they are never taken.
- Dialling, TLS, connection deadlines, the stream router, and the stream's own framing; one Envelope per batch is taken to arrive as sent, or not at all.
- A second pill from outside for one process during the shutdown of a tree (only the first one taken has its cancel called), user messages, spawning and crashes there; the batch a pill stands in is the subject of the supervision part.
- Response timeouts and the response mailbox itself; only its registration is modelled.
- Registry.getByID and GetPID: they are the first load of get.
- Agent.Agent.MemberJoin: the ActorTopology sent to the new member and the join and leave events are not modelled.
- Activation requests, member selection and the providers that produce the member lists.
- actor/pid_map.go, safemap, options, kinds, event structs, SendRepeater, examples and benchmarks.
