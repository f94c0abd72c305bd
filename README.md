# readcaster, modelled in Dafny

readcaster fans out one `io.Reader`. A `ReadCaster` owns the source. Each
`NewReader` call registers a `chanReader` that has a bounded channel of
chunks (its inbox, of capacity `backlogSize`) and a staged remainder `buf`.
The first `Read` on any reader launches, once, a pump goroutine. Each pump
iteration reads up to `bufferSize` bytes from the source and offers them to
every reader that has not been evicted. A reader that does not accept the
chunk before the round's timer fires is marked `hasTimedOut` and its channel
is closed. A read error or a zero-length read closes every remaining channel,
closes `Progress` and stops the pump. `Read` stages the head chunk when
nothing is staged, copies `min(len(to), len(buf))` bytes and keeps the rest
staged. It returns `io.EOF` only when the channel is closed and drained.

The model has three modules:

- `Reader` (reader.dfy) models reader.go. `ReaderState` is the value view of
  a reader: inbox, closed, hasTimedOut, buf. `ReadStep` is the specification
  of one `Read`. Class `ChanReader` follows the Go struct `chanReader` with
  these differences: it has no `caster` back-pointer; the `source` channel is
  split into its queue `inbox`, its capacity `capacity` and its `closed` flag;
  `once` is a plain boolean; it adds the `hasTimedOut` flag that
  read_caster.go uses but reader.go does not declare; and it adds the ghost
  fields `delivered` and `received`. Its `Read` is proved against `ReadStep`. Its ghost fields
  `delivered` and `received` carry the invariant that the bytes handed out,
  followed by the bytes still pending, are the concatenation of the
  delivered chunks. `Ledger` is the value of all of a reader's bookkeeping
  (state, capacity, delivered chunks, handed-out bytes, start trigger), and
  `Balanced` is that invariant on it.
- `Caster` (read_caster.dfy) models read_caster.go. It has the constructor
  checks, the append-only reader registry, the `startedReading` latch, the
  getters, `MaxMemoryUse` in 64-bit arithmetic, and the pump. The pump is one
  iteration at a time (`PumpStep`), looping over the readers as the source
  does. For each iteration the caller supplies the source read
  (`data`, `err`) and whether each reader accepted the chunk. The class
  invariant says:
  - every reader still live has received every delivered chunk, in order;
  - an evicted reader has received a prefix of them;
  - while the pump runs, a channel is closed exactly when its reader was
    evicted;
  - after the final round, every channel is closed;
  - `totalBytesRead` is the sum of the sizes of all source reads.
- `EndToEnd` (end_to_end.dfy) models what end_to_end_test.go checks. It
  takes any interleaving of pump rounds and `Read` calls on one reader and
  proves that no byte is lost, duplicated or reordered. It also proves that
  reads of any positive size, byte-at-a-time included, drain a closed reader
  and then see EOF.

An evicted reader gets no error of its own: reader.go only ever returns
`io.EOF`, so an evicted reader drains what is already queued and then sees
plain end of stream (`EndToEnd.EvictedReaderDrainsThenEof`).

The getter `ReaderTimeout` is modelled as `Caster.ReadCaster.ReaderTimeout`.
Its value is stated by the contract of `SetReaderTimeout`.

## Model

| member | source | states |
|---|---|---|
| `Reader.Stage` | reader.go:28-35 | with nothing staged and a non-empty queue, the head chunk becomes the stage and the queue loses exactly that chunk; otherwise nothing changes; the pending bytes and the flags are always unchanged |
| `Reader.ReadStep` | reader.go:28-66 | one Read of a `size`-byte destination: the bytes copied, followed by what stays pending, equal what was pending; the count is `min(size, len(staged))`; EOF exactly when nothing could be staged; a non-EOF read of size at least 1 returns at least 1 byte |
| `Reader.ReadEofIffDrained` | reader.go:38-40 | when all chunks are non-empty, Read returns EOF if and only if the channel is closed and nothing is staged or queued, and EOF changes nothing |
| `Reader.ReadKeepsBalance` | reader.go:28-66 | a Read keeps a reader balanced (queue within capacity, no empty chunk, no byte lost), and at EOF every delivered byte has been handed out |
| `Reader.ReadKeepsChunksNonEmpty` | reader.go:28-35 | dequeuing keeps every queued chunk non-empty |
| `Reader.ChanReader.constructor` | reader.go:17-19 | newChanReader: empty stage, empty open channel of the given capacity, not started, nothing delivered |
| `Reader.ChanReader.Read` | reader.go:28-66 | the new ledger is `ReadLedger` of the old one: the state is that of `ReadStep`, the handed-out bytes grow by exactly the bytes written to the front of `to`, and the capacity, delivered chunks and start trigger stay; EOF is `ReadStep`'s; the rest of `to` is untouched; the reader stays balanced; EOF only when closed and every delivered byte has been handed out |
| `Reader.ChanReader.StageHead` | reader.go:28-35 | the staging step of Read: the new state is `Stage` of the old one |
| `Reader.ChanReader.HandOut` | reader.go:44-66 | copies `min(len(to), len(buf))` staged bytes to the front of `to`, leaves the rest of `to` alone and keeps the remaining bytes staged; the handed-out bytes grow by exactly the bytes copied |
| `Reader.ChanReader.Send` | read_caster.go:166 | an accepted send appends exactly the chunk to the queue; it requires an open channel with room |
| `Reader.ChanReader.Close` | read_caster.go:152 | closing requires an open channel, so no channel is ever closed twice; only `closed` changes |
| `Caster.Wrap64` | read_caster.go:118 | Go's 64-bit `int` result: in range, congruent to the exact value modulo 2^64, equal to it when it fits |
| `Caster.Deliver` | read_caster.go:161-173 | one reader in a delivery round: an evicted reader is untouched; a live reader that accepts gets exactly the chunk appended, so its pending bytes grow by the chunk; a live reader that does not accept becomes timed out and closed and keeps what it had |
| `Caster.Shutdown` | read_caster.go:150-154 | final round for one reader: a reader that was not evicted is closed, an evicted one is untouched; queue and stage are kept |
| `Caster.ReadCaster.constructor` | read_caster.go:67-73 | stores both sizes as given, the default timeout, no readers, not started, no bytes read, Progress open |
| `Caster.NewSize` | read_caster.go:61-74 | fails exactly when `bufferSize < 1` (zero and negative); otherwise a fresh valid caster holding the given sizes, the default timeout and no readers |
| `Caster.New` | read_caster.go:55-57 | `NewSize(4096, 10)`, which cannot fail |
| `Caster.ReadCaster.BufferSize` | read_caster.go:100-102 | the buffer size is at least 1 |
| `Caster.ReadCaster.BacklogSize` | read_caster.go:107-109 | the backlog size is the capacity of every registered reader's channel |
| `Caster.ReadCaster.ReaderTimeout` | read_caster.go:121-123 | returns the stored timeout; its value is fixed by the ensures of the constructor and `NewSize` (the default of one second) and of `SetReaderTimeout` (the new duration when accepted) |
| `Caster.ReadCaster.MaxMemoryUse` | read_caster.go:117-119 | `bufferSize * backlogSize * len(readers)` in 64-bit arithmetic: exact whenever the product fits |
| `Caster.ReadCaster.NewReader` | read_caster.go:81-85 | appends exactly one fresh reader at the end and leaves earlier readers alone; the new reader has an empty open channel of capacity `backlogSize`; the configuration is unchanged |
| `Caster.ReadCaster.EnsureCanChangeConfig` | read_caster.go:89-93 | reports a configuration error exactly when reading has started |
| `Caster.ReadCaster.SetReaderTimeout` | read_caster.go:125-128 | rejected exactly when reading has started; otherwise `ReaderTimeout()` becomes the new duration and nothing else changes |
| `Caster.ReadCaster.BeginReading` | read_caster.go:131-134 | afterwards reading has started and the pump is launched; the pump is launched on the first call only |
| `Caster.ReadCaster.StartRead` | reader.go:26 | a reader's first Read triggers beginReading, later Reads on it do not; afterwards reading has started; the reader's state is unchanged |
| `Caster.ReadCaster.PumpStep` | read_caster.go:136-175 | one pump iteration: `totalBytesRead` grows by `n`, the terminal read included; the round is terminal exactly when `err != nil` or `n == 0`; a terminal round closes Progress and takes every reader's ledger to `Closed` of it without delivering its bytes; otherwise every reader's ledger becomes `Offered` of the chunk, so each reader's start trigger and handed-out bytes stay; the class invariant is kept |
| `Caster.ReadCaster.CloseAll` | read_caster.go:148-157 | every reader's ledger becomes `Closed` of its old one; Progress is closed; the registry invariant now has every channel closed |
| `Caster.ReadCaster.CloseLive` | read_caster.go:150-154 | the loop over the readers: each reader's ledger ends as `Closed` of its ledger before the round, so only live readers' `closed` flags change |
| `Caster.ReadCaster.DeliverAll` | read_caster.go:159-173 | every reader's ledger becomes `Offered` of its old one; the chunk joins the round history; the registry invariant is kept, so live readers still hold every round |
| `Caster.ReadCaster.OfferAll` | read_caster.go:161-173 | the loop over the readers: each reader's ledger ends as `Offered` of its ledger before the round |
| `Caster.ReadCaster.Offer` | read_caster.go:162-171 | one reader's select: send, evict-and-close, or skip if already evicted; the reader's ledger becomes `Offered` of the old one |
| `Caster.Offered` | read_caster.go:161-171 | a reader's ledger after a delivery round: the state is `Deliver`'s, the chunk is recorded as delivered exactly when a live reader accepts it, and the capacity, handed-out bytes and start trigger stay |
| `Caster.Closed` | read_caster.go:150-154 | a reader's ledger after the final round: the state is `Shutdown`'s and everything else stays |
| `Caster.OfferedKept` | read_caster.go:161-171 | a delivery round keeps the pump's per-reader invariant: a live reader that accepts is still balanced and holds every round, including the new one; an evicted one keeps a prefix |
| `Caster.ClosedKept` | read_caster.go:150-154 | the final round keeps the per-reader invariant, and afterwards every channel is closed |
| `Caster.SharedTimerStalls` | read_caster.go:160-171 | with the single per-round timer, two live readers whose queues are full admit no outcome for the round: the pump cannot finish it |
| `Caster.TwoIdleReadersHangThePump` | read_caster.go:160-171 | the concrete case: three live readers, the first with room and the other two with full queues; no outcome of the round exists |
| `Caster.PerReaderTimerCompletes` | read_caster.go:160-171 | with a deadline per reader, every round has an outcome, and it is determined: a live reader with room takes the chunk, and a live reader whose queue is full is evicted |
| `Caster.PerReaderTimerFeedsPumpStep` | read_caster.go:160-171 | with deadlines per reader, every caster's round has an outcome, and every such outcome meets the room precondition of `PumpStep` |
| `EndToEnd.StepConserves` | reader.go:28-66 | one pump round or Read: handed-out bytes plus pending bytes equal the previous pending bytes plus what entered the queue |
| `EndToEnd.RunConserves` | end_to_end_test.go:14-64 | over any interleaving of rounds and Reads: all bytes handed out, followed by what is pending, equal what was pending followed by every queued chunk in order |
| `EndToEnd.RunKeepsChunksNonEmpty` | read_caster.go:148 | no run ever queues an empty chunk, because a zero-byte read ends the pump |
| `EndToEnd.LiveReaderQueuesEveryRound` | read_caster.go:161-167 | a reader that accepts every round queues exactly the chunks of all rounds, in order, and is never evicted |
| `EndToEnd.DrainCompletes` | end_to_end_test.go:66-127 | on a closed reader, any reads of positive sizes (byte-at-a-time included), at least one more than the pending bytes, return exactly the pending bytes and then EOF |
| `EndToEnd.EvictedReaderDrainsThenEof` | read_caster.go:169-170 | an evicted reader is closed but keeps its queue; it drains it and then sees plain EOF |
| `EndToEnd.EndToEndDelivery` | end_to_end_test.go:14-64 | a new reader that accepts every round, read at any pace during the run and drained after the final round, returns exactly the concatenated chunks of all rounds and then EOF |
| `EndToEnd.OneRoundThroughTheClasses` | end_to_end_test.go:14-64 | through the classes: a caster with one reader, whose first Read launches the pump, gets the round's bytes `[1, 2]` from its next Read, without EOF, and that Read does not launch the pump again |
| `EndToEnd.EofOnlyAfterEverything` | reader.go:38-40 | if a Read in a run returns EOF, everything queued so far has been handed out and the channel is closed |

## Left out

- Goroutines, `sync.Once`, channel blocking, `select` and `time.NewTimer` are not modelled. The pump is a method run one iteration at a time. Each reader's outcome for a round (accepted, or the timer fired) is an input.
- A blocking receive becomes a precondition. `Reader.ChanReader.Read` requires something staged, something queued, or a closed channel.
- `Caster.ReadCaster.PumpStep`: admits any accept/evict outcome for a round, including outcomes the single shared timer cannot produce (see Findings). The only constraint is that a live reader can accept only when its queue has room. So its guarantees hold for every run with `backlogSize >= 1` in which every reader is registered before the first Read. It does not claim any time bound.
- The rendezvous case `backlogSize == 0`: in the model a reader with capacity 0 can never accept, whereas in Go an unbuffered send succeeds when the reader is waiting.
- The Progress channel's non-blocking sends (read_caster.go:143-146) drop values by design; only `totalBytesRead` and the closing of Progress are modelled.
- The source `io.Reader` (the `in` field, read_caster.go:139) is an external collaborator: each read is the caller's `data` (with `|data| <= bufferSize`) and `err`.
- `time.Duration` is an integer (nanoseconds); nothing in the model depends on its value.
- Panics: `NewSize` returns `None`, and `EnsureCanChangeConfig`/`SetReaderTimeout` return `false`. Closing a closed channel, sending on a closed channel and `make` with a negative capacity become `requires` clauses.
- `Caster.ReadCaster.NewReader`: requires that the pump has not been launched. After launch, its append of `c.readers` races with the pump goroutine ranging over the same slice, an unsynchronized access.
- `Reader.ChanReader.Read`: models reader.go:28-66. Its first statement, `r.once.Do(r.caster.beginReading)` (reader.go:26), is `Caster.ReadCaster.StartRead`, because the reader's back-pointer to its caster is not modelled. `Read` therefore requires that `StartRead` ran for that reader.
- The unreachable final `return 0, io.EOF` (reader.go:68).
- Slices: every reader is handed the same backing array `buf[:n]`; the model copies values, so aliasing and the actual memory footprint are not modelled (`MaxMemoryUse` is an advisory figure computed from the configuration).
- `totalBytesRead` is an unbounded integer; its 64-bit wrap-around is not modelled.
- `Caster.Wrap64`, `Caster.ReadCaster.MaxMemoryUse`: assume a 64-bit platform. On a 32-bit platform Go's `int` is 32 bits wide and the product wraps modulo 2^32 instead.
- Test harness plumbing (`sync.WaitGroup`, `log.Printf`, `ioutil.ReadAll`) and the test that only checks that `chanReader` satisfies `io.Reader` (reader_test.go:10-15).

## Findings

| source | as written | input that shows it | evidently intended | confidence | as-written member | corrected member |
|---|---|---|---|---|---|---|
| read_caster.go:160-171 | one timer is created per round and its channel yields a single value, so at most one reader can be evicted per round; after that, each send to a later live reader waits until it is accepted | backlog 1, three registered readers, one of which reads (its first Read launches the pump) while the other two never read, and a source of at least two chunks: round 1 fills both idle queues; in round 2 the first idle reader is evicted when the timer fires, and the send to the second blocks forever, so the pump hangs | each live reader's send gives up after `readerTimeout` on its own, so every round finishes and a stalled reader is evicted | high; not executed | `Caster.SharedTimerStalls` | `Caster.PerReaderTimerCompletes` |
