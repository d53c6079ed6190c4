# Verified model of the netflow collector's delivery, storage and template sharing

The collector moves flow records from push sources (UDP) and one pull source (a Kafka topic) through a
bounded pipeline into one or more sinks. This project models the parts where that can go wrong and
proves what the system promises about them. `dafny verify dfyconfig.toml` checks everything.

| file | what it models |
|---|---|
| `Basics.dfy` | what the other files share |
| `Watermark.dfy` | the write watermark: contiguous prefix, failed ranges, `await`; as functions and as a class |
| `Pipeline.dfy` | offers, batcher, workers and sinks as a value that steps, and what every step keeps |
| `Batcher.dfy` | the sequential code of that pipeline as a class whose methods are steps of the model: send, push offer, take, flush, drain |
| `Spine.dfy` | topic, poll loop, committer, pipeline, sinks and crashes in any interleaving; at-least-once |
| `Witness.dfy` | at-least-once exactly: the run in which the code as written loses a message, for every configuration that has one |
| `Intake.dfy` | blocking pull offers and the one-slot wake-up channel |
| `Storage.dfy` | flow_records with COPY and fallback, and chunked INSERT IGNORE; exactly one row per key |
| `Exporters.dfy` | exporter id cache against the exporters table, over histories of batches |
| `Keyset.dfy` | keyset pagination over a changing table |
| `Rows.dfy`, `Wire.dfy` | records as rows, as parallel columns and as messages; the dedup key's preimage; big-endian reads |
| `Templates.dfy`, `Replay.dfy` | template sharing between instances over a compacted topic; the replay barrier |
| `Divergence.dfy` | exactly when instances agree, and two ways in which they come to differ |
| `Clock.dfy` | NTP and uptime arithmetic |

## Main results

- **At least once** (`Spine.AtLeastOnce`, `Witness.AtLeastOnceIff`). Over every run, of any length and
  any interleaving of producers, polls, push and pull offers, flushes, worker completions, sink
  failures, failed or partial commits, rewinds and crashes, every message below a committed offset
  either did not decode or is in every sink, **if and only if** the configuration has one worker
  (NFC_WORKERS defaults to 4). In a sink that inserts first-wins, as the PostgreSQL and MariaDB
  backends do, it is then exactly one row (`Spine.ExactlyOneRow`).
- **Why.** `failed` is commented as oldest first but is appended in completion order, and `await`
  looks at its head only. `WatermarkModel.SoundIffHeadIsOldest` gives the exact state in which its
  answer is sound for every waiter; failed batches that complete in sequence order keep it so with any
  number of workers. `Witness.CommittedButNowhereStored` builds the losing run for every configuration
  with two or more workers. A scan of the whole list (`Config.repaired`) needs no condition.
- **Shutdown** hands over every accepted record exactly once if offers end before the drain loop does;
  what is sent later stays in the buffer (`Spine.ShutdownHandsOverEverything`,
  `PipelineModel.StoppedMeansHandedOver`, `Witness.LateOfferIsStranded`).
- **Keyset walks** return each row that matches throughout exactly once, whatever is inserted or deleted
  between pages, if and only if the query window's first and last microsecond fit the cursor's 64 bits
  of nanoseconds, years 1677 to 2262 (`Keyset.FaithfulIffWindowFits`).
- **Storage and exporters**: COPY with fallback and chunked INSERT IGNORE are one first-wins fold, all
  or nothing; a redelivered batch, any number of batches later, adds its unkeyed rows only; over any
  history of batches, errors and cache clears every last_seen_at is what upserting each record on its
  own would store.
- **Template convergence** for any number of instances, with re-sent templates, compaction, unconfirmed
  publications and restarts. A quiet fleet holds the last word on every template if and only if no
  instance lost a version that it holds (`Divergence.UpToDateIffNothingLost`): it learned a version
  other than the one it last read of that template, the announcement was dropped or its Put reported
  an error, and it has read nothing about the template since. Such a version was always dropped or
  failed to reach the topic, so a fleet that missed no announcement converges
  (`Divergence.NothingMissedConverges`). A failed publication or a full queue alone is enough to differ.

Records, times and sequence numbers are unbounded integers unless a width is written out. Scheduling,
contexts and timers are steps that may happen; failures of statements, connections and sinks are
parameters or choices of the step.

## Model

| member | source | states |
|---|---|---|
| WatermarkModel.EveryOrderTracks | internal/pipeline/watermark.go:42-59 | in whatever order distinct tiled batches complete, `written` is the end of the contiguous prefix, `done` holds exactly the completed ranges beyond it, `failed` the rejected ones in completion order |
| WatermarkModel.CompleteTracks | internal/pipeline/watermark.go:49-57 | one completion keeps the watermark on the contiguous prefix, and the prefix never shrinks |
| WatermarkModel.AdvanceReaches | internal/pipeline/watermark.go:50-57 | the advance loop stops exactly at the first batch that has not completed |
| WatermarkModel.WrittenIsLargestPrefix | internal/pipeline/watermark.go:10-13 | n <= written if and only if every record 1..n went through a completed batch |
| WatermarkModel.SoundIffHeadIsOldest | internal/pipeline/watermark.go:82-96 | `await` reports every pending failure at or below what it acknowledges, for every waiter, if and only if no failure already passed by `written` lies behind a younger head |
| WatermarkModel.RejectedOutOfOrder | internal/pipeline/watermark.go:46-48 | [3,4] rejected before [1,2]: `await(2)` answers that everything up to 2 is written |
| WatermarkModel.SortedIsSound | internal/pipeline/watermark.go:25-25 | the list being sorted, as its comment says, is sufficient, and reports keep it sorted |
| WatermarkModel.RepairAgreesWhenSorted | internal/pipeline/watermark.go:82-92 | scanning the whole list answers the same on a sorted list |
| WatermarkModel.ReportsWakeNobody | internal/pipeline/watermark.go:82-107 | forgetting ranges without a wake-up is safe: it never changes what another blocked waiter would be told |
| WatermarkModel.Watermark.CompleteBatch | internal/pipeline/watermark.go:42-59 | the mutable watermark does what `Complete` specifies, for any arguments, terminates and wakes waiters |
| WatermarkModel.Watermark.AwaitOnce | internal/pipeline/watermark.go:81-102 | one pass of the wait loop, with its filter loop, does what `Await` specifies |
| WatermarkModel.Watermark.Close | internal/pipeline/watermark.go:62-68 | closing changes only the flag and wakes waiters |
| PipelineModel.WriteOkMeansEverySink | internal/pipeline/pipeline.go:270-303 | a write counts as successful if and only if there is a sink and every sink accepted the batch |
| PipelineModel.SendKeeps | internal/pipeline/pipeline.go:108-119 | sending into the buffer keeps numbering, tiling, work and watermark invariants, with the lock still held |
| PipelineModel.CountKeeps | internal/pipeline/pipeline.go:59-65 | the sequence number handed out is the record's position in channel order, even if the batcher took it meanwhile |
| PipelineModel.TakeKeeps | internal/pipeline/pipeline.go:212-219 | the s-th record taken is the one numbered s |
| PipelineModel.FlushKeeps | internal/pipeline/pipeline.go:204-211 | flushed batches tile 1..taken, carry exactly the records their range numbers, and never exceed the batch size |
| PipelineModel.FinishKeeps | internal/pipeline/pipeline.go:186-194 | every batch completes exactly once, an accepted batch is in every sink, and each sink holds what it held at the start and, in completion order, the batches it did not reject |
| PipelineModel.SinkHoldsOnce | internal/pipeline/pipeline.go:270-303 | in every good state a sink has each record as often as at the start, and once for each batch with it that the sink took |
| Spine.SinksHoldOnce | internal/pipeline/pipeline.go:270-303 | in every state of every run without a crash each sink holds the records of the batches it took, once each and nothing else |
| PipelineModel.WrittenIsStored | internal/pipeline/watermark.go:10-20 | a record at or below `written` that is in no rejected batch is in every sink |
| PipelineModel.RecordIsInOnePlace | internal/pipeline/pipeline.go:59-65 | every accepted record is buffered, pending, in flight or completed, in exactly one of these places and at the position its number says |
| PipelineModel.FinishSorted | internal/pipeline/watermark.go:46-48 | if failed batches complete in sequence order, the failed list stays sorted |
| PipelineModel.StoppedMeansHandedOver | internal/pipeline/pipeline.go:239-259 | when `Run` has returned, the batches are exactly the records accepted before the drain loop ended, in order, each batch completed exactly once, and the buffer holds exactly those sent later |
| PipelineModel.StoppedAnswersEveryone | internal/pipeline/watermark.go:62-102 | after `Run` has returned nobody waits, and a waiter beyond `written` is told so unless a failure is reported |
| Spine.ShutdownHandsOverEverything | internal/app/run.go:280-298 | if no offer enters from some moment before the drain loop ended, then before `Run` returned the batches were the accepted records in order, each written once, and a sink that rejected none has each record exactly once more than at the start |
| Witness.LateOfferIsStranded | internal/pipeline/pipeline.go:93-104 | an offer that passed the closing flag but sends after the drain is accepted and never handed over |
| PipelineModel.UnfinishedBound | internal/pipeline/pipeline.go:183-259 | accepted records not yet through the sinks never exceed BufferSize + (Workers + 1) * BatchSize |
| Batcher.Pipeline.New | internal/pipeline/pipeline.go:71-88 | a pipeline comes back exactly if the options are positive and there is a sink, and it starts empty |
| Batcher.Pipeline.TryOffer | internal/pipeline/pipeline.go:108-119 | accepted if and only if there is room; a send and a count of the model; the number is the record's place among all accepted ones |
| Batcher.Pipeline.Offer | internal/pipeline/pipeline.go:93-104 | ingested + dropped grows by exactly one per offer, and ingested exactly when the record entered |
| Batcher.Pipeline.Take | internal/pipeline/pipeline.go:212-219 | a take of the model: the next record in sequence order, and a wake-up token |
| Batcher.Pipeline.Flush | internal/pipeline/pipeline.go:204-211 | a flush of the model: the range recovered by counting numbers exactly the batch's records |
| Batcher.Pipeline.Drain | internal/pipeline/pipeline.go:239-254 | shutdown hands over every accepted record, in order, in batches no larger than the batch size |
| Spine.RunKeeps | internal/source/kafka/kafka.go:141-221 | in every state of every run polls are contiguous from what is acknowledged, each poll's number covers its records, and no failure touching a live session is forgotten |
| Spine.PollIsSecure | internal/source/kafka/kafka.go:155-169 | a poll answered `Written` with nothing pending below it is in every sink, although its batches are shared with other polls and sources |
| Spine.AtLeastOnce | internal/source/kafka/kafka.go:109-121 | every message below a committed offset did not decode or is in every sink, with the repaired scan or while the failed list is headed by its oldest passed range |
| Witness.AtLeastOnceIff | internal/config/config.go:68-68 | a configuration keeps at-least-once in every state of every run if and only if it has one worker or the repaired scan |
| Spine.ExactlyOneRow | internal/source/kafka/kafka.go:6-10 | ... and every first-wins table has exactly one row with its received_at and its dedup key, however often it was delivered |
| Spine.InOrderSuffices | internal/pipeline/watermark.go:46-48 | failed batches completing in sequence order is enough, with any number of workers |
| Spine.OneWorkerSuffices | internal/pipeline/pipeline.go:186-194 | with one worker at-least-once needs no hypothesis |
| Spine.CommittedNeverDecreases | internal/source/kafka/kafka.go:155-169 | committed offsets never go back, over rewinds, failed commits and crashes, although a commit overwrites |
| Spine.CommitExact | internal/source/kafka/kafka.go:165-167 | a commit that takes effect on a partition of the poll reaches exactly the poll's end there, and the other partitions stay |
| Spine.CommittedIsAcknowledged | internal/source/kafka/kafka.go:155-169 | if no commit fails, the committed offsets of every state of every run are exactly the positions acknowledged |
| Spine.ResumesFromCommitted | internal/source/kafka/kafka.go:121-130 | a rewind and a restart begin at the committed offsets with nothing outstanding |
| Spine.PolledFromCommitted | internal/source/kafka/kafka.go:141-221 | in every state of every run the session has polled exactly the messages from the committed offsets it started at to its position |
| Spine.RewindNeedsFailure | internal/source/kafka/kafka.go:214-220 | a session rewinds only if its oldest poll was told of a write failure |
| Spine.ReportForgetsOldRecordsOnly | internal/pipeline/watermark.go:82-91 | a failure reported to one session covers no record a later session will offer, and ends the session's commits |
| Spine.FreshSession | internal/source/kafka/kafka.go:121-130 | a rewind or a restart resumes from the committed offsets with nothing skipped and no failure owed to it forgotten |
| Witness.CommittedButNowhereStored | internal/pipeline/watermark.go:82-82 | for every configuration with two or more workers, a complete run of the code as written that commits a message stored in no sink |
| Intake.NoOfferIsStranded | internal/pipeline/pipeline.go:129-144 | with any number of offerers and one token, nobody waits unless a token, a record, the batcher or an awake offerer will lead to a wake-up |
| Intake.WakesArePaidFor | internal/pipeline/pipeline.go:129-144 | over any interleaving the buffer holds what was put and not taken, each record taken is signalled once, and no signal wakes two offerers |
| Intake.TokenIsUnusedSignal | internal/pipeline/pipeline.go:212-219 | the token is there exactly if a signal was given that nobody has consumed, also ahead of any waiter |
| Intake.WaitingOfferCanComplete | internal/pipeline/pipeline.go:127-144 | from every reachable state every waiting offerer can still be accepted within seven steps, without new arrivals |
| Storage.DeliveredSlotsStoredOnce | migrations/postgres/00001_flow_schema.sql:53-57 | every delivered (received_at, dedup_key) is stored exactly once and no other appears |
| Storage.SlotIsTimeAndKey | migrations/postgres/00001_flow_schema.sql:56-57 | two keyed rows are duplicates if and only if both received_at and dedup_key agree |
| Storage.NoTwoAlike | migrations/postgres/00001_flow_schema.sql:56-57 | no two rows of the table share received_at and a key, whatever is written |
| Storage.DistinctRowIsStored | internal/sink/postgres/postgres.go:101-124 | a row that nothing else shares received_at and key with is stored, exactly once |
| Storage.UnkeyedStoredPerWrite | migrations/postgres/00001_flow_schema.sql:53-57 | rows with a NULL key are stored once per write |
| Storage.DeliveryOrderIrrelevant | internal/source/kafka/kafka.go:6-10 | order, repetition and batch grouping of deliveries are invisible: the same number of rows per slot and the same unkeyed rows, and the very same rows if what is delivered for a slot is always the same row |
| Storage.RedeliveryIsIdempotent | internal/flow/ports.go:14-19 | a batch written again, after any other batches, adds its unkeyed rows and nothing else, so it changes nothing exactly if all its rows have keys |
| Storage.FirstWins | internal/sink/postgres/rows.go:12-26 | what is stored is never replaced by a later duplicate |
| Storage.GroupingIrrelevant | internal/sink/postgres/postgres.go:101-124 | writing batch by batch equals one fold over all rows |
| Storage.NoConflictStoresAll | internal/sink/postgres/postgres.go:109-116 | a COPY that meets no conflict stores what the conflict-tolerant insert would |
| Storage.FlowTable.CopyFrom | internal/sink/postgres/postgres.go:113-119 | all rows or none, also when its answer is lost; a violation exactly when, before the connection fails, a row meets an occupied slot in the table or earlier in the batch |
| Storage.FlowTable.InsertIgnore | internal/sink/postgres/rows.go:12-26 | the first-wins fold, atomically, with ids never reused |
| Storage.FlowTable.WriteBatchCopy | internal/sink/postgres/postgres.go:101-124 | COPY with fallback has the effect of the fold; after an error, of the fold or none, the former only if an answer was lost |
| Storage.FlowTable.WriteBatchChunked | internal/sink/mariadb/mariadb.go:156-181 | chunks of 1000 in one transaction have the effect of one fold over the batch; after an error, of the fold or none, the former only if the answer to COMMIT was lost |
| Exporters.TouchIsUpsert | internal/sink/postgres/postgres.go:151-168 | the UPDATE by cached id changes the table exactly as the upsert it replaces |
| Exporters.LatestPerExporter | internal/sink/postgres/postgres.go:143-149 | although it compares untruncated with truncated times, the result is the maximum truncated time per exporter |
| Exporters.Backend.Remember | internal/sink/postgres/postgres.go:181-188 | the cache never exceeds 4096 entries and keeps agreeing with the table |
| Exporters.Backend.ResolveOne | internal/sink/mariadb/mariadb.go:200-223 | hit or miss, the table changes as by an upsert or, on an error, as by an upsert or not at all; the id is the table's and is then cached, and a cached exporter uses up no id |
| Exporters.Backend.ResolveExporters | internal/sink/postgres/postgres.go:142-172 | ids used are the table's, last_seen_at is the maximum, nobody else is touched, one statement per exporter; on an error the same for the exporters already done, and for one more if its answer was lost |
| Exporters.OrderIrrelevant | internal/sink/postgres/postgres.go:150-170 | two calls that take the exporters of a batch in different orders leave every last_seen_at the same |
| Exporters.LastSeenIsMaximum | internal/sink/postgres/postgres.go:158-166 | the last_seen_at a history leaves is the maximum asked for, if the exporter was asked for |
| Exporters.Backend.ServeHistory | internal/sink/postgres/postgres.go:142-188 | over any history of batches, errors, lost answers and cache clears, exporters and last_seen_at are what upserting every served record on its own, without cache or batching, stores |
| Keyset.ScanPage | internal/sink/postgres/postgres.go:271-294 | the scan loop returns the page and a cursor exactly when a further row exists |
| Keyset.PageSkipsNothing | internal/sink/postgres/postgres.go:261-294 | no matching row between a page's cursor and its end is left out |
| Keyset.WalkDescends | internal/sink/postgres/postgres.go:222-295 | keys collected over a walk are strictly descending, hence never repeated, whatever happens to the table between pages |
| Keyset.WalkMissesNothing | internal/sink/mariadb/mariadb.go:273-337 | a row that matches throughout is collected or still ahead of the cursor |
| Keyset.FixedTableWalk | internal/sink/mariadb/mariadb.go:273-337 | a finished walk over a fixed table is exactly the matching rows in order |
| Keyset.WalkAnswersTheQuery | internal/sink/postgres/postgres.go:233-264 | a finished walk returns exactly the rows in the truncated window with the exporter, source, destination and protocol the query gives, newest first |
| Keyset.PageSizes | internal/sink/postgres/postgres.go:225-231 | pages have the size asked for, 100 if none was, at most 1000; only the last may have fewer |
| Keyset.WalkTerminates | internal/sink/postgres/postgres.go:280-293 | a walk over n rows has at most n / limit + 1 pages |
| Keyset.CursorIsExact | internal/sink/postgres/postgres.go:290-303 | a cursor names its row if and only if the row's time fits 64 bits of nanoseconds |
| Keyset.FaithfulIffWindowFits | internal/sink/postgres/postgres.go:290-303 | whatever is inserted or deleted between pages, every walk is without repeats and misses no row that matches throughout, if and only if the first and last microsecond of the query window fit the cursor |
| Keyset.BrokenWalk | internal/sink/mariadb/mariadb.go:332-344 | at every instant that does not fit, for every limit and filter, a walk over one page plus one row loses the row or starts over |
| Rows.StoreRoundTrip | internal/sink/postgres/rows.go:67-165 | the table takes a record exactly if it has both addresses and a known flow type; it reads back with truncated times and its id, every unsigned value intact, and its addresses intact if and only if none has a zone |
| Rows.FormsAgree | internal/sink/postgres/rows.go:97-124 | COPY and the unnest insert are given the same rows in the same order, with every value under its own column |
| Rows.Fill | internal/sink/postgres/postgres.go:109-112 | after the batch loop row i reads back as record i, as far as the table keeps it, under its exporter's id |
| Wire.RoundTrip | internal/wire/wire.go:56-144 | decoding an encoded record succeeds exactly for complete records whose times survive truncation, and gives the normal form whatever the transport timestamp |
| Wire.TransportTimeStandsIn | internal/wire/wire.go:110-118 | a message without received_at decodes as one received at the transport's timestamp, truncated |
| Wire.RefusedFor | internal/wire/wire.go:99-116 | which messages are refused, and which problem is reported first |
| Wire.NormalIsStable | internal/wire/wire.go:117-143 | the normal form is a fixed point and can be carried again |
| Wire.TiersAgree | internal/wire/wire.go:1-10 | any number of tiers deliver what the first one delivers |
| Wire.PreimageSurvivesTiers | internal/source/kafka/kafka.go:283-299 | crossing tiers changes nothing that is digested |
| Wire.PreimageIgnoresTransport | internal/source/kafka/kafka.go:270-281 | the dedup key does not depend on the transport's timestamp |
| Wire.PreimageIsTheNaturalKey | internal/source/kafka/kafka.go:286-296 | two records have the same 61 bytes if and only if exporter, start in microseconds, addresses, ports and protocol agree |
| Wire.UnixMicroCounts | internal/source/kafka/kafka.go:291-291 | the digested time tells microseconds apart, counts them, and is 0 at the Unix epoch |
| Wire.Pieces | internal/source/kafka/kafka.go:286-296 | which bytes of the preimage hold which field, big-endian |
| Wire.As16Injective | internal/source/kafka/kafka.go:283-290 | among valid, unmapped, zone-free addresses the 16 bytes tell addresses apart |
| BigEndian.BeUint | internal/source/netflow/decode.go:227-234 | the big-endian value modulo 2^64 for input of any length |
| BigEndian.ValueOfBytes | internal/source/kafka/kafka.go:291-296 | fixed-width big-endian encoding reads back |
| Clock.FractionIsExact | internal/source/netflow/decode.go:262-262 | no floating-point operation rounds, in any rounding mode: the fraction times 5^9 is below 2^53 |
| Clock.NtpIsExact | internal/source/netflow/decode.go:258-264 | every 64-bit NTP time becomes the exact floor in microseconds, using all 32 fraction bits |
| Clock.UptimeIsExact | internal/source/netflow/decode.go:86-101 | no overflow; the time is the floor of wall clock minus uptime plus offset; differences of times equal wire differences exactly |
| TemplateKeys.KeyRoundTrip | internal/source/netflow/templates.go:41-67 | every published key parses back to the same exporter, version, domain and id |
| TemplateKeys.ParsedIsValid | internal/source/netflow/templates.go:46-67 | whatever a key says, only versions, domains and ids in the protocol's ranges are read from it |
| Templates.RunKeeps | internal/source/netflow/templates.go:122-209 | in every state of every run each instance agrees with the log on each template, or has news of it queued or unread, or lost its publication |
| Templates.Converges | internal/templatestore/kafka.go:1-10 | once queues are empty and watchers at the end, every instance holds the last word of everything ever published on every template whose held version it did not lose |
| Divergence.AgreesIffNotLost | internal/source/netflow/templates.go:15-25 | in every run, a quiet instance holds the last word on a template if and only if it did not lose the version it holds, however often versions are re-sent |
| Divergence.UpToDateIffNothingLost | internal/source/netflow/templates.go:15-25 | a quiet fleet holds the last word on every template everywhere if and only if nobody lost a version that it holds |
| Divergence.FleetAgreesIff | internal/source/netflow/templates.go:15-25 | the instances of a quiet fleet agree with each other if and only if each template was lost by nobody, or by everybody in the same version |
| Divergence.NothingMissedConverges | internal/source/netflow/templates.go:147-173 | if no announcement was dropped or failed to reach the topic, and no instance restarted with one queued, a quiet fleet is up to date and agrees, whatever errors Put reported |
| Divergence.RunConserves | internal/source/netflow/templates.go:147-173 | in every state of every run each version learned is queued, published or missed, exactly as often as it was learned |
| Divergence.FullQueueDiverges | internal/source/netflow/templates.go:36-39 | a full queue alone, with every queued publication successful, leaves a quiet fleet in disagreement |
| Templates.FleetAgrees | internal/source/netflow/templates.go:15-25 | two quiet instances that lost no version they hold have the same templates |
| Divergence.LostPublicationDiverges | internal/source/netflow/templates.go:161-173 | one failed publication leaves a quiet fleet in disagreement |
| Templates.CompactKeepsLast | internal/templatestore/kafka.go:8-10 | compaction changes the latest value of no key |
| Templates.CompactionInvisible | internal/templatestore/kafka.go:78-128 | in every state of every run, replaying the compacted log gives what replaying everything ever published gives |
| Templates.RestartStartsOver | internal/templatestore/kafka.go:81-90 | a replaced instance has forgotten everything and reads every partition from the start |
| Templates.Sharing.AddTemplate | internal/source/netflow/templates.go:203-209 | a learned template is installed, and queued unless it does not encode or the queue holds 1024; one the decoder refuses changes nothing |
| Templates.Sharing.PublishNext | internal/source/netflow/templates.go:161-173 | one turn of the publish loop: the head is published or lost, never retried |
| Templates.Sharing.ApplyStored | internal/source/netflow/templates.go:175-195 | a stored template is installed without being queued again; an unreadable key or value changes nothing |
| Replay.Watch | internal/templatestore/kafka.go:96-128 | `synced` is called at most once, at the first moment every non-empty partition has reached its end offset, and not at all before |
| Replay.BarrierIsComplete | internal/templatestore/kafka.go:78-80 | when it is called, every live record below every end offset has been applied |

## Left out

- The poll loop and the committer of the pull source, and the workers, are steps of a machine over values, not methods: they run concurrently. What is not captured is Go's scheduling and memory model.
- Kafka group rebalances and several central instances: one consumer per session, partitions read in order, a commit that takes effect on any subset of its partitions.
- Topic retention: messages are never deleted from the modelled topic.
- Wrap-around of the 64-bit sequence number after 2^64 records.
- Intake.WaitingOfferCanComplete: states that a completing schedule exists, not that a fair scheduler finds it.
- Withdrawal of templates: it is never published.
- Templates and rows carry opaque values: goflow2 parsing, JSON, base64, SHA-256 and netip text forms are outside the model; an exporter is its canonical address text. Collision freedom of the digest is not claimed.
- Wire.RoundTrip: JSON is taken to be its own inverse, so messages that JSON cannot carry (years outside 0 to 9999) are not modelled.
- Concurrent batches against one exporter cache: statements are atomic and ids never change, but two calls are not interleaved.
- Rows.Fill: the twenty slices are one local value that the loop replaces; sharing of their backing arrays is not captured.
- Exporters: addresses that differ only in their zone are separate cache keys but share a table row.
- Retention deletes as such (walks allow any deletes), listing exporters, and the Kafka and ClickHouse sinks, which are not first-wins: ClickHouse's `seq` is not unique per (received_at, dedup_key).
- Field mapping of v9 and IPFIX information elements, HTTP API, authentication, configuration, metrics and logging: tables and plumbing without state of their own.
