# Verification of the tick-to-trade pipeline

A Dafny model of the repository's order-book, replay, market-making and pipeline logic, with
proofs. All the parts keep several views of one order book, or of one inventory, in agreement
over runs of any length; the proofs are about those runs.

* `Itch`, `RefBook`, `Translator`, `Tables`: TotalView-ITCH 5.0 book events, the reference book
  with its incremental level maps, the translator, and how their tables relate.
* `Engine`, `PriceTime`: the vendored matching engine's book for limit orders (level arrays,
  FIFO queues, cached 32-bit quantities, id index, capacities), and the proof that it refines
  price-time priority on a plain list of arrivals.
* `Replication`, `Capacity`, `Snapshots`: what the engine does with the translator's messages:
  never crossed means never filled, what happens on days that outgrow the engine, and exactly
  when starting from a snapshot is the same as the whole history.
* `Framing`, `Wire`: length-prefixed frames, big-endian readers, decoders, the message builder,
  the packet encoder and the live adapter.
* `Verdict`, `Ticks`, `Replay`, `Agreement`: the replay driver, its capacity report, its full-depth
  comparison, and what its verdict is worth.
* `Accounting`, `MarketMaker`: average-cost accounting with truncating division, and the market
  maker object.
* `QuoteLoop`, `Attribution`, `RealLoop`, `QuoteRuns`: the cancel / wait / quote loop against any
  asynchronous engine that keeps a small contract, the proof that the matching engine keeps it
  in every run, and runs against the matching engine that show what is not guaranteed.
* `Pipeline`: producer, engine and drain threads with bounded queues and the stop protocol, as
  interleaved steps over any deterministic engine step function.
* `Generator`, `Pool`: the synthetic day for all random draws, and the swap-remove pools.
* `DayFile`: a whole file, from the generator's bytes through the reader's choice of one symbol's
  book messages back to the events.

`dafny verify dfyconfig.toml` checks the whole project.

## Where the code and its description differ

The model follows the code. Each of these has its exact condition below, and the lemmas named
show where it fails.

* include/hft/market_maker.hpp:147-150 says the average-cost result does not depend on fill
  order. Truncation makes it depend on it (`OrderMatters`): two orders agree precisely when
  their divisions dropped equally much (`OrderFreeIff`), and a round trip is exact precisely
  when no blending fill leaves a remainder (`ExactIffEven`).
* include/hft/market_maker.hpp:132 forgets an order when a report's leaves are zero, but the
  engine reports the aggressor's leaves (order_book.cpp:442-455). A resting quote hit in parts
  is forgotten after the first part (`SecondHitIsMissed`), so the limit bounds the tracked
  position but not the real one (`Escapes`); `RealLimitIff` says exactly for which
  configurations it does, and `TrueLimit` under which assumption.
* BUGS_FOUND.md:13-16 says draining until empty after the flag is cleared loses no tail report.
  The flag is cleared before the engine is stopped, so the drain can exit first; `TailIff` says
  exactly when nothing is lost. Reports are also dropped when their queue is full (`NoDropIff`).
* include/hft/itch50.hpp:252-254 says ascending references preserve time priority. That holds
  exactly when references rise within every queue (`SnapshotCanReorder`,
  `SnapshotFaithfulIff`) and the engine has refused no order that is still live
  (`RefusedStaysLost`, `RisingCutIff`).
* A zero-share order breaks the level maps (`ZeroShareOrderIsStranded`, `StepIndexedIff`), and a
  zero reference is renamed by the engine (`ZeroReferenceStaysBehind`, `ZeroReferenceIff`).
* The capacity report counts orders, not price levels, and does not measure the snapshot
  (`SilentButLost`, `CapacityReportIff`, `TooManyPricesDisagree`). Level quantities are 32 bits
  in the engine and 64 in the reference (`ReplayableAgreesIff`).

## Model

| member | source | states |
|---|---|---|
| ReferenceBook.StepIndexedIff | include/hft/itch50.hpp:142-167 | after any event, known or unknown, duplicate or over-reducing, both level maps equal the recomputation from the live orders (prices, sums, counts) if and only if the event does not strand a zero-share order |
| ReferenceBook.StepTable | include/hft/itch50.hpp:142-167 | one event changes the order table as section 4.4 of TotalView-ITCH 5.0 says, refusing a live reference |
| ReferenceBook.RunIndexed | include/hft/itch50.hpp:142-167 | over every run with positive share counts the level maps stay exact and the table is the section 4.4 table |
| ReferenceBook.PositiveNeverStrands | include/hft/itch50.hpp:189-195 | with positive shares no event can erase a level that still has an order |
| ReferenceBook.ZeroShareOrderIsStranded | include/hft/itch50.hpp:189-195 | a zero-share order is left live without a level: the run that shows it |
| ReferenceBook.ClampsIdle | include/hft/itch50.hpp:189-195 | in an exact state neither clamp of sub_level can take effect |
| ReferenceBook.LevelsFit | include/hft/itch50.hpp:187-187 | level quantities fit 64 bits and level counts fit 32, with fewer than 2^32 live orders |
| ReferenceBook.BboUnique | include/hft/itch50.hpp:168-173 | the top of book recomputed from the live orders is unique, so the incremental one and summarize agree |
| ReferenceBook.DepthHeadIsTouch | include/hft/itch50.hpp:174-181 | the head of the depth list is the touch, and an empty list means no touch |
| ReferenceBook.DepthTotals | include/hft/itch50.hpp:174-181 | the depth list's quantities and counts sum to the side's live shares and live orders |
| ReferenceBook.CrossedByTouch | include/hft/itch50.hpp:182-184 | some bid is at or above some ask exactly when the best ones are |
| ReferenceBook.RefBook.SubLevelAt | include/hft/itch50.hpp:189-195 | the whole new state of sub_level |
| ReferenceBook.RefBook.Add | include/hft/itch50.hpp:142-145 | the object follows the specified step; a live reference only counts a duplicate |
| ReferenceBook.RefBook.Reduce | include/hft/itch50.hpp:146-154 | the object follows the specified step; that the step clamps the level exactly is `StepIndexedIff`, and that it counts each over-reduction is `RunCounts` |
| ReferenceBook.RefBook.Remove | include/hft/itch50.hpp:155-160 | the object follows the specified step |
| ReferenceBook.RefBook.Replace | include/hft/itch50.hpp:161-167 | the object follows the specified step: remove, then add on the same side |
| ReferenceBook.RefBook.TopOfBook | include/hft/itch50.hpp:168-173 | bbo() is the top of the level maps, and in every exact state the top of book recomputed from the live orders |
| ReferenceBook.RefBook.Depth | include/hft/itch50.hpp:176-181 | depth() lists every entry of the level map strictly best first, and in every exact state every live price once with its sum and count |
| ReferenceBook.TouchIsHead | include/hft/itch50.hpp:168-181 | in any state, exact or not, the head of the depth list is the top of the level map |
| ReferenceBook.RefBook.IsCrossed | include/hft/itch50.hpp:182-184 | in any state crossed() is true exactly when some bid level is at or above some ask level; in an exact state, exactly when some live bid is at or above some live ask |
| ReferenceBook.LevelsCrossIff | include/hft/itch50.hpp:182-184 | in an exact state the level maps cross exactly when the live orders do |
| Tables.RunCounts | include/hft/itch50.hpp:142-167 | unknown_ref, duplicate_ref and over_reduce are exactly the numbers of events of the run that named a dead reference, repeated a live one, or took more shares than the order had |
| Tables.TwoTablesOneMeaning | include/hft/itch50.hpp:142-251 | whenever duplicate_ref stays put, RefBook and Translator hold equal tables and have counted equally many unknown references |
| Tables.MessagesMeanTable | include/hft/itch50.hpp:214-251 | for every run, duplicates included, a book keyed by id that applies the emitted messages holds the translator's orders with prices times 100 |
| Tables.HoldsUnique | include/hft/itch50.hpp:266-272 | that book is determined by the table |
| Translation.TablesAgreeIff | include/hft/itch50.hpp:214-251 | from equal tables the translator and the reference table stay equal through an event if and only if it does not give a live reference a different order |
| Translation.RunTable | include/hft/itch50.hpp:214-251 | without duplicates the translator holds the section 4.4 table and its unknown_ref is exact |
| Translation.MessagesDescribe | include/hft/itch50.hpp:214-272 | every message carries its order's price times 100 and side: a modified or cancelled order's as it was before, a new or modified one's, with its size, as it is after; sequence numbers go up by one |
| Translation.MessageKinds | include/hft/itch50.hpp:214-251 | which messages an event makes: none for an unknown reference, a cancel exactly when the order is gone, a cancel and a new order for a replace |
| Translation.StampsCount | include/hft/itch50.hpp:266-272 | over a whole run every message's sequence number is one more than the one before |
| Translation.CountersCount | include/hft/itch50.hpp:214-251 | over any run adds, execs, partial cancels, deletes and replaces are the numbers of known events of each kind |
| Translation.Translator.MakeMsg | include/hft/itch50.hpp:266-272 | the message and the next sequence number |
| Translation.Translator.OnAdd | include/hft/itch50.hpp:214-218 | messages and new state as specified |
| Translation.Translator.OnReduce | include/hft/itch50.hpp:219-232 | messages and new state as specified: a modify to the remainder, or a cancel at zero, at the price and side `MessagesDescribe` states |
| Translation.Translator.OnDelete | include/hft/itch50.hpp:233-240 | messages and new state as specified |
| Translation.Translator.OnReplace | include/hft/itch50.hpp:241-251 | messages and new state as specified: cancel, then new on the same side |
| Translation.Translator.Snapshot | include/hft/itch50.hpp:252-262 | exactly the live orders as new orders, in ascending reference order, with consecutive sequence numbers |
| PriceTime.RepUnique | third_party/options-engine/src/core/order_book.cpp:217-300 | a book is determined by its resting orders in order of arrival |
| PriceTime.RestRep | third_party/options-engine/src/core/order_book.cpp:217-300 | resting an order appends it to the arrival list: sorted levels, FIFO queues, cached quantity and count, index and slots all stay exact |
| PriceTime.CancelRep | third_party/options-engine/src/core/order_book.cpp:302-319 | a cancel removes exactly that order from the list and from every cache |
| PriceTime.ModifyRep | third_party/options-engine/src/core/order_book.cpp:321-371 | a smaller size keeps the place in the queue, a larger one loses it, zero cancels |
| PriceTime.MatchRep | third_party/options-engine/src/core/order_book.cpp:404-477 | matching against level arrays is trading with the best-priced, oldest opposing order while the limit reaches it: same book, same remainder, same reports |
| PriceTime.TradeConserves | third_party/options-engine/src/core/order_book.cpp:404-477 | what the incoming order loses is reported and is taken from the other side; every resting order loses exactly what the reports say was taken from it |
| PriceTime.TradeReports | third_party/options-engine/src/core/order_book.cpp:434-455 | every report carries the incoming order's id, side and what is left of it after all fills so far, and names a live order of the other side at its price, within the limit; prices only get worse |
| PriceTime.TradeUncrossed | third_party/options-engine/src/core/order_book.cpp:404-477 | matching leaves an uncrossed book uncrossed, and a remainder that reaches nothing |
| PriceTime.ListStepUncrossed | third_party/options-engine/src/core/order_book.cpp:217-371 | no message leaves the engine's book crossed |
| PriceTime.ProcessRep | third_party/options-engine/src/core/matching_engine.cpp:120-151 | message by message the level-array engine refines price-time priority |
| PriceTime.FeedRep | third_party/options-engine/src/core/matching_engine.cpp:98-118 | and over every run of admissible messages |
| PriceTime.ProcessAny | third_party/options-engine/src/core/order_book.cpp:217-300 | the same for every message with a fresh id, room or not: a refused remainder is dropped and nothing else changes |
| Engine.FeedAppend | third_party/options-engine/src/core/matching_engine.cpp:98-118 | feeding two message lists in turn is feeding their concatenation, books and reports |
| Replication.RoomFor | third_party/options-engine/src/core/order_book.cpp:217-300 | a table within the engine's capacities leaves room for each of its orders |
| Replication.EventRests | include/hft/itch50.hpp:214-251 | an event that leaves the reference uncrossed trades nothing, not even between the two messages of a replace, and the engine then holds the new table |
| Replication.EventTrades | include/hft/itch50.hpp:214-251 | the event that first crosses the reference makes the engine trade |
| Replication.FilledIffCrossed | tools/replay_itch50.cpp:135-152 | over every run within the engine's capacities from an uncrossed book: the engine never fills if and only if crossed() is false after every event, and then its book is the table with prices times 100 |
| Replication.SnapshotRests | include/hft/itch50.hpp:252-262 | a snapshot of a restable table trades nothing part way through and rests all of it |
| Replication.MidDayStart | tools/replay_itch50.cpp:130-133 | started from a snapshot of any table the engine can rest, references in any order: never filled if and only if never crossed, and then the book is the table |
| Replication.SnapshotFaithfulIff | include/hft/itch50.hpp:252-262 | a snapshot reproduces the book if and only if references rise within every level's queue |
| Replication.SnapshotCanReorder | include/hft/itch50.hpp:252-254 | when references do not increase with arrival a snapshot swaps two orders at one price |
| Replication.SyntheticIds | third_party/options-engine/src/core/matching_engine.cpp:128-128 | a new order without an id is the same order under the engine's next synthetic id, which is not given twice |
| Replication.ZeroReferenceIff | third_party/options-engine/src/core/matching_engine.cpp:128-128 | an order is held under its own reference if and only if the reference is not zero |
| Replication.ZeroReferenceStaysBehind | third_party/options-engine/src/core/matching_engine.cpp:128-128 | an order with reference zero is still in the engine after its delete |
| Capacity.NeverFilled | tools/replay_itch50.cpp:135-152 | never crossed means never filled on days of any size: an engine that has refused orders holds some of the table, whole, and no others |
| Capacity.FilledIff | tools/replay_itch50.cpp:135-152 | never crossed means never filled whatever the capacities; and if nothing was refused before the first crossing, never filled means never crossed |
| Capacity.MidDayNeverFilled | tools/replay_itch50.cpp:130-152 | the same from a snapshot of any uncrossed table, however large |
| Capacity.HoldsIffFits | third_party/options-engine/src/core/order_book.cpp:217-300 | over an uncrossed run the engine keeps holding the table if and only if every table along the run fits its orders and its levels |
| Capacity.SnapshotHoldsIff | tools/replay_itch50.cpp:130-133 | after a snapshot the engine holds the table if and only if it fits |
| Capacity.CapacityReportIff | tools/replay_itch50.cpp:130-156 | when the report is silent at the engine's capacity, the engine holds the driver's table after the snapshot and every event if and only if the unmeasured snapshot fits the order slots and no table has too many prices |
| Capacity.StartOfDayCapacity | tools/replay_itch50.cpp:90-92 | from the start of day a silent report is complete as far as orders go: the engine holds the table throughout if and only if no table has too many prices |
| Capacity.SilentNeverOver | tools/replay_itch50.cpp:148-152 | for any assumed capacity and any day whose references are not zero and not used twice, crossed or not: with a silent report and a snapshot within it, no message, inside a replace included, left the engine with more orders |
| Capacity.SilentButLost | tools/replay_itch50.cpp:156-156 | 65,537 orders before a start time that never comes: the report is silent and the engine holds fewer orders than the table |
| Snapshots.AnySuffix | tools/replay_itch50.cpp:130-152 | books that are equal at the cut stay equal, with equal reports, for any rest of the day at all: crossing, over capacity, duplicated or out of order |
| Snapshots.SnapshotIsIff | include/hft/itch50.hpp:252-262 | any book is the snapshot's if and only if it holds the table with every queue in reference order |
| Snapshots.CutIff | tools/replay_itch50.cpp:130-152 | for every history, whatever it did, and a cut table that can rest: resuming from the snapshot equals having run on, for every rest of the day, if and only if the running engine holds the table with its queues in reference order |
| Snapshots.RisingHistory | include/hft/itch50.hpp:252-254 | with increasing references and no crossing, refused orders or not, the running engine's queues are in reference order and it has reported nothing |
| Snapshots.RisingCutIff | tools/replay_itch50.cpp:130-152 | for every history with increasing references that never crosses, however large: resuming from a snapshot that fits is the same for every rest of the day if and only if the running engine has lost none of the live orders |
| Snapshots.SnapshotEquivalence | tools/replay_itch50.cpp:130-152 | in particular if every table up to the cut fits the engine: for every rest of the day the same book, FIFO order included, and the same reports as feeding everything |
| Snapshots.RefusedStaysLost | third_party/options-engine/src/core/order_book.cpp:217-300 | 65,537 orders and one deletion: the table fits again and the snapshot has all of it, but the running engine still lacks the order it refused |
| Verdict.DepthAgrees | tools/replay_itch50.cpp:170-188 | an engine that holds the live orders shows, level for level, the reference depth: price times 100, equal counts, quantity modulo 2^32 |
| Verdict.Compare | tools/replay_itch50.cpp:176-183 | the loop counts exactly the positions that fail its test, and none if and only if both lists look the same to it; on the tick grid that is equality in length, price, quantity and count |
| Verdict.LooksAreReal | tools/replay_itch50.cpp:180-180 | on the tick grid the division by 100 loses nothing: the lists look the same if and only if they are equal |
| Ticks.FedOnGrid | include/hft/itch50.hpp:266-272 | whatever the day, crossed, duplicated or over capacity, what the driver sends leaves every level of the engine on the tick grid |
| Verdict.OffGridHides | tools/replay_itch50.cpp:180-180 | for a price off the tick grid the division would hide a difference |
| Verdict.TouchIsRedundant | tools/replay_itch50.cpp:186-188 | lists that look the same imply the touch part of the verdict |
| Verdict.Judge | tools/replay_itch50.cpp:170-188 | for all lists the engine may show, agree is true exactly when the capacity was not exceeded, every message was counted and both lists look the same |
| Verdict.ShownTicks | tools/replay_itch50.cpp:170-188 | for a book that holds the table, the lists are equal if and only if every level total fits 32 bits |
| Verdict.ProcessBound | third_party/options-engine/src/core/order_book.cpp:49-75 | no message takes a side beyond 4096 levels |
| Verdict.LevelOverflowMismatch | tools/replay_itch50.cpp:176-183 | more live prices on a side than the engine has levels: the level lists differ, whatever was sent |
| Replay.Drive | tools/replay_itch50.cpp:105-156 | reference and translator follow the events; the engine is sent a snapshot at the first book message at or after the start time (parsed or not), or at the end, and then every translation; crossed_events is exactly the number of events after which the level maps cross, and with positive shares the live orders; first_exceeded_at is zero exactly when no measured table outgrew the capacity, and otherwise names the first one that did |
| Replay.CrossAfterSame | tools/replay_itch50.cpp:147-147 | with positive shares the events after which the level maps cross are those after which the live orders do |
| Replay.NeverCrossesIff | tools/replay_itch50.cpp:147-147 | a run never crosses exactly when there is no such event |
| Replay.Apply | tools/replay_itch50.cpp:135-144 | one event goes through both books |
| Agreement.PipelineFeeds | tools/replay_itch50.cpp:157-157 | every schedule of the pipeline leaves the book that feeding the messages one by one leaves, and a quiet stop has counted them all |
| Agreement.ReplayAgreesIff | tools/replay_itch50.cpp:130-188 | from any restable start over any clean run: never filled if and only if never crossed, and then no depth difference if and only if level totals fit 32 bits |
| Agreement.ReplaySymbol | tools/replay_itch50.cpp:105-188 | the whole program, given the count of a stopped engine: on every day agree is true exactly when the measured tables stayed within the capacity, every message was counted and the engine's lists are the reference book's level maps; if new orders have shares those are the depth of the live orders; on a replayable day exactly when every final level also fits 32 bits |
| Agreement.ReplayableAgreesIff | tools/replay_itch50.cpp:130-188 | on a replayable day the engine shows the reference depth if and only if every level of the final table fits 32 bits |
| Agreement.TooManyPricesDisagree | tools/replay_itch50.cpp:148-151 | with more live prices than levels the engine never shows the reference depth, so the verdict is negative though the report may be silent |
| Agreement.EarlyStopDisagrees | tools/replay_itch50.cpp:157-188 | for every non-empty list of messages an early stop can leave the count short, so the verdict is negative although the book is the one that was fed |
| Agreement.DepthUnique | include/hft/itch50.hpp:174-181 | the reference depth of a table is one list |
| Framing.SplitIff | tools/replay_itch50.cpp:105-113 | the reader finds these frames and this remainder if and only if the bytes are these frames followed by this incomplete remainder |
| Framing.CutAnywhere | tools/replay_itch50.cpp:105-113 | any byte prefix yields a prefix of the frames, with bytes left exactly when the cut falls inside a frame |
| Framing.CutReads | tools/replay_itch50.cpp:105-113 | so the messages read from a prefix are a prefix of the messages written |
| Framing.RoundTrip | scripts/gen_itch50_oracle.py:25-25 | framing then reading gives back every list of non-empty messages of at most 65535 bytes |
| Wire.FramesAreBigEndian | tools/replay_itch50.cpp:111-111 | a frame is the message after its length in two big-endian bytes, and the declared length is what be16 reads |
| Framing.ReadFrames | tools/replay_itch50.cpp:105-113 | the loop ends on every byte string with the non-empty frames, the number of empty ones and one truncation exactly when bytes are left; with a message limit the same for the frames up to the last message let through |
| Framing.UntilCounts | tools/replay_itch50.cpp:106-106 | the limit lets through a prefix with as many messages as there are, or as many as it allows |
| Wire.ReadersArePositional | include/hft/itch50.hpp:44-47 | the nested readers are the base-256 value of the bytes they cover |
| Wire.ValueOfBytes | include/hft/itch50.hpp:44-47 | reading inverts big-endian encoding of every value that fits |
| Wire.BytesOfValue | include/hft/itch50.hpp:44-47 | encoding inverts reading of every byte string |
| Wire.DecodeIff | include/hft/itch_adapter.hpp:39-77 | exactly the messages of other types are ignored, and exactly the seven book types below their length (36, 40, 31, 36, 23, 19, 35) are malformed |
| Wire.DecodeWithin | include/hft/itch50.hpp:77-127 | of a longer message only the bytes within the length are read |
| Wire.DecodeBuild | include/hft/itch50.hpp:77-127 | decoding a built message gives the event back, for every header, variant and unrelated field |
| Wire.BuildDecode | include/hft/itch50.hpp:77-127 | every book message of its exact length is the one built from what it decodes to, so decoding and building are inverse both ways |
| Wire.BuildHeader | scripts/gen_itch50_oracle.py:19-23 | the header reader gives back locate, tracking and the split timestamp |
| DayFile.TrimIff | include/hft/itch50.hpp:63-67 | the trimmed symbol is what is left without the longest run of spaces and zeros at the end |
| DayFile.ClassifyIs | tools/replay_itch50.cpp:126-145 | a message with a header is skipped, malformed, or taken with its time and event, by type and length alone |
| DayFile.SelectMessages | tools/replay_itch50.cpp:116-128 | the loop body takes exactly the messages under the code of the last directory entry of the symbol so far, and counts those without a header |
| DayFile.MalformedIsShort | tools/replay_itch50.cpp:145-145 | what it takes as malformed are exactly the symbol's book messages below their length |
| DayFile.CutSelects | tools/replay_itch50.cpp:105-128 | a file cut at any byte gives a symbol a prefix of its book messages |
| DayFile.FileRoundTrip | scripts/gen_itch50_oracle.py:19-25 | a framed file with other symbols' and other kinds of messages anywhere in between reads back, for a symbol, as exactly the events and timestamps written under its code since its directory entry; no byte is left over and nothing is malformed |
| DayFile.GeneratedFile | scripts/gen_itch50_oracle.py:96-147 | those are the events the generator recorded for the symbol |
| DayFile.GeneratedFileReplays | scripts/e2e_itch50.py:39-44 | the replay of a symbol of a generated file sees no malformed message, no anomaly, a book that never crosses and the generator's own table |
| Wire.Store | include/hft/itch_adapter.hpp:107-121 | memcpy writes the bytes and nothing else |
| Wire.MakeMoldAddPacket | include/hft/itch_adapter.hpp:99-124 | the packet byte for byte: ten spaces, the sequence, a count of one, the length and the message the builder makes for the symbol TEST, which decodes to the fields it was made from |
| Wire.ItchAdapter.OnMoldMessage | include/hft/itch_adapter.hpp:39-83 | a book message of at least its length goes through the translator and out with the feed's sequence number, a shorter one only counts a parse error, others do nothing |
| Wire.RestampFeeds | include/hft/itch_adapter.hpp:79-82 | the engine's book and reports do not depend on sequence numbers |
| Wire.LivePathIsReplayPath | include/hft/itch_adapter.hpp:39-83 | for every run of packets the live path gives the engine the same book and reports as the replay path |
| Accounting.RemBound | include/hft/market_maker.hpp:164-165 | truncating division: the remainder is smaller than the divisor and has the sign of the dividend |
| Accounting.BasisStep | include/hft/market_maker.hpp:156-190 | a fill moves the basis by its cash flow plus what its division dropped; reducing, closing and flipping fills drop nothing |
| Accounting.DroppedBound | include/hft/market_maker.hpp:160-168 | what a blending fill drops is smaller than the position after it |
| Accounting.EquityIdentity | include/hft/market_maker.hpp:136-190 | for every run of fills and mark: realized plus unrealized is cash flow plus marked position plus exactly the dropped remainders, bounded by the position sizes after blending fills |
| Accounting.AverageInRange | include/hft/market_maker.hpp:156-190 | for every run the average of an open position lies between the least and greatest price that opened it since it was last flat or flipped |
| Accounting.NeverOverflows | include/hft/market_maker.hpp:164-165 | with prices within p and positions within q, both products and the blending numerator stay within p*q |
| Accounting.RoundTrip | include/hft/market_maker.hpp:13-16 | however a long or short round trip is split and interleaved, one opening and one closing price realize exactly shares times the difference |
| Accounting.ExactIffEven | include/hft/market_maker.hpp:144-150 | while a position stays long or short the books balance exactly, and a round trip realizes exactly its cash, if and only if no blending fill left a remainder; otherwise long profit is overstated and short profit understated |
| Accounting.EvenIgnoresOrder | include/hft/market_maker.hpp:147-150 | without remainders, fills that built the same position for the same cash leave the same account in any order |
| Accounting.EvenPermutation | include/hft/market_maker.hpp:147-150 | in particular orders without remainders leave the same account |
| Accounting.OrderMatters | include/hft/market_maker.hpp:147-150 | with remainders the result depends on fill order: three buys in two orders |
| Accounting.OrderFreeIff | include/hft/market_maker.hpp:147-150 | two orders of fills that open or extend a position leave the same account if and only if their divisions dropped equally much |
| MarketMaking.MarketMaker.ApplyFill | include/hft/market_maker.hpp:156-190 | the object's accounting is the specified one |
| MarketMaking.MarketMaker.OnFill | include/hft/market_maker.hpp:121-134 | a report counts for the order of ours it names, on the registered side, and erases it on zero leaves; other reports change nothing |
| MarketMaking.MarketMaker.ComputeQuote | include/hft/market_maker.hpp:91-108 | a side is quoted exactly when filling it whole stays within the limit, and the two quotes cannot trade with each other |
| MarketMaking.MarketMaker.UnrealizedPnl | include/hft/market_maker.hpp:136-139 | with what was realized it is the basis plus the marked position |
| MarketMaking.MarketMaker.RegisterOrder | include/hft/market_maker.hpp:114-116 | the order's side is remembered |
| QuoteLoop.Keep | tools/run_market_maker_demo.cpp:101-205 | every step of the loop, of the engine and of the report queue keeps the invariant: counted messages, exposure within the limit, and a balance of real, tracked and missed fills |
| QuoteLoop.PositionLimit | tools/run_market_maker_demo.cpp:142-205 | in every run, whatever is filled and in whatever sizes and order: tracked position plus live bid is within the limit and minus live ask above its negative; the real position is too but for missed fills |
| QuoteLoop.FreshAtQuote | tools/run_market_maker_demo.cpp:146-185 | at every compute_quote nothing of ours is in the engine, on its way there or on its way back, and the position lacks only missed fills |
| Attribution.HeardIff | include/hft/market_maker.hpp:121-134 | every report of our registered orders is attributed if and only if no report with zero leaves is followed by another of the same order |
| Attribution.TrueLimit | include/hft/market_maker.hpp:121-134 | if leaves is the remaining size of our own order and no report is dropped, nothing is ever missed and the real position stays within the limit |
| Attribution.BookMeetsContract | third_party/options-engine/src/core/order_book.cpp:217-477 | for every message with a fresh id, refused or not, the price-time book meets what the loop's proof assumes of the engine |
| RealLoop.QuotesApart | tools/run_market_maker_demo.cpp:85-89 | a new quote cannot reach the other one: they are a spread apart |
| RealLoop.RealMeetsContract | tools/run_market_maker_demo.cpp:142-205 | in every run the engine's own step on its own book meets that contract |
| RealLoop.RealStep | tools/run_market_maker_demo.cpp:101-205 | a step of the loop against the real engine is a step of the loop, and keeps both invariants |
| RealLoop.RealRunIsRun | tools/run_market_maker_demo.cpp:142-205 | every run against the real engine is a run of the loop, so everything proved of those holds of it |
| RealLoop.RealPositionLimit | tools/run_market_maker_demo.cpp:142-205 | against the real engine: tracked position and exposure within the limit always, and nothing of ours in flight at any quote |
| Attribution.SecondHitIsMissed | third_party/options-engine/src/core/order_book.cpp:437-455 | whatever two smaller orders hit our quote in turn, the first one's zero leaves erases it and the second fill is not attributed |
| QuoteRuns.Escapes | tools/run_market_maker_demo.cpp:142-205 | against the real engine, with full batches of at least three messages and for any reservation prices, which the run records: with quotes of at least two shares that fit the limit, n rounds leave nothing tracked and n times all but one share bought |
| QuoteRuns.RealLimitIff | include/hft/market_maker.hpp:88-108 | against the real engine, no report dropped, for any sequence of reservation prices: every run that computes them keeps the real position within the limit if and only if quotes are of at most one share or too large to be posted |
| QuoteRuns.FirstWaitCanBeStale | tools/run_market_maker_demo.cpp:130-138 | against the real engine, for any reservation price, one wait can return with a fill of ours undrained |
| Pipeline.Keep | include/hft/pipeline.hpp:52-150 | every step of producer, engine, drain and stop keeps order, counts and the fold |
| Pipeline.Conservation | include/hft/pipeline.hpp:62-97 | at every moment of every schedule: submitted is accepted plus rejected, accepted messages are a prefix of the stream, the engine has folded what it consumed |
| Pipeline.NoRejectIff | include/hft/pipeline.hpp:66-97 | no schedule rejects a submission if and only if the whole stream fits the queue |
| Pipeline.SubmittedOnce | tests/test_conservation.cpp:36-38 | a stream that fits is submitted exactly once by every schedule that finishes: submitted and accepted equal its length |
| Pipeline.WaitMakesQuiet | include/hft/pipeline.hpp:100-111 | a wait that returned because the count caught up leaves the engine with nothing to do |
| Pipeline.ScheduleIndependence | include/hft/pipeline.hpp:113-118 | every schedule that stops a quiet engine and drops nothing has drained exactly the sequential fold's reports, in order, each once |
| Pipeline.SameReports | tests/test_conservation.cpp:36-42 | two schedules of one stream, with any queue sizes, report the same fills |
| Pipeline.StoppedEngine | include/hft/pipeline.hpp:52-60 | a stopped engine has folded the whole stream whatever was drained |
| Pipeline.EarlyStopMiscounts | third_party/options-engine/src/core/matching_engine.cpp:98-118 | whatever the stream, stopping before the engine is quiet can leave its message count short although it has processed everything |
| Pipeline.NoDropIff | third_party/options-engine/src/core/matching_engine.cpp:153-158 | no schedule drops a report if and only if the stream's reports all fit the queue |
| Pipeline.TailIff | include/hft/pipeline.hpp:52-60 | when stop() clears the flag, every way to finish delivers all reports if and only if the engine has none left to make, whatever the queue sizes |
| Generator.GenDay | scripts/gen_itch50_oracle.py:83-149 | for every outcome of the draws, each draw is answered for its symbol by the message it selects, or by none from 0.80; each symbol's messages are generated ones and the generator's own table is what they mean |
| Generator.DrawEvent | scripts/gen_itch50_oracle.py:117-145 | the event the draw selects: a new order below 0.40 or for an empty symbol, an execution below 0.56, a cancel below 0.66 of more than one share, a delete below 0.74 or of a single share, a replace otherwise; new orders take the next reference; and the dictionary after it |
| Generator.AnsweredLength | scripts/gen_itch50_oracle.py:108-116 | there are as many messages as draws below the noise |
| Generator.GeneratedIsSound | scripts/gen_itch50_oracle.py:96-147 | every generated run: no anomalies, exact levels, the generator's table, and never crossed after any event |
| Generator.DayIsSound | scripts/gen_itch50_oracle.py:83-149 | the same from an empty reference book: all three anomaly counters are zero |
| Generator.GeneratedIsClean | scripts/gen_itch50_oracle.py:96-99 | a generated day of any length whose tables fit the order slots is clean with rising references, so all replay results apply |
| Generator.DayCanBeCut | scripts/gen_itch50_oracle.py:146-149 | a generated day can be cut wherever its tables so far fitted: the snapshot and the rest, however large, give the same book and reports, and nothing ever fills |
| Generator.DayNeverFills | scripts/gen_itch50_oracle.py:95-98 | nothing of a generated day ever fills, however large it is |
| Generator.Summarize | scripts/gen_itch50_oracle.py:151-158 | the top of book recomputed from the live orders |
| Generator.OracleAgrees | scripts/gen_itch50_oracle.py:160-176 | the second model never fails on a generated day and holds the same orders |
| Generator.OracleStepIff | scripts/gen_itch50_oracle.py:160-176 | from the same orders the second model agrees with section 4.4 on an event if and only if the reference is known, no live one is given a different order, and a reduction leaves shares or is an execution of exactly what is left |
| Pool.Pools.Add | scripts/gen_itch50_scale.py:23-23 | the reference is appended, indexed and known, and index and lists stay inverse |
| Pool.Pools.Drop | scripts/gen_itch50_scale.py:18-21 | either way of finding it, the slot is the indexed one and takes the last reference; index and lists stay inverse |
| Pool.DropInverse | scripts/gen_itch50_scale.py:18-21 | swap-remove keeps the index the exact inverse of the lists, also for the last element |
| Pool.IndexIn | scripts/gen_itch50_scale.py:19-19 | the first occurrence |
| Pool.DrawPooled | scripts/gen_itch50_scale.py:27-44 | one event of the scale generator, for every draw: of the kind the draw selects (0.42 and the cap, 0.62, 0.74, 0.90), allowed by the relation, described by the pools, within the cap |
| Pool.GenScale | scripts/gen_itch50_scale.py:25-44 | the scale script for every draw and any number of events: each draw is answered by the message it selects, each symbol's messages are generated ones and no table along the way is larger than the cap, or one |
| Pool.ScaleCanBeCut | scripts/gen_itch50_scale.py:10-11 | a scale file whose cap the engine can hold can be cut wherever its tables so far stayed within the cap |

## Left out

- Sockets, files, log sinks, argument parsing, JSON and text output, thread pinning, latency histograms: input and output only.
- Clocks and timeouts: a wait is one that returned because its condition held; in `Pipeline` stop() may also begin before that, which covers a timeout there.
- Floating point: the reservation price of compute_quote is an arbitrary integer; last_trade is not tracked.
- C++ memory model: atomics, mutexes and single-producer queues are sequentially consistent steps.
- Vendored gap buffer, retransmission, multicast receiver, io_uring queue, multi-producer queue and NUMA allocator: not part of this model.
- The engine's slot pool, intrusive lists and hash index: represented by the queues and a map they implement; market, immediate-or-cancel and fill-or-kill orders, self-trade prevention and multiple symbols are not modelled because the replay and the demo do not use them.
- Replay.Drive: it takes the book messages `DayFile` selects, so firstExceeded is numbered over those and not over all messages read; the peak of resting orders and the per-type counters of the wire are not kept (`CountersCount` counts the translator's kinds).
- Shifts and ors in be16..be64 are written as multiplications and additions of bytes.
- scripts/calibrate_mm.py, make_synthetic_stream, the benches and the check macros: measurement or test plumbing.
- Integer widths: positions, profits, counters and sequence numbers are unbounded; `NeverOverflows` and `LevelsFit` bound what the source holds in 64 and 32 bits, and the accumulated realized profit is not bounded.
- PRICE_INVALID as a quote: a suppressed side is an option, so a computed price equal to the sentinel is not modelled.
- MarketMaking.MarketMaker.OnFill: a zero fill of one of our orders on a flat account divides by zero in the source and is excluded by its precondition.
- Pool.Pools.Drop: a reference that is not in the list raises an exception in the source and is excluded by its precondition.
- QuoteLoop.PositionLimit: messages are sent one by one without a bound on the queue; a full queue only repeats the attempt.
- QuoteRuns.RealLimitIff: when noise ids only increase, as the synthetic stream's do, it is stated for limits that the ids below ours suffice to pass at three a round (for the demo's 500 and 100, six rounds).
- QuoteRuns.Escapes: the messages that fill up a batch are cancels of an unknown id; the synthetic stream consists of new orders only.
- Generator.GenDay: draws are nondeterministic choices in the ranges the script uses; references stay below 2^64, as packing requires.
