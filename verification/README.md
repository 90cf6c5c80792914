# Verified models of the planning workbench

The repository is a Wi-Fi survey and planning workbench: a project store with a
causal operation log, native collectors with a wire protocol, importers,
measurement runners, and the tooling around them. This project models the parts
where the logic is hardest and proves what they promise. `dafny verify
dfyconfig.toml` checks all of it. Modules follow the components:

| files | component |
|---|---|
| `OperationDag`, `MapCommit` | committing map mutations to the operation log, with any number of sessions and other writers interleaving |
| `CollectorProtocol`, `StreamValidator`, `TraceContract`, `StreamDecoder`, `CollectorProcess`, `CollectorReport` | the macOS collector protocol: the Rust validator, the whole-trace contract it decides, the Python decoder, the Swift process with its racing terminators, and what its records say |
| `Crc32`, `CrcPolynomial`, `PngAdmission`, `PngContainer`, `PngMeaning` | admission of PNG map sources: the bitwise CRC-32 and the division it computes, the chunk walk, the chunk lists it admits, and what it says about them |
| `LedgerGraph`, `LedgerCheck`, `LedgerText`, `LedgerExtract`, `LedgerLines`, `LedgerMeaning` | the coverage ledger: the dependency search, the status passes, the lossless extraction of the plan, and what is extracted in terms of characters |
| `KeyedSort`, `CanonicalNumber`, `JsonString`, `JsonText`, `InterchangeSchema`, `InterchangeRules`, `InterchangeReferences`, `JsonBudget`, `InterchangeDocument`, `CanonicalOrder`, `InterchangeWitness` | OpenRFPlan canonical JSON: numbers, strings, values, collections, identity and reference rules, limits, encoding and decoding, the order of what is sorted, and complete plans whose text is lost |
| `BoundedLines`, `FailureParsers`, `FailureLines` | the bounded line splitter, the two test-failure parsers behind it, and the grammars of their lines |
| `TileCache` | the renderer's tile cache and its viewports |
| `ActiveSchedule`, `ActiveExecution` | the active-measurement schedule and its executor |
| `LicenseExpression`, `LicenseText`, `AntennaPattern`, `AntennaMeaning` | license expressions and gain patterns of the antenna model |

Code that changes state step by step is a method or a class here, proved against
a function or a predicate over values; the properties are proved about those.
Clocks, other writers, signals, the connector, timers and the like are arbitrary
inputs or steps of a state machine, so every statement holds for whatever they do.

## What was found

- A committed *request* (`crates/application/src/port.rs:276-293`), unlike an
  intent, can answer Err although it has appended its operation: in every run
  exactly when its own append was followed by its failing readback
  (`MapCommit.RequestErrAfterAppend`), and from every log such a run exists
  (`ReceiptCanBeLost`). It can also be appended to a log longer than the one it was
  validated against; that happens only if its expected revision is ahead of the log
  when it starts, and can happen for every such revision below the store's
  operation count (`RequestValidatedExactly`, `AheadRequestEscapesValidation`).
- A collector stream that ends before its hello record is refused by the
  validator; among finished streams that is the only way to be refused
  (`CollectorProcess.FinishedStreamAccepted`, `SignalBeforeHelloIsRefused`).
- A canonical plan text does not always decode again. A whole number written as a
  decimal, such as `1e20`, is within every limit, prints as an integer, and is
  refused by the 64-bit bound; and a container at the deepest level the value walk
  allows is one level too deep for the scan before parsing.
  `InterchangeDocument.EncodedComesBack` states exactly when a text comes back;
  `InterchangeWitness.LargeWholeNumberIsLost` and `DeepestEmptyIsLost` give complete
  plans that are encoded and then refused, whatever the value rules.
- In the libtest parser the flag for failure details is never set without the flag
  that stops all parsing, so the test of it later in the function is never what
  decides (`FailureParsers.LibtestRunMeans`).
- In the splitter the second branch of `finish` cannot be reached with a nonempty
  buffer, because the buffer never exceeds the bound (`BoundedLines.Splitter.Feed`).

## Model

| member | source | states |
|---|---|---|
| OperationDag.CollectNonHeads | crates/application/src/port.rs:818-840 | the first pass collects exactly the operations named as a parent, and the largest logical time |
| OperationDag.CollectHeads | crates/application/src/port.rs:840-856 | the second pass collects exactly the operations nobody names, in id order, with their largest depth |
| OperationDag.DeriveMapContext | crates/application/src/port.rs:818-872 | the derived context is the one of this operation set: parents are exactly the heads, time and depth one above all; it is refused exactly when a bound is exhausted |
| OperationDag.ContextUnique | crates/application/src/port.rs:818-872 | an operation set has at most one context |
| OperationDag.DerivedOperationExtendsDag | crates/application/src/port.rs:818-872 | adding an operation with the derived context keeps the DAG well formed, makes every old operation its ancestor, leaves it the only head, and puts its time and depth above all others |
| OperationDag.NoCycle | crates/operation-log/src/lib.rs:2470-2565 | no operation of a well-formed set is its own ancestor |
| OperationDag.ReachesHead | crates/application/src/port.rs:818-872 | every operation is a head or an ancestor of one |
| MapCommit.AppendKeepsValid | crates/project-store/src/operation_log.rs:1151-1327 | appending at the expected revision keeps the log a well-formed DAG with distinct ids |
| MapCommit.RunKeepsInv | crates/application/src/port.rs:295-381 | the session invariant holds in every state of every interleaving |
| MapCommit.AppendedIntentExtendsItsBase | crates/application/src/port.rs:295-344 | an operation appended by an intent extends exactly the log its parents, time and depth came from; it carries the intent's content, id, actor and device; a calibration fits the map and floor frames and bounds of the project of that log and records what was active for its map there; the extended log materialized |
| MapCommit.OkIsDurable | crates/application/src/port.rs:345-381 | after Ok the named operation is in the log in every later state, readback or not |
| MapCommit.ErrAppendsNothing | crates/application/src/port.rs:189-274 | an intent that answers Err appended nothing |
| MapCommit.RepeatNeverAppends | crates/application/src/port.rs:571-600 | starting an intent whose id is in the log never grows the log |
| MapCommit.ReusedIdentityIsRefused | crates/application/src/port.rs:874-923 | an id in the log with different content is never answered Ok |
| MapCommit.AppendsAreDistinct | crates/application/src/port.rs:295-344 | no two sessions appended the same entry |
| MapCommit.OkIntentsAgree | crates/application/src/port.rs:424-525 | two Ok intents with one id describe the same operation, and at most one of them appended it |
| MapCommit.AnsweredRevision | crates/application/src/port.rs:337-349 | in every run the revision in an answer is the length of the log right after the store took or found the operation, one more than its index if this call appended it |
| MapCommit.NegativeTimeIsRefused | crates/application/src/port.rs:189-202 | an intent with a negative time never gets beyond its start and appends nothing |
| MapCommit.IntentCanSucceed | crates/application/src/port.rs:189-274 | from every valid log in agreement, an intent with a fresh identity, met prerequisites and an extension that materializes can be appended and answered with the next revision |
| MapCommit.RepeatCanSucceed | crates/application/src/port.rs:571-600 | an intent whose operation is already in the log can be answered Ok at the present revision with nothing changed |
| MapCommit.OvertakenCanSucceed | crates/application/src/port.rs:337-344 | an intent overtaken by its own operation between validation and append can be answered Ok without an append of its own |
| MapCommit.RequestErrAfterAppend | crates/application/src/port.rs:276-293 | in every run a request has answered Err with its operation appended exactly when a step in which this call appended was followed by its failing readback; the operation is then in the log, and every other Err appended nothing |
| MapCommit.ReceiptCanBeLost | crates/application/src/port.rs:276-293 | from every valid log, for every fresh request that validates and expects the present revision, some run appends it and answers Err |
| MapCommit.RequestAppendable | crates/project-store/src/operation_log.rs:1185-1230 | an appended request was below the operation count and of the store's own project |
| MapCommit.RequestValidatedExactly | crates/application/src/port.rs:112-187 | a request whose expected revision was not ahead at its start was validated against exactly the log it extended |
| MapCommit.AheadRequestEscapesValidation | crates/application/src/port.rs:384-422 | for every request of the project whose expected revision is ahead and below the operation count there is a run that appends it to a log it was not validated against |
| StreamValidator.ListSources | crates/capture-adapter/src/macos.rs:414-462 | a listing is accepted exactly when every entry is well formed and no source id repeats, and then maps each id to its entry |
| StreamValidator.Validate | crates/capture-adapter/src/macos.rs:370-646 | the one pass accepts exactly the sequences whose records are each accepted in turn and end the stream |
| TraceContract.AcceptanceIsClause | crates/capture-adapter/src/macos.rs:370-646 | after an accepted prefix, a record is accepted exactly when its clause holds of the trace so far, without any running state |
| TraceContract.ValidatorDecidesContract | crates/capture-adapter/src/macos.rs:363-646 | the validator accepts exactly the traces with one hello first, one terminal record last, monotone receipts, every observation tied to one earlier scan of a powered listed source, one completion time per scan, and exact counts |
| TraceContract.ObservationMeans | crates/capture-adapter/src/macos.rs:506-591 | the observation checks on the scan map say exactly that one earlier scan of the same source and window is tied to it, that its source is listed, and that ids and completion times agree with all earlier observations |
| TraceContract.TerminalMeans | crates/capture-adapter/src/macos.rs:592-640 | the terminal checks on the running state say exactly what the whole trace shows |
| StreamDecoder.ListEntries | collectors/macos/contract.py:192-219 | the Python listing accepts exactly well-formed entries without repeated source ids |
| StreamDecoder.DecodeStream | collectors/macos/contract.py:138-294 | the decoder accepts exactly the sequences its fold over records accepts |
| StreamDecoder.DecodedObservationPermitted | collectors/macos/contract.py:228-271 | a decoded observation follows a listing that offered scanning and the start of its own scan, source and window |
| StreamDecoder.ValidatedStreamDecodes | collectors/macos/contract.py:138-294 | every sequence the Rust validator accepts, the Python decoder accepts |
| CollectorProcess.WriteAll | collectors/macos/Sources/Wire.swift:50-84 | the offset loop writes all bytes in order whatever the partial writes, or reports the failure |
| CollectorProcess.WireWriter.Emit | collectors/macos/Sources/Wire.swift:86-92 | an emitted record goes out next in sequence unless the stream has ended |
| CollectorProcess.WireWriter.Finish | collectors/macos/Sources/Wire.swift:94-108 | only the first terminator writes, with the observation count, and ends the stream |
| CollectorProcess.RunKeepsInv | collectors/macos/Sources/main.swift:108-221 | in every interleaving of worker, deadline and signals what has been written is an accepted prefix |
| CollectorProcess.FinishedStreamAccepted | collectors/macos/Sources/main.swift:108-221 | a finished stream is accepted by the validator exactly when the hello preceded the terminator, and has at most 4131 records |
| CollectorProcess.SignalBeforeHelloIsRefused | collectors/macos/Sources/Wire.swift:161-184 | a signal before the hello leaves a stream the validator refuses |
| CollectorReport.ScanReported | collectors/macos/Sources/main.swift:168-212 | in every run, from the moment a scan returns, its observations are in order a start of the returned networks with the strongest first, each field the network's own value when in range and else unknown, identifiers only when included, and all of them unless the scan is still being told or a limit, a lost permission, the deadline or a signal cut it short |
| CollectorReport.OkTellsAll | collectors/macos/Sources/main.swift:152-220 | a scan command that ends well has scanned every selected interface and told every network each scan returned |
| CollectorReport.RunTruthful | collectors/macos/Sources/main.swift:69-166 | in every run hello, capabilities, authorization, scan start and terminal records say what the process was configured with and read |
| CollectorReport.ChosenMeans | collectors/macos/Sources/main.swift:118-130 | the selected interfaces are, in order, exactly those with a usable name that was asked for |
| CollectorReport.NeverStuck | collectors/macos/Sources/main.swift:108-221 | in every run, until the stream has ended, the worker has a step to take |
| Crc32.MaskedStep | crates/application/src/map_asset.rs:298-307 | the masked step is the step of the shift register |
| Crc32.Compute | crates/application/src/map_asset.rs:298-307 | the nested loop computes the checksum of the bytes |
| Crc32.StepLinear | crates/application/src/map_asset.rs:298-307 | a step distributes over exclusive or |
| Crc32.StepInjective | crates/application/src/map_asset.rs:298-307 | a step loses no state |
| Crc32.BurstDetected | crates/application/src/map_asset.rs:298-307 | byte strings of one length that differ only within four consecutive bytes have different checksums |
| CrcPolynomial.ChecksumIsRemainder | crates/application/src/map_asset.rs:298-307 | the complement of the checksum is the remainder, by the CRC-32 generator polynomial, of the message times the 32nd power with its first 32 coefficients complemented |
| PngChecksum.CheckCrc | crates/application/src/map_asset.rs:113-130 | comparing the computed register with the stored word is comparing the stored bytes |
| PngAdmission.ParseSound | crates/application/src/map_asset.rs:107-131 | a chunk that is read is the serialization of what was read |
| PngAdmission.ParseComplete | crates/application/src/map_asset.rs:107-131 | a serialized chunk is read back, whatever follows |
| PngAdmission.AdmitMapAsset | crates/application/src/map_asset.rs:63-268 | the loop, checking every chunk with the computed checksum, gives the verdict of the walk, or stops early when its allowance runs out |
| PngContainer.ConsumeFits | crates/application/src/map_asset.rs:132-266 | after a header, a chunk that is not last is taken exactly when its kind's rule holds of the flags |
| PngContainer.AdmittedIffContainer | crates/application/src/map_asset.rs:63-268 | bytes are admitted exactly when they are the signature and the serialization of a chunk list that meets the order, once-only, palette and length rules |
| PngContainer.HeaderReads | crates/application/src/map_asset.rs:144-167 | header data is accepted exactly for sizes within the bounds, the color and depth pairs, and the only methods, and gives the big-endian width and height |
| PngMeaning.AdmittedSize | crates/application/src/map_asset.rs:213-226 | the size of an admitted map is the width and height in bytes 16 to 24 of the file |
| PngMeaning.KindMeans | crates/application/src/map_asset.rs:143-266 | a chunk's kind is given by the four letters of its type |
| PngContainer.SerializationUnique | crates/application/src/map_asset.rs:107-131 | bytes serialize at most one chunk list |
| PngContainer.BurstRejected | crates/application/src/map_asset.rs:113-130 | a chunk whose type and data were changed within four consecutive bytes makes any container around it inadmissible |
| PngContainer.DamagedFileRejected | crates/application/src/map_asset.rs:113-130 | in an admitted file any change within four consecutive bytes of one chunk's type and data is refused |
| LedgerGraph.GraphCheck.Visit | tools/ledger.py:264-277 | a visit keeps the search invariant and leaves its node finished or reported on a cycle |
| LedgerGraph.CheckGraph | tools/ledger.py:262-279 | nothing is reported exactly when every dependency names a node and there is no cycle; exactly the dangling dependencies are called missing; every reported cycle is one and every cycle has a reported node |
| LedgerGraph.CycleReported | tools/ledger.py:262-279 | once all nodes are finished every cycle contains a reported node |
| LedgerCheck.CheckDescendants | tools/ledger.py:389-403 | the worklist reports exactly the mandatory descendants with a claim that is not allowed |
| LedgerCheck.CheckRecord | tools/ledger.py:388-411 | exactly the unfinished descendants, unknown relations and unfinished dependencies of a record are reported |
| LedgerCheck.IndexRecords | tools/ledger.py:313-329 | records are indexed by id, the last one winning; nothing is reported exactly when ids are distinct and claims fit roles |
| LedgerCheck.UnfinishedMeans | tools/ledger.py:389-403 | a descendant counts as unfinished exactly when it is an obligation whose claim is neither validated nor deferred, nor implemented below an implemented record |
| LedgerCheck.CheckRecords | tools/ledger.py:387-411 | the pass over all records says nothing exactly when there is nothing to say about any of them |
| LedgerCheck.CheckLedger | tools/ledger.py:387-411 | nothing is reported exactly when ids are distinct, claims fit, and the ledger conditions hold |
| LedgerCheck.ValidatedAllTheWay | tools/ledger.py:408-411 | in such a ledger every transitive dependency of a validated record is validated |
| LedgerCheck.DescendantsFinished | tools/ledger.py:389-403 | a corollary for readers of a ledger in order: every mandatory record reachable through children of a finished one has an allowed claim |
| LedgerText.ConcatSplit | tools/ledger.py:106-107 | splitting into lines loses nothing |
| LedgerText.NumberedInjective | tools/ledger.py:155-158 | a numbered name gives back its base and its number |
| LedgerLines.SplitIsTheOne | tools/ledger.py:107 | the lines are the only way to cut the text after every line boundary, a carriage return and line feed counting as one |
| LedgerLines.HeadingMeans | tools/ledger.py:18 | a line is a heading of level n with a title exactly when it is n hashes, at most six, a blank and the title |
| LedgerLines.ListMeans | tools/ledger.py:19 | a line is a list item exactly when it is blanks, a bullet or a number with a point, and a blank |
| LedgerLines.SeparatorMeans | tools/ledger.py:139 | a line is a separator exactly when it is blanks and at least three of one mark |
| LedgerLines.KindMeans | tools/ledger.py:113-150 | the kind of a block is told by what its first line is made of, a separator winning over a list item |
| LedgerLines.DefinitionMeans | tools/ledger.py:17 | a block defines exactly the requirement number its first line starts with, in a row, small heading or list item, bold or not |
| LedgerExtract.ScanBlock | tools/ledger.py:113-150 | a block is the longest run of lines that join its first line, by the kind of that line |
| LedgerExtract.ScanFence | tools/ledger.py:126-134 | a fenced block ends with the first later line that repeats the fence |
| LedgerExtract.ReadBlocks | tools/ledger.py:112-174 | the pass names and places every block as specified and covers all lines |
| LedgerExtract.Lossless | tools/ledger.py:106-174 | block texts put together are the source |
| LedgerExtract.IdsDistinct | tools/ledger.py:153-158 | block ids are pairwise distinct, whatever the digest |
| LedgerExtract.NearestIsKept | tools/ledger.py:122-123 | the top of the filtered heading stack is the nearest earlier heading of lower level |
| LedgerExtract.LinkParents | tools/ledger.py:175-180 | every record's parent is the nearest earlier heading that outranks it |
| LedgerExtract.LinkChildren | tools/ledger.py:181-184 | every record's children are, in order, the records it is the parent of |
| LedgerExtract.Extract | tools/ledger.py:106-188 | texts concatenate to the source, line ranges tile it, ids are distinct, parents are nearest headings and children their inverse; `LedgerMeaning` says in characters what level and title of a heading are |
| LedgerExtract.ChildrenInverse | tools/ledger.py:181-184 | an id is among a record's children exactly when that record is its parent |
| LedgerMeaning.BlockEnds | tools/ledger.py:125-158 | a block takes the lines that go on with its first line, told by their characters, and stops at the first that does not |
| LedgerMeaning.HeadingBlockMeans | tools/ledger.py:116-124 | a block opens with n hashes and a title exactly when it is a heading block of that level and title |
| LedgerMeaning.HeadingLineOpens | tools/ledger.py:113-158 | outside fenced blocks every line of heading form opens a heading block |
| LedgerMeaning.ParentMeans | tools/ledger.py:180-185 | a record's parent is the nearest earlier block that opens with fewer hashes, and it has none if there is none |
| LedgerMeaning.NameMeans | tools/ledger.py:160-165 | a block is named by its part and number or its kind and digest, and how many blocks up to it have that name |
| LedgerMeaning.HeadingNameMeans | tools/ledger.py:118-120 | a heading is named by its slug and how many headings up to it have that slug |
| KeyedSort.SortCanonical | research/interchange/interchange.py:614-642 | with distinct keys two lists sort to the same list exactly when they have the same entries |
| CanonicalNumber.TextIsRender | research/interchange/interchange.py:570-591 | the fixed-point text with trailing zeros removed is the text of the reduced form |
| CanonicalNumber.TextDecidesValue | research/interchange/interchange.py:570-591 | two numbers print the same exactly when they are spellings of one value |
| CanonicalNumber.TextShape | research/interchange/interchange.py:570-591 | a number prints as a sign, a whole part without leading zeros and a point only before a fraction without trailing zeros; zero has no sign |
| CanonicalNumber.ReadText | research/interchange/interchange.py:570-591 | a printed number reads back as its canonical spelling |
| JsonString.ReadQuoted | research/interchange/interchange.py:602-603 | a quoted string reads back, through short escapes, code unit escapes and surrogate pairs |
| JsonString.QuoteMeans | research/interchange/interchange.py:602-603 | a string prints between quotes with quote, backslash and five controls by a letter, other printable ASCII as it is, and the rest as lower-case code units or surrogate pairs |
| JsonText.ReadPrinted | research/interchange/interchange.py:594-611 | reading a printed value gives its canonical form and leaves nothing |
| JsonText.TextDecidesSame | research/interchange/interchange.py:594-611 | two values print the same exactly when they agree up to key order and numeric spelling |
| JsonText.CanonAgain | research/interchange/interchange.py:594-611 | the canonical form is its own canonical form |
| InterchangeSchema.ImageDecides | research/interchange/interchange.py:614-642 | two valid values have one canonical normalized form exactly when they agree up to key order, order of collections and numeric spelling |
| InterchangeSchema.ImageSettles | research/interchange/interchange.py:614-642 | the canonical normalized form is valid and its own canonical normalized form |
| InterchangeSchema.KeyStable | research/interchange/interchange.py:624-642 | normalizing an item does not change the key it is sorted by |
| JsonBudget.WalkBudget | research/interchange/interchange.py:187-239 | the recursive walk with its running count accepts exactly values within the node, depth, size, string and number limits |
| JsonBudget.ImageKeeps | research/interchange/interchange.py:187-239 | a limit on the canonical normalized form is a limit on the value, seen through canonical numbers |
| JsonBudget.CanonicalOk | research/interchange/interchange.py:287-304 | of a number within the limits the canonical spelling is too, unless it is a whole number that does not fit 64 bits |
| InterchangeDocument.Preflight | research/interchange/interchange.py:242-275 | the character loop accepts exactly texts within the size bound whose scan ends outside strings and containers |
| InterchangeDocument.ScanText | research/interchange/interchange.py:242-275 | the scan lets a printed value through exactly when its containers nest within the limit |
| InterchangeRules.CheckUnique | research/interchange/interchange.py:318-324 | one growing set of names over several groups finds a repetition exactly when there is one |
| InterchangeRules.CheckUniqueness | research/interchange/interchange.py:365-374 | the loops accept exactly documents whose ids are unique together with the plan id, whose radios are listed once over all access points, whose channels are distinct within each constraint and whose sources have distinct ids |
| InterchangeRules.CheckRadios | research/interchange/interchange.py:476-490 | radios are listed once over all access points, or the loop refuses |
| InterchangeRules.CheckChannels | research/interchange/interchange.py:520-534 | the channels of a constraint are pairwise different, known ones by number and unknown ones by reason and raw text, or the loop refuses |
| InterchangeRules.CheckSources | research/interchange/interchange.py:427-436 | the sources have distinct ids, or the loop refuses |
| InterchangeRules.NameKeyInjective | research/interchange/interchange.py:634-641 | the sort key of a channel gives back its identity |
| InterchangeRules.RulesFit | research/interchange/interchange.py:614-642 | the uniqueness rules make the sort keys of every collection of a document distinct |
| InterchangeRules.ImageKeepsUniqueness | research/interchange/interchange.py:614-642 | the canonical form of a document that keeps the uniqueness rules keeps them |
| InterchangeRules.ImageKeepsReferences | research/interchange/interchange.py:311-315 | references that resolve in a document resolve in its canonical form |
| InterchangeReferences.ReferencesMean | research/interchange/interchange.py:385-560 | references resolve exactly when every frame, floor, geometry, access point, radio, constraint, zone and requirement names existing items in its reference fields, a parent and a material optionally |
| InterchangeDocument.EncodeDecides | research/interchange/interchange.py:645-653 | two documents that pass validation encode to the same text exactly when they agree up to key order, order of collections and numeric spelling |
| InterchangeDocument.EncodedComesBack | research/interchange/interchange.py:645-677 | an encoded document decodes exactly when its containers leave room in the scan and its whole numbers fit 64 bits, and then to its canonical form; limits, uniqueness and references of the canonical form are proved |
| InterchangeDocument.Reencodes | research/interchange/interchange.py:645-677 | encoding what came back gives the same text |
| CanonicalOrder.ObjectTextAscends | research/interchange/interchange.py:606-610 | an object prints its fields, each once, with keys ascending by their first differing character |
| CanonicalOrder.NameKeyMeans | research/interchange/interchange.py:634-640 | channels sort known ones first by number, then unknown ones by reason and raw text |
| CanonicalOrder.EncodedAscends | research/interchange/interchange.py:614-653 | an encoded text reads as a document in which the keys of every object, the ids of every collection and the sources, the radios of every access point and the channels of every constraint ascend |
| InterchangeWitness.ShortText | research/interchange/interchange.py:594-611 | the text of a value with short strings, keys and numbers is bounded by its number of values |
| InterchangeWitness.LostInExtension | research/interchange/interchange.py:645-677 | a complete plan is encoded with any small extension in the limits, and the text is refused if the extension holds a whole number over 64 bits or a container at the last level |
| InterchangeWitness.LargeWholeNumberIsLost | research/interchange/interchange.py:287-304 | a complete plan with 1e20 in an extension is encoded and its text refused, for all value rules accepting the plan |
| InterchangeWitness.DeepestEmptyIsLost | research/interchange/interchange.py:187-275 | a complete plan with nested arrays down to the deepest level is encoded and its text refused, for all value rules accepting the plan |
| BoundedLines.CutIsTheOne | tools/rust_diagnostics.py:109-158 | a stream is terminated lines and a rest in exactly one way |
| BoundedLines.Splitter.Feed | tools/rust_diagnostics.py:117-148 | the lines completed by a chunk are those the longer stream has more, and the buffer stays within the bound |
| BoundedLines.Splitter.Finish | tools/rust_diagnostics.py:150-158 | all lines passed on and the oversize count are those of the whole stream |
| FailureParsers.LineParser.Feed | tools/rust_diagnostics.py:272-274 | a parser's state is the fold of its step over the lines so far |
| FailureParsers.ParseStream | tools/rust_diagnostics.py:272-278 | feeding a stream in any chunks gives the fold over the lines of the whole stream |
| FailureParsers.TallyMeaning | tools/rust_diagnostics.py:308-318 | the first twenty distinct findings are reported and every further one is counted |
| FailureParsers.LibtestRunMeans | tools/rust_diagnostics.py:280-318 | what counts are the failed tests reported while a harness runs and before any failure section |
| FailureParsers.NothingAfterFailures | tools/rust_diagnostics.py:280-304 | after a failure section no line changes anything |
| FailureParsers.UnittestRunMeans | tools/rust_diagnostics.py:362-411 | what counts are outcomes above the first rule, on one line or right after their header |
| FailureParsers.ParseLibtest | tools/rust_diagnostics.py:260-326 | for every chunking the findings are the first twenty distinct failures of the whole stream and the others are counted; no other answer fits |
| FailureParsers.ParseUnittest | tools/rust_diagnostics.py:346-419 | the same for the unittest parser |
| FailureLines.LibtestLineMeans | tools/rust_diagnostics.py:41-42 | running headers, result lines, failure sections and failed tests are recognized exactly by their grammars, a result line winning |
| FailureLines.TestNameMeans | tools/rust_diagnostics.py:91-98 | a test name is reported exactly if it has at most 256 characters of the alphabet and no empty or dot part between slashes |
| FailureLines.UnittestLineMeans | tools/rust_diagnostics.py:31-40 | rules, headers, status lines and described outcomes are recognized exactly by their grammars, a status line winning |
| FailureLines.IdentifierMeans | tools/rust_diagnostics.py:399-403 | a test whose parent already ends in its method keeps the parent as its name, and otherwise the method is added to it |
| RecencyOrder.HitOrder | research/renderer/renderer.js:188-197 | using a cached key moves it to the end of the recency order |
| RecencyOrder.FillOrder | research/renderer/renderer.js:211-217 | using an uncached key drops the least recently used one when there is no room |
| TileCaching.TileCache.Request | research/renderer/renderer.js:188-225 | a cached tile is answered at once, a pending one shares its promise, any other starts waiting; the cache stays the most recently used tiles |
| TileCaching.TileCache.FireTimer | research/renderer/renderer.js:202-219 | a timer rejects if the signal was aborted and otherwise resolves with the tile of its key, touching no other promise |
| TileCaching.TileCache.Evict | research/renderer/renderer.js:213-217 | the oldest entries go until the rest fits, each counted |
| TileCaching.TileCache.Abort | research/renderer/renderer.js:220-221 | aborting rejects exactly what waits on the signal, once |
| TileCaching.TileCache.Launch | research/renderer/renderer.js:261-277 | requests start until the cap or the end of the list, and the peaks are the most in flight so far |
| TileCaching.TileCache.CountOutcome | research/renderer/renderer.js:268-270 | a settled request is counted as completed or cancelled by its outcome |
| TileCaching.TileCache.Release | research/renderer/renderer.js:270-275 | the viewport ends exactly with its last request, or starts further ones |
| TileCaching.TileCache.BeginViewport | research/renderer/renderer.js:238-281 | a new viewport aborts the one before it and launches its own requests |
| TileCaching.TileCache.Play | research/renderer/renderer.js:176-281 | after any interleaving of events the cache holds the most recently used tiles, pending and cached keys are disjoint, answers are the tile of their key, misses = pending + cancelled + fills, size = fills - evictions, and viewports keep their cap; settled answers never change |
| TileCaching.DoneIsComplete | research/renderer/renderer.js:270-275 | a finished viewport has completed + cancelled = requested |
| TileCaching.LeftFalls | research/renderer/renderer.js:258-280 | settling promises never gives a viewport more to do, and less whenever one of its own settles |
| TileCaching.TileCache.Perform | research/renderer/renderer.js:176-281 | every event keeps the invariant and settled answers, and leaves no viewport with more to do than before |
| TileCaching.UnfinishedGoesOn | research/renderer/renderer.js:258-280 | an unfinished viewport has something left to do, and an own callback or request that can act next |
| TileCaching.TileCache.Advance | research/renderer/renderer.js:258-280 | for an unfinished viewport with a positive cap some event strictly lowers what it has left and touches no other viewport |
| TileCaching.TileCache.RunOut | research/renderer/renderer.js:258-280 | from every state the events of a viewport with a positive cap and a nonempty list end it, with completed + cancelled = requested |
| ActiveSchedule.SortByIdSorts | crates/active-measurement/src/pure.rs:277-278 | endpoints are sorted by id and none is lost |
| ActiveSchedule.BuildSchedule | crates/active-measurement/src/pure.rs:222-345 | there is a schedule exactly when run and interval agree, the samples are few enough, every attempt with its timeout ends within the interval and identities are distinct; it is the plan endpoint by endpoint, ordinal by ordinal |
| ActiveSchedule.AttemptsFit | crates/active-measurement/src/pure.rs:257-320 | every planned attempt plus its timeout lies within the interval, spaced as asked; sample k belongs to the endpoint and ordinal its place says, and is identified by them |
| ActiveExecution.ExecuteOne | crates/active-measurement/src/executor.rs:241-302 | one attempt yields one sample in time order: no call only if the deadline is reached or a cancellation was seen; a call begun when due or after sleeping exactly until then, with the attempt's timeout or what is left; an outcome that is exactly the connector's answer unless the deadline was reached or a cancellation seen by its end |
| ActiveExecution.TakeSample | crates/active-measurement/src/executor.rs:333-400 | each turn of the loop takes one sample, cancelled without a call if an earlier one was |
| ActiveExecution.TakeAll | crates/active-measurement/src/executor.rs:326-405 | a completed loop has one sample per scheduled one, in order; it ends early only if the clock ran backwards or past 64 bits |
| ActiveExecution.Execute | crates/active-measurement/src/executor.rs:313-433 | a completed execution reports one result per endpoint with ordinals from zero, grouping every sample once, on a trace that keeps all promises; it is refused for its schedule exactly when run, interval and schedule disagree, and with a monotone clock and a deadline within 64 bits every execution with samples completes |
| ActiveExecution.GroupsTile | crates/active-measurement/src/executor.rs:401-425 | grouping gives every endpoint its ordinals in order |
| ActiveExecution.GathersAll | crates/active-measurement/src/executor.rs:401-425 | grouping loses and repeats no sample |
| ActiveExecution.NothingPastDeadline | crates/active-measurement/src/executor.rs:157-192 | once a sample ends at or past the deadline it and all later ones are timeouts or cancelled |
| ActiveExecution.CancellationLasts | crates/active-measurement/src/executor.rs:338-401 | a corollary of the trace's promises: after a cancelled sample all are cancelled and the connector is not called again |
| ActiveExecution.CallsAreSerial | crates/active-measurement/src/executor.rs:268-302 | connector calls do not overlap, do not pass the deadline, and alone bring success |
| LicenseExpression.AcceptedIffDerived | crates/antenna-model/src/contract.rs:723-777 | a token list is accepted exactly when the grammar derives it with parentheses nested at most 32 deep |
| LicenseExpression.LicenseParser.ParseDisjunction | crates/antenna-model/src/contract.rs:730-740 | the loop over OR consumes exactly the longest expression at the cursor |
| LicenseExpression.LicenseParser.ParseOne | crates/antenna-model/src/contract.rs:754-777 | an atom is a license, a license with an exception, or a parenthesized expression one level deeper |
| LicenseExpression.Tokenize | crates/antenna-model/src/contract.rs:682-716 | the tokenizer loop gives the words and parentheses of the text |
| LicenseText.TokensMean | crates/antenna-model/src/contract.rs:682-716 | a text is read as given tokens exactly when it is their words and parentheses with blanks anywhere between and at least one between two words |
| LicenseExpression.ValidExpression | crates/antenna-model/src/contract.rs:682-722 | a text is valid exactly when it has between one and 1024 tokens that the grammar derives |
| LicenseExpression.RenderRoundTrip | crates/antenna-model/src/contract.rs:682-716 | tokens written with blanks between them are tokenized back |
| LicenseExpression.PrintedIsAccepted | crates/antenna-model/src/contract.rs:723-777 | printing any expression within the nesting bound gives a text whose tokens are accepted |
| AntennaPattern.ValidateAxis | crates/antenna-model/src/contract.rs:512-541 | an axis is valid exactly when it has enough and not too many values, all in range and strictly increasing |
| AntennaPattern.BoundedBracketPlaces | crates/antenna-model/src/evaluate.rs:182-196 | the two bracketing elevations weighted by the fraction give the target, clamped to the axis |
| AntennaPattern.PeriodicAngles | crates/antenna-model/src/evaluate.rs:198-223 | on the circle the target lies between its two bracketing azimuths, a turn back or ahead at the ends, and the fraction is its share |
| AntennaPattern.ScaleExists | crates/antenna-model/src/evaluate.rs:225-235 | a strictly increasing invertible power scale, as interpolation needs, exists over the reals |
| AntennaPattern.InterpolateBetween | crates/antenna-model/src/evaluate.rs:225-235 | interpolation in power lies between the two gains |
| AntennaPattern.SampleWithin | crates/antenna-model/src/evaluate.rs:139-168 | a sampled direction never leaves the range of the pattern |
| AntennaPattern.SampleAtGridPoint | crates/antenna-model/src/evaluate.rs:139-168 | at a grid point between the poles the stored gain comes back |
| AntennaPattern.GainWithin | crates/antenna-model/src/evaluate.rs:40-137 | a gain is given exactly for frequencies in the table's range and lies within the table's gains |
| AntennaMeaning.PowerIsLinear | crates/antenna-model/src/evaluate.rs:225-235 | the power of an interpolated gain is linear in the fraction |
| AntennaMeaning.SampleMeans | crates/antenna-model/src/evaluate.rs:139-180 | a sampled direction is the stored gain at a pole, and elsewhere in power the bilinear blend of the four stored gains around it, by its place between azimuths on the circle and elevations within the axis; it is unsupported exactly if one of them is missing |
| AntennaMeaning.EvaluateMeans | crates/antenna-model/src/evaluate.rs:31-137 | an evaluated gain is that of the pattern at its frequency, or in power the linear blend in frequency of its two neighbours, or none out of range |

## Left out

- SQLite, files, artifacts and snapshots of the project store: the store is a log with an atomic append at an expected revision; materialization is an arbitrary deterministic partial function.
- Validation of target and resolution references in the operation graph, payload byte limits and work budgets: they can only refuse more.
- JSON, UTC and base64 text of collector records; records are values, and the framework calls of the collector are arbitrary results.
- CollectorProcess.FinishedStreamAccepted: assumes unique well-formed interface names, stable power readings, fresh ids, a monotone clock and printable framework texts, because the Swift process checks none of these itself.
- CollectorReport.ScanReported: networks of equal strength come in any order, because the text order of their addresses is not modelled.
- PngAdmission.AdmitMapAsset: the caller's resource budget is a number of chunks that may run out early; its charge for bytes and cancellation can only stop earlier still. Image data is not decompressed, as in the source.
- LedgerExtract.Extract: does not model role, owner and phase of a block, nor the disposition matrices, because they are tables over titles; white space, digits, slug and digest are arbitrary functions.
- Evidence, review and blocker rules of the ledger: lookups of files and fixed fields, each a single branch.
- Recursion limits of Python, in the ledger search and in the interchange walk.
- InterchangeDocument.EncodedComesBack: the value rules (units, ranges, enumerations, exact key sets, frame cycles, and the radio, seed and catalog references) are an arbitrary predicate that accepts the canonical form of what it accepts; limits, uniqueness and the other references are modelled.
- InterchangeDocument.Reencodes: rests on the same predicate.
- InterchangeDocument.Encode: does not model Python float inputs, cyclic Python objects and lone surrogates; decoded documents contain none.
- JsonText.ReadValue: reads the canonical grammar only, without blanks and exponents, as the stand-in for the JSON library.
- UTF-8 decoding of diagnostic lines is an arbitrary partial function; the Cargo parser and annotation output are not modelled.
- TileCaching.TileCache.BeginViewport: takes the list of tiles as given; how it is computed from the camera, rendering and benchmarks are not modelled.
- ActiveExecution.Execute: durations are exact nanoseconds; endpoint authorization, provenance records and statistics are not modelled, and the sort inside the result constructor is a check, because samples arrive in order.
- The antenna document's other fields, quaternions, trigonometry and floating-point rounding; pole tolerances and uncertainty bounds.
- The command line, desktop interface, query projection and supply-chain tools: mostly single-branch facts or foreign processes.
