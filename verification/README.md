# XYChat verification

A model of the stateful protocols of XYChat, an end-to-end encrypted Qt chat client with its
server, and proofs about them. Sockets, SQL and OpenSSL appear as steps, maps and an ideal cipher;
everything the protocols decide themselves is modelled as the code decides it.

- **File pipeline** (`FileProtocol`, `FileCrypto`, `CachedFile`, `LocalWork`, `LocalQueue`,
  `UploadTask`, `ObjectStorage`, `FileHttpService`, `DownloadTask`, `DecryptingReader`,
  `FilePipeline`): a file is hashed in time slices, sealed again chunk by chunk for upload, retried,
  assembled on the server, fetched by range requests with retries and ticket renewals, and decrypted
  by three readers.
- **Group sender keys** (`SenderKeys`, `SenderKeyDistributor`): a new key is distributed in chunks
  and used only when all of them were acknowledged.
- **Outbox** (`Outbox`): messages wait on the client, the server stores each at most once.
- **Event log** (`EventLog`): paging through a log that grows and is pruned meanwhile.
- **File lifecycle** (`FileLifecycle`): completion, cancellation, sending and maintenance of one
  uploaded file, interleaved at single statements.
- **Conversation store** (`ConversationStore`, `MessagePages`): clear marks, reconciliation with the
  server's list, and the sliced page pump.
- **Clocks** (`ReplayProtection`, `RateWindow`).

Each protocol is written twice. A specification gives the state as a datatype, what one callback or
statement does to it as a function, and runs as sequences of events; the theorems are about all
runs. A class holds the same state in fields and has the source's methods, loops included, each
proved to do what the specification says. The ideal cipher is a deterministic function of chunk
index and plaintext under one file key; opening authenticates, and the index is part of what is
authenticated. The digest is an arbitrary function; where a statement needs that nobody can match a
digest, it says so (`Pins`).

## Where the code and its promises differ

Each of these has a lemma with a concrete run, or an exact condition.

- Logging out clears the stored outbox but not the one in memory (`LocalStore.cpp:176-199`,
  `NetworkManager.cpp:775-858`): a waiting text is gone after a restart, and is sent under the next
  account if another one logs in first. `Outbox.LogoutThenRestartLosesText`, `OutboxSurvivesLogout`;
  `TextVanishesExactlyWhen` is the exact condition for losing a text. A login that finds another account's store
  open does the same without a logout (`NetworkManager.cpp:3662-3676`, the event `AccountSwitched`), and purging or deleting a
  group removes its waiting messages from the store but not from memory (`LocalStore.cpp:1477-1485`, `GroupPurged`).
- Logging out does not clear the table of sends in flight, although the comment at
  `NetworkManager.cpp:2127-2128` says every caller does. Harmless to the keys. `SenderKeys.LogoutLeavesSends`.
- `pruneSyncEvents` reads the clock twice and is three statements, a request two, and a watermark that
  cannot be read counts as 0 (`DatabaseManager.cpp:2039-2048`): an event can be skipped without
  `needsFullSync`. `EventLog.GapWithTwoClocks`, `GapBeforeMark`, `GapBetweenReads`, `GapUnreadableMark`;
  the conditions are `PruneCoversExactlyWhen` for the first, `ReplyMissesExactlyWhen` for the other
  three, and `GapFreeExactlyWhen` for whole runs.
- `checkReplayProtection` reads the clock once and the nonce cache reads it again: a request held up
  between the two can be a replay. So can one after the cache has been full, which drops entries half
  their time to live old. `ReplayProtection.ReplayAcceptedAfterDelay`, `ReplayThroughFullCache`;
  `AcceptedAgainExactlyWhen` is the exact condition for both.
- `purgeConversation` overwrites the clear mark without taking the maximum: with the old mark
  unreadable it may lower it; without a transaction it may delete messages and record nothing.
  `ConversationStore.PurgeLowersMarkExactlyWhen`, `FailedPurgeLosesExactlyWhen`. Reads that fail may
  leave the new mark below what was purged: `PurgeCoversMessagesExactlyWhen`,
  `PurgeCoversLastExactlyWhen`, `PurgeCoversOldMarkExactlyWhen`.
- The read loop of `DecryptingIODevice` never ends for manifests, valid by `FileManifest::isValid`,
  that claim more plain bytes than the chunks hold. `DecryptingReader.LoopSpinsExactlyWhen`,
  `SpinningManifest`.
- A chunk file that cannot be read is reported as a size mismatch, a data fault, although the
  interface reserves `StorageError` for the disk (`IObjectStorage.h:29-35`).
  `ObjectStorage.LocalFileStorage.FinalizeUnreadable`; `Finalize` has the exact condition.
- An upload whose missing chunks are all reported by a recovery query is never completed.
  `UploadTask.StrandingHappens`; `CompletableExactlyWhen` is the exact condition.
- A ready file can lose its object to the stale round or to a second completion.
  `FileLifecycle.BreaksExactlyWhen`, `DanglingThroughStaleRound`, `DanglingThroughTwoCompletions`.

## Model

| member | source | states |
|---|---|---|
| FileProtocol.LayoutPartitions | CommonModule/protocol/FileProtocol.cpp:246-258 | the expected chunk lengths tile the ciphertext: each is positive, starts at index times chunk size and ends at the next boundary or the end; only the last reaches the end |
| FileProtocol.CeilDivUnique | CommonModule/protocol/FileProtocol.cpp:201-213 | the chunk count is the only n with (n-1)·chunk < size ≤ n·chunk |
| FileProtocol.CeilDivIsQuotient | CommonModule/protocol/FileProtocol.cpp:211 | that count is the quotient the code computes with one division |
| FileProtocol.SealedLayout | Chat-Client/core/FileTransferManager.cpp:824-913 | sealing ceil(plain/(chunk-16)) plain chunks gives a ciphertext with that same chunk count, every expected length being one plain chunk and one tag |
| FileProtocol.HashedLayoutAccepted | CommonModule/protocol/FileProtocol.cpp:231-244 | the totals of a hashing pass are a valid layout exactly when size and count are within their limits |
| FileCrypto.PlainReassembles | Chat-Client/core/FileTransferManager.cpp:824-913 | the plain chunks of a file joined in order are the file |
| FileCrypto.SealedChunkLength | CommonModule/encryption/FileCrypto.cpp:63-72 | the sealed chunk i has exactly the length the protocol expects of ciphertext chunk i |
| FileCrypto.CipherPrefixSize | Chat-Client/core/FileTransferManager.cpp:824-913 | the first k sealed chunks end exactly at the k-th chunk boundary or the end |
| FileCrypto.BlobSize | Chat-Client/core/FileTransferManager.cpp:824-913 | the ciphertext is the plaintext plus 16 bytes a chunk |
| FileCrypto.BlobLayout | Chat-Client/core/FileTransferManager.cpp:1110-1178 | sealed chunk i is found in the whole ciphertext at its offset, tag included |
| ObjectStorage.LocalFileStorage.PutChunk | Chat-Server/storage/LocalFileStorage.cpp:72-94 | stores exactly that chunk or nothing, overwriting an earlier one; succeeds exactly for valid arguments and two disk operations that work |
| ObjectStorage.LocalFileStorage.ReceivedChunks | Chat-Server/storage/LocalFileStorage.cpp:96-123 | lists exactly the stored chunk indexes, ascending |
| ObjectStorage.LocalFileStorage.AllReceived | Chat-Server/storage/LocalFileStorage.cpp:165-175 | the comparison of the listing with 0..n-1 decides whether exactly the chunks below n are stored |
| ObjectStorage.LocalFileStorage.Assemble | Chat-Server/storage/LocalFileStorage.cpp:187-219 | a finished assembly is the stored chunks in order, all of the declared lengths; a size mismatch is answered exactly when, the chunks before it copied, one cannot be read or has a wrong length |
| ObjectStorage.LocalFileStorage.Install | Chat-Server/storage/LocalFileStorage.cpp:220-246 | an object appears only with the declared digest; any other ending leaves objects and chunks as they were |
| ObjectStorage.LocalFileStorage.RemoveParts | Chat-Server/storage/LocalFileStorage.cpp:242-246 | however far it gets, what remains are unchanged chunks of that key |
| ObjectStorage.LocalFileStorage.Finalize | Chat-Server/storage/LocalFileStorage.cpp:137-246 | for every pattern of disk faults and a crash anywhere: either no object and all chunks, or the object is the chunks in order with declared size and digest; repeated calls never touch it; whatever is not Ok changes nothing; and exactly when a size mismatch is answered |
| ObjectStorage.LocalFileStorage.FinalizeAfterCrash | Chat-Server/storage/LocalFileStorage.cpp:137-246 | a call cut off anywhere and repeated on a healthy disk ends as one undisturbed call would |
| ObjectStorage.UnreadableIsMismatch | Chat-Server/storage/LocalFileStorage.cpp:125-135 | with every stored chunk of the right length, a size mismatch is answered exactly for a failed read |
| ObjectStorage.LocalFileStorage.FinalizeUnreadable | Chat-Server/storage/IObjectStorage.h:29-35 | chunks that pass every check are reported as faulty data when any one of them cannot be read |
| ObjectStorage.LocalFileStorage.ReadRange | Chat-Server/storage/LocalFileStorage.cpp:261-282 | returns exactly the requested slice cut at the end, nothing for anything invalid and nothing when opening, positioning or reading fails |
| ObjectStorage.LocalFileStorage.Remove | Chat-Server/storage/LocalFileStorage.cpp:284-312 | success means chunks, temporary files and object are gone; a failure alters none of what is left, and other keys are untouched |
| ObjectStorage.MatchingSizesAddUp | Chat-Server/storage/LocalFileStorage.cpp:196-224 | chunks of the declared lengths always add up to the declared size |
| ObjectStorage.LastWriteWins | Chat-Server/storage/IObjectStorage.h:46-48 | in any sequence of chunk writes the last write of an index is what is stored |
| ObjectStorage.AssemblyOrderFree | Chat-Server/storage/LocalFileStorage.cpp:137-246 | the same chunks written in any order and number assemble to the same object with the same verdict |
| FileHttpService.RangeRoundTrip | Chat-Server/http/FileHttpService.cpp:52-99 | parsing the header the client prints for [s, s+n-1] gives offset s and length min(n, size-s), or unsatisfiable when s is past the end |
| FileHttpService.RangeInside | Chat-Server/http/FileHttpService.cpp:52-99 | whatever header arrives, an accepted range is a non-empty part of the object |
| FileHttpService.OpenRange | Chat-Server/http/FileHttpService.cpp:52-99 | a range without an end is the rest of the object |
| FileHttpService.SingleRangeOnly | Chat-Server/http/FileHttpService.cpp:52-99 | only a missing header is no range; several ranges, or one counted from the end, are malformed |
| FileHttpService.PathNumberRoundTrip | Chat-Server/http/FileHttpService.cpp:104-122 | every 64-bit number written into a path is read back |
| FileHttpService.HandleBlobGet | Chat-Server/http/FileHttpService.cpp:459-563 | the answer is the one section 14.2 of RFC 9110 asks for, within the size limit: the slice named by the header, the whole, or the matching error; a disk that cannot be read turns exactly the answers with data into a server error |
| FileHttpService.ChunkRequestAnswered | Chat-Client/core/FileTransferManager.cpp:1488-1509 | the client's request for chunk i of a valid layout is always answered with exactly that chunk |
| FileHttpService.HandleChunkPut | Chat-Server/http/FileHttpService.cpp:379-457 | a chunk is stored only under a number of the layout and with the length the layout gives it; each refusal is given exactly for its reason and stores nothing |
| CachedFile.GenuineChunkOpens | Chat-Client/core/FileTransferManager.cpp:293-345 | every chunk of the sender's ciphertext opens to the sender's plain chunk |
| CachedFile.GenuineFileDecrypts | Chat-Client/core/FileTransferManager.cpp:293-345 | decrypting the sender's ciphertext gives back the file |
| CachedFile.OpenedChunkIsGenuine | CommonModule/encryption/FileCrypto.cpp:36-83 | in a cache cut, damaged or rearranged, a chunk that opens is the sender's chunk of that very index |
| CachedFile.DecryptsToOriginalOrNothing | Chat-Client/core/FileTransferManager.cpp:293-345 | such a cache decrypts to the original or to nothing |
| CachedFile.DescribedChunkCount | CommonModule/protocol/FileProtocol.cpp:51-97 | the chunk count a receiver derives from the ciphertext size is the sender's count of plain chunks |
| LocalWork.HashState.HashChunk | Chat-Client/core/FileTransferManager.cpp:824-913 | one chunk advances the pass by exactly one sealed chunk of the file; a file cut short fails it and leaves it consistent |
| LocalWork.HashState.RunHashSlice | Chat-Client/core/FileTransferManager.cpp:824-913 | a slice that does not end the pass works off exactly its budget, and when it ends the pass its result is that of one uninterrupted pass |
| LocalWork.HashInSlices | Chat-Client/core/FileTransferManager.cpp:782-913 | for all slice budgets hashing ends with the size, count and digest of the whole ciphertext |
| LocalWork.SaveState.SaveChunk | Chat-Client/core/FileTransferManager.cpp:917-1023 | one chunk is opened and written in place, or damage is reported only when the file cannot be decrypted |
| LocalWork.SaveState.RunSaveSlice | Chat-Client/core/FileTransferManager.cpp:917-1023 | a slice that does not end the save works off exactly its budget; a finished save has written exactly the decrypted file, reported damage means there is none |
| LocalWork.SaveInSlices | Chat-Client/core/FileTransferManager.cpp:782-1023 | for all slice budgets saving yields the whole decrypted file, or damage exactly when there is none |
| LocalWork.DecryptedFileBytes | Chat-Client/core/FileTransferManager.cpp:293-345 | the in-memory viewer yields the same bytes as saving, within its size limit |
| LocalQueue.LocalPump.EnqueueLocalWork | Chat-Client/core/FileTransferManager.cpp:753-762 | the task is served last; the tasks owning work are the current one and the queue, each once |
| LocalQueue.LocalPump.AdvanceLocalWork | Chat-Client/core/FileTransferManager.cpp:764-780 | the next live task becomes current; none is left behind while the queue waits |
| LocalQueue.LocalPump.RunLocalSlice | Chat-Client/core/FileTransferManager.cpp:782-820 | only the oldest task is worked on, only its ending shortens the queue, and the timer runs exactly while there is work |
| LocalQueue.LocalPump.ClearLocalStateForToken | Chat-Client/core/FileTransferManager.cpp:1028-1052 | a task leaves the queue wherever it stands, the others keep their order |
| LocalQueue.LocalPump.CancelTask | Chat-Client/core/FileTransferManager.cpp:1319-1352 | cancelling at any moment releases the task's work and keeps every other task in place |
| LocalQueue.LocalPump.EndTask | Chat-Client/core/FileTransferManager.cpp:1795-1842 | finishing or failing at any moment does the same; for an unknown token nothing happens |
| LocalQueue.LocalPump.Reset | Chat-Client/core/FileTransferManager.cpp:1710-1779 | nothing is left of tasks, queue and timer |
| LocalQueue.PumpServesInOrder | Chat-Client/core/FileTransferManager.cpp:753-780 | over any run, of two waiting tasks that are not dropped the earlier stays ahead |
| UploadTask.UploadBudgets | Chat-Client/core/FileTransferManager.cpp:1180-1255 | every run sends at most n+5 PUTs and 5 recovery queries and asks for completion at most once, queries racing PUTs included |
| UploadTask.SealedAgain | Chat-Client/core/FileTransferManager.cpp:1110-1178 | the chunk sealed for upload is byte for byte the chunk that was hashed |
| UploadTask.UploadDeliversHashedFile | Chat-Client/core/FileTransferManager.cpp:1110-1304 | whatever becomes of the source file, an object on the server is the ciphertext that was hashed, and a task reported as sent has one |
| UploadTask.ObjectIsHashedFile | Chat-Server/core/RequestHandler.cpp:2789-2899 | with the source file left alone this holds without any property of the digest |
| UploadTask.CompletionSucceeds | Chat-Client/core/FileTransferManager.cpp:1110-1304 | with the source file left alone, a completion request finds every chunk stored, with the right length and digest |
| UploadTask.UploadCanSucceed | Chat-Client/core/FileTransferManager.cpp:1077-1304 | for every hashed file, whatever its number of chunks, there is a run that ends with the task sent and the object in place |
| UploadTask.CompletionRequestedWhen | Chat-Client/core/FileTransferManager.cpp:1077-1222 | a run has requested completion exactly if an accepted PUT, never a query, left nothing to send |
| UploadTask.StrandedForever | Chat-Client/core/FileTransferManager.cpp:1098-1102 | a task left with nothing to send, nothing in flight and completion not asked for stays so, without an object |
| UploadTask.StrandingHappens | Chat-Client/core/FileTransferManager.cpp:1224-1255 | for files of any number of chunks, losing the reply to the last PUT and then a successful query brings a task there |
| UploadTask.CompletableExactlyWhen | Chat-Client/core/FileTransferManager.cpp:1077-1304 | in any run over an undisturbed file a running task can still be completed exactly when it is not stranded |
| UploadTask.UploadEndsExactlyWhen | Chat-Client/core/FileTransferManager.cpp:1110-1304 | in any run, told by its events: a running task fails exactly when a PUT is refused for good, or transiently after three refusals in a row or five altogether, the next chunk cannot be read in full, or completion is refused; it is sent exactly when completion is confirmed |
| UploadTask.RefusalKeepsProgress | Chat-Client/core/FileTransferManager.cpp:1180-1222 | any other refusal loses nothing: the chunk stays to be sent and the server is asked what it has |
| UploadTask.UploadTask.NextChunk | Chat-Client/core/FileTransferManager.cpp:1115-1121 | the loop finds the lowest remaining chunk |
| UploadTask.UploadTask.PumpUpload | Chat-Client/core/FileTransferManager.cpp:1110-1178 | sends that chunk, requests completion, or fails the task, as the protocol step says |
| UploadTask.UploadTask.OnPutFinished | Chat-Client/core/FileTransferManager.cpp:1180-1222 | acknowledgement, recovery within both budgets, or failure, as the protocol step says |
| UploadTask.UploadTask.OnUploadQueried | Chat-Client/core/FileTransferManager.cpp:1224-1255 | removes every chunk the server reports and resumes, as the protocol step says |
| DownloadTask.OnlyCheckedContentInstalled | Chat-Client/core/FileTransferManager.cpp:1617-1657 | whatever bytes arrive and whoever changes the files, what enters the cache has the manifest's digest and length |
| DownloadTask.TempIsPrefix | Chat-Client/core/FileTransferManager.cpp:1399-1615 | across retries, renewals and resumptions the temporary file is the object up to min(index·chunk, size), and what is installed is the object |
| DownloadTask.UndisturbedConsistent | Chat-Client/core/FileTransferManager.cpp:1399-1615 | counters and temporary file agree in every undisturbed run, whatever the server sends |
| DownloadTask.DownloadBudgets | Chat-Client/core/FileTransferManager.cpp:1529-1615 | an undisturbed download requests no chunk more than 16 times and sends at most 16·n requests |
| DownloadTask.LastChunkFinishes | Chat-Client/core/FileTransferManager.cpp:1469-1657 | once the last chunk of a genuine object is in, only the local disk can keep the file from the cache |
| DownloadTask.DownloadCanSucceed | Chat-Client/core/FileTransferManager.cpp:1399-1657 | for every object there is a run, answered by the server only, that ends with the object in the cache |
| DownloadTask.RefusalEndsExactlyWhen | Chat-Client/core/FileTransferManager.cpp:1529-1581 | after any undisturbed run, told by its events: a reply without data ends the task exactly when it is permanent, the manifest is gone, the chunk has failed transiently three times since the last data or ticket, or three tickets were renewed since the last data; otherwise nothing downloaded is lost, a transient failure asks for the same chunk once more and a 401 for a new ticket |
| DownloadTask.DataEndsExactlyWhen | Chat-Client/core/FileTransferManager.cpp:1583-1657 | a reply with data continues the task exactly for a whole chunk that is not the last, and completes it exactly for the last one if the joined file passes digest and installation; what file, counters and next request then are |
| DownloadTask.TicketEndsExactlyWhen | Chat-Client/core/FileTransferManager.cpp:1399-1467 | in any run, disturbed or not: which answers to a ticket request end the task, and that the chunks so far are kept exactly if their file has the length counted |
| DownloadTask.TurnEndsExactlyWhen | Chat-Client/core/FileTransferManager.cpp:1469-1527 | in any run: the scheduler sends the next request exactly for a task with a ticket and nothing in flight, and fails it exactly if its manifest is gone |
| DownloadTask.CompletableExactlyWhen | Chat-Client/core/FileTransferManager.cpp:1399-1657 | an undisturbed download over genuine replies can still end in the cache exactly when it has not failed, whatever refusals and renewals lie behind it |
| DownloadTask.ServerSentChunk | Chat-Server/http/FileHttpService.cpp:459-563 | the body of the server's answer to the client's request is the chunk's slice of the object |
| DownloadTask.DownloadTask.FinalizeDownload | Chat-Client/core/FileTransferManager.cpp:1617-1657 | accepts exactly what the checks of length and digest accept, and on refusal touches the temporary file only |
| DownloadTask.DownloadTask.PumpDownload | Chat-Client/core/FileTransferManager.cpp:1469-1527 | requests the next chunk, or finishes, as the protocol step says |
| DownloadTask.DownloadTask.OnDownloadTicket | Chat-Client/core/FileTransferManager.cpp:1399-1467 | resumes only on a temporary file of the counted length, starts over otherwise |
| DownloadTask.DownloadTask.OnGetFinished | Chat-Client/core/FileTransferManager.cpp:1529-1615 | appends a whole chunk and clears both budgets, or retries, renews or fails, as the protocol step says |
| DecryptingReader.DecryptingIODevice.ReadData | Chat-Client/core/DecryptingIODevice.cpp:181-221 | when the promised size is what the chunks hold: from any position exactly the plain bytes up to the requested end, the file's end or the first chunk that does not open; -1 when not one byte can be read; always ends |
| DecryptingReader.DecryptingIODevice.ReadTurn | Chat-Client/core/DecryptingIODevice.cpp:199-219 | for any valid manifest and cache, one turn of the read loop is the turn the spinning results speak of, and hands out exactly the opened chunk's bytes it moves over |
| DecryptingReader.DecryptingIODevice.EnsureChunkFor | Chat-Client/core/DecryptingIODevice.cpp:136-179 | for any valid manifest: the buffer then holds the position's chunk, at the right place; fails exactly when there is no such chunk, it is a bare tag or it does not open |
| DecryptingReader.DecryptingIODevice.Seek | Chat-Client/core/DecryptingIODevice.cpp:117-134 | moves exactly to positions from 0 to the size of an open device |
| DecryptingReader.DecryptingIODevice.Open | Chat-Client/core/DecryptingIODevice.cpp:37-78 | opens exactly for reading only, with a known manifest and a readable cache, and then reads from the beginning with nothing buffered; a refusal changes nothing |
| DecryptingReader.DecryptingIODevice.Close | Chat-Client/core/DecryptingIODevice.cpp:80-100 | no plaintext stays in the buffer |
| DecryptingReader.ChunkAtIsQuotient | Chat-Client/core/DecryptingIODevice.cpp:143-148 | the chunk a position falls into is the quotient the code computes |
| DecryptingReader.UnforgedCacheReflects | Chat-Client/core/DecryptingIODevice.cpp:136-179 | any cache nobody forged, damaged or not, meets what ReadData needs |
| DecryptingReader.LoopSpinsExactlyWhen | Chat-Client/core/DecryptingIODevice.cpp:199-219 | for a valid manifest the loop can stop advancing exactly when it claims more plain bytes than the chunks hold and the last chunk is partial |
| DecryptingReader.SpinningManifest | CommonModule/protocol/FileProtocol.cpp:51-97 | a manifest that passes validation and brings the loop there from the first byte |
| DecryptingReader.SpinsForever | Chat-Client/core/DecryptingIODevice.cpp:199-219 | such a position is never left again |
| DecryptingReader.HeldFilesNeverSpin | Chat-Client/core/DecryptingIODevice.cpp:199-219 | manifests that promise what the chunks hold never bring the loop there |
| FilePipeline.HashingDescribes | Chat-Client/core/FileTransferManager.cpp:824-913 | a manifest built from a hashing pass describes the file for every receiver |
| FilePipeline.GenuineCacheReads | Chat-Client/core/DecryptingIODevice.cpp:136-221 | over the sender's ciphertext all three readers see the sender's file, to its last chunk |
| FilePipeline.ReceivedFileIsSentFile | Chat-Client/core/FileTransferManager.cpp:1110-1657 | end to end, for all upload and download runs over an undisturbed source file and temporary file: what is installed decrypts to the original, nothing being assumed of the digest |
| FilePipeline.NothingElseIsReceived | Chat-Client/core/FileTransferManager.cpp:1110-1657 | end to end, for all runs with any interference, when the digest cannot be matched: the object is the hashed ciphertext, and a cache entry decrypts to the original |
| FilePipeline.TransferCanSucceed | Chat-Client/core/FileTransferManager.cpp:1077-1657 | every file that can be hashed can be uploaded, downloaded and decrypted to the original |
| SenderKeys.RunIsSound | Chat-Client/core/NetworkManager.cpp:1788-2141 | in every run the five tables agree with each other and with the record of keys issued, acknowledged and given up |
| SenderKeys.StepKeepsCoherent | Chat-Client/core/NetworkManager.cpp:2006-2141 | each handler keeps: an open chunk is in all tables with a deadline, no table knows any other, a pending distribution has an open chunk, and the timer runs while anything is tracked |
| SenderKeys.StepKeepsRecorded | Chat-Client/core/NetworkManager.cpp:2731-2773 | each handler keeps: open chunks are the unacknowledged ones of a key not given up, and keys in memory, in the store and in ciphertexts were acknowledged in full |
| SenderKeys.EncryptionUsesCommittedKey | Chat-Client/core/NetworkManager.cpp:2273-2302 | in every run a message or edit is encrypted only with a key of that group all of whose chunks were acknowledged before, and never while a distribution is pending |
| SenderKeys.LatestKeyIsUsed | Chat-Client/core/NetworkManager.cpp:2059-2086 | the acknowledgement of the last open chunk puts that very key into memory, and into an open store; until something takes the group's key from memory every message is then encrypted with the key whose last acknowledgement came latest |
| SenderKeys.KeysAreAsTold | Chat-Client/core/NetworkManager.cpp:1788-1838 | in every run memory and store hold for a group exactly the key its completed distributions, encryptions and removals tell of |
| SenderKeys.RotationCanSucceed | Chat-Client/core/NetworkManager.cpp:2006-2086 | in every run a rotation begun can be completed by acknowledgements, and its key is then the one in memory and store |
| SenderKeys.HeldBackAsTold | Chat-Client/core/NetworkManager.cpp:2006-2141 | in every run a group's keys are held back exactly since, and until the time set when, its distribution was last given up, unless a rotation has begun or been completed or the session ended since |
| SenderKeys.TimerStops | Chat-Client/core/NetworkManager.cpp:3079-3148 | a sweep, the answer to a tracked request and the end of the session stop the timer exactly when nothing is left to track |
| SenderKeys.DeadKeysStayDead | Chat-Client/core/NetworkManager.cpp:2092-2125 | a key superseded, refused, timed out or discarded is never committed or used, whatever acknowledgements still arrive |
| SenderKeys.SweepEndsOverdue | Chat-Client/core/NetworkManager.cpp:3079-3148 | the timer runs while a distribution is pending, and a sweep ends exactly the distributions that are due |
| SenderKeys.RegisteredAreOpen | Chat-Client/core/NetworkManager.cpp:2092-2125 | what the tables register for a group is exactly its open chunks and their requests |
| SenderKeys.RefusalEndsDistribution | Chat-Client/core/NetworkManager.cpp:2731-2773 | a refused chunk clears all tables of its group's distribution |
| SenderKeys.LastAckEndsDistribution | Chat-Client/core/NetworkManager.cpp:2059-2086 | the last acknowledgement leaves the tables as clean as a failure does |
| SenderKeys.LogoutLeavesSends | Chat-Client/core/NetworkManager.cpp:775-858 | after a logout the requests of discarded chunks are still registered as sends, unknown to every other table |
| SenderKeyDistributor.FailTwice | Chat-Client/core/NetworkManager.cpp:2092-2125 | failing groups one after another is failing them together |
| SenderKeyDistributor.SweepOne | Chat-Client/core/NetworkManager.cpp:3079-3148 | handling one more expired request, its group failed already or not, is the sweep of one more request |
| SenderKeyDistributor.FailOne | Chat-Client/core/NetworkManager.cpp:2092-2125 | removing what a group's open chunks name clears every table of the group |
| SenderKeyDistributor.GroupKeyDistributor.BeginDistribution | Chat-Client/core/NetworkManager.cpp:2006-2056 | a rotation gives up the one under way and registers each new chunk in every table |
| SenderKeyDistributor.GroupKeyDistributor.FailDistribution | Chat-Client/core/NetworkManager.cpp:2092-2125 | the loop over open chunks removes every trace of the distribution |
| SenderKeyDistributor.GroupKeyDistributor.CommitDistribution | Chat-Client/core/NetworkManager.cpp:2059-2086 | the acknowledged key becomes the one in memory and store |
| SenderKeyDistributor.GroupKeyDistributor.HandleSendResponse | Chat-Client/core/NetworkManager.cpp:2731-2773 | acknowledgement, last acknowledgement, refusal and late or ordinary replies do what the protocol step says, and the tables agree afterwards |
| SenderKeyDistributor.GroupKeyDistributor.SweepInFlight | Chat-Client/core/NetworkManager.cpp:3079-3148 | handling the expired requests in any order fails exactly the groups affected |
| SenderKeyDistributor.GroupKeyDistributor.EnsureGroupKey | Chat-Client/core/NetworkManager.cpp:1788-1838 | yields a key exactly when no distribution is pending and memory or store has one |
| SenderKeyDistributor.GroupKeyDistributor.EncryptGroupMessage | Chat-Client/core/NetworkManager.cpp:2273-2302 | encrypts with that key or not at all |
| SenderKeyDistributor.GroupKeyDistributor.DiscardDistributions | Chat-Client/core/NetworkManager.cpp:2129-2141 | every open distribution is given up, no key stays in memory |
| Outbox.AtMostOneRow | Chat-Server/core/RequestHandler.cpp:920-935 | however lookups and inserts of competing requests interleave, one sender and client message id never has two rows |
| Outbox.SentMeansStored | Chat-Client/core/NetworkManager.cpp:2731-2848 | a message leaves the outbox as sent only if its row was stored, and is never in flight twice on one connection |
| Outbox.EveryTextAccountedFor | Chat-Client/core/NetworkManager.cpp:1091-1187 | in every run a composed text waits, was stored, failed explicitly, or is one of those recorded as lost |
| Outbox.NoSilentLoss | Chat-Client/core/NetworkManager.cpp:3681-3698 | while nobody logs out or switches accounts, no group is purged and the store takes every text, every text waits, was sent or failed, through drops, lost replies and restarts |
| Outbox.TextVanishesExactlyWhen | Chat-Client/core/LocalStore.cpp:496-570 | in any run a waiting text vanishes from memory and store, neither sent nor failed, exactly when the program restarts while the text is not on its author's disk and its fate is unknown; no other event of client or server takes one |
| Outbox.LostMeansGone | Chat-Client/core/NetworkManager.cpp:3681-3698 | in every run the texts recorded as lost are in no list and no store, and memory and stores agree about the messages they share |
| Outbox.LogoutThenRestartLosesText | Chat-Client/core/LocalStore.cpp:176-199 | a text taken by the store is, after a logout and a restart, neither in memory nor in the store, and neither sent nor failed |
| Outbox.StoredUnderAuthor | Chat-Client/core/NetworkManager.cpp:1091-1187 | without a logout or a switch of accounts a message is stored only under the account that composed it |
| Outbox.OutboxSurvivesLogout | Chat-Client/core/NetworkManager.cpp:775-858 | after a logout and a login the outbox is the new account's own exactly when nothing was waiting or the account is the same; switching to another account without a logout ends in that same state |
| Outbox.RunIsSound | Chat-Server/core/RequestHandler.cpp:870-1050 | rows, requests in flight and the whereabouts of every message agree in every run |
| Outbox.FlushFromSound | Chat-Client/core/NetworkManager.cpp:1091-1187 | a flush transmits only messages that are not in flight and changes nothing else |
| Outbox.FlushSendsExactly | Chat-Client/core/NetworkManager.cpp:1091-1157 | in every run a flush puts in flight exactly the group messages not in flight whose group's key is ready and before which none of a group without keys waits, each by one new request, in the order of the outbox |
| Outbox.KeysSendFirst | Chat-Client/core/NetworkManager.cpp:1467-1521 | in every run a peer's keys send exactly the first message for that peer not in flight, or fail it if it cannot be encrypted; without one nothing changes |
| Outbox.RefusalFailsExactly | Chat-Client/core/NetworkManager.cpp:1378-1390 | in every run a peer's refusal fails exactly the messages for that peer |
| Outbox.PurgeTakesGroup | Chat-Client/core/LocalStore.cpp:1477-1485 | in every run purging a group takes exactly its messages from the open store and none from memory |
| Outbox.ResponseDecides | Chat-Client/core/NetworkManager.cpp:2731-2848 | in every run an answer takes its message off the list exactly when it was stored, or refused for good for a group; the request is over, and any other message is idle again |
| Outbox.InsertDecides | Chat-Server/core/RequestHandler.cpp:920-1050 | a handler that has come to the insert answers that the message is stored exactly when the insert works or another request's row is there |
| Outbox.WaitingCanBeDelivered | Chat-Client/core/NetworkManager.cpp:1091-1187 | after any run every message that waits, private or group, can still be stored, confirmed and taken off the list |
| Outbox.OutboxClient.SendMessage | Chat-Client/core/NetworkManager.cpp:1014-1087 | the message waits in memory, a text also on disk |
| Outbox.OutboxClient.FlushOutbox | Chat-Client/core/NetworkManager.cpp:1091-1187 | the loop over the outbox sends, skips or stops to ask for keys, as the protocol step says |
| Outbox.OutboxClient.HandleFetchedKeys | Chat-Client/core/NetworkManager.cpp:1467-1521 | exactly the first message for the peer not in flight is sent, or fails |
| Outbox.OutboxClient.HandleSendResponse | Chat-Client/core/NetworkManager.cpp:2731-2848 | success and deterministic group failures remove the message from memory and disk, anything else keeps it |
| Outbox.OutboxClient.LoadPersisted | Chat-Client/core/NetworkManager.cpp:3681-3698 | stored messages join those in memory, none twice |
| Outbox.OutboxClient.RemoveFromList | Chat-Client/core/NetworkManager.cpp:3753-3766 | the one message with the key goes, the others keep their order |
| EventLog.AppliedExceptDeleted | Chat-Client/core/NetworkManager.cpp:3597-3659 | for all interleavings of appends, prune statements and paged requests, without a full synchronisation: applied are the user's events up to the cursor, in order, once each, except exactly those that some page the client took passed over because they were deleted when it was read |
| EventLog.GapFreeExactlyWhen | Chat-Server/core/RequestHandler.cpp:1282-1332 | over any run, nothing is missing up to the cursor exactly when no page the client took was read with one of the user's events between cursor and last number already deleted |
| EventLog.ReplyMissesExactlyWhen | Chat-Server/core/RequestHandler.cpp:1297-1313 | a reply that passed the watermark check misses an event exactly when one up to its last number was deleted above the watermark the check saw (anywhere, for a watermark that could not be read and for the unchecked cursor 0), or between the check and the read |
| EventLog.ReplayWithoutGaps | Chat-Server/core/RequestHandler.cpp:1282-1332 | with prunes and requests indivisible, the watermark readable and a cursor above zero nothing is missed, however much is pruned and whichever other reads fail |
| EventLog.CursorNeverDecreases | Chat-Client/core/NetworkManager.cpp:3905-3919 | no event ever moves the cursor back |
| EventLog.FullSyncNumber | Chat-Server/core/RequestHandler.cpp:1297-1313 | a full synchronisation names the watermark or a number present, not before the watermark nor before anything present if the log can be read, and never beyond the log |
| EventLog.FullSyncHeals | Chat-Client/core/NetworkManager.cpp:3605-3620 | a client behind the watermark that takes it continues from that number, and its next request passes the check |
| EventLog.AppliedSinceFullSync | Chat-Client/core/NetworkManager.cpp:3597-3659 | in any run, full synchronisations included, the cursor stays within the log, and what was applied since the last of them is exactly the user's events above the cursor it set, less those a page passed over as deleted |
| EventLog.PagingStopsAtEnd | Chat-Server/core/RequestHandler.cpp:1315-1332 | a page taken leaves the client idle only if everything present above its cursor is applied; otherwise it was full, by the limit asked for or 200, and the next one is asked for from its end |
| EventLog.PruneCoversExactlyWhen | Chat-Server/database/DatabaseManager.cpp:1996-2037 | a prune whose clock readings differ keeps deletions within the watermark exactly when nothing that became old between them is numbered beyond it |
| EventLog.GapWithTwoClocks | Chat-Server/database/DatabaseManager.cpp:1996-2037 | a run in which the two clock readings cost an event |
| EventLog.GapBeforeMark | Chat-Server/database/DatabaseManager.cpp:1996-2037 | a run in which a request between the deletion and the watermark costs an event |
| EventLog.GapBetweenReads | Chat-Server/core/RequestHandler.cpp:1282-1332 | a run in which a prune between the request's two reads costs an event |
| EventLog.GapUnreadableMark | Chat-Server/database/DatabaseManager.cpp:2039-2048 | a run in which a watermark that cannot be read costs an event, the prune being complete |
| EventLog.PageIsBetween | Chat-Server/database/DatabaseManager.cpp:1968-1992 | a page is everything present up to its last number, gaps excluded |
| EventLog.CatchUp | Chat-Client/core/NetworkManager.cpp:3578-3659 | paging with hasMore ends on a log at rest, having applied everything after the cursor in order |
| EventLog.EventTable.AppendEvent | Chat-Server/database/DatabaseManager.cpp:1951-1966 | numbers only grow, and are never reused after deletions |
| EventLog.EventTable.GetEvents | Chat-Server/database/DatabaseManager.cpp:1968-1992 | the first rows after the cursor, up to the limit, of what was ever appended and not deleted |
| EventLog.EventTable.MeasureCutoff | Chat-Server/database/DatabaseManager.cpp:1996-2037 | the largest number present among the old events |
| EventLog.EventTable.DeleteOld | Chat-Server/database/DatabaseManager.cpp:1996-2037 | exactly the old events go, and their count is returned |
| EventLog.EventTable.PruneEvents | Chat-Server/database/DatabaseManager.cpp:1996-2037 | the three statements with their two clock readings; the watermark only rises |
| EventLog.EventTable.SyncEvents | Chat-Server/core/RequestHandler.cpp:1282-1332 | invalid cursor, full synchronisation exactly for cursors between zero and the watermark, with a number as FullSyncNumber says, or the page; each of the three reads that fails is answered 0 or with nothing |
| FileLifecycle.AttachedFilesStayReady | Chat-Server/database/DatabaseManager.cpp:1497-1571 | however all handlers interleave, a file an undeleted message refers to is ready |
| FileLifecycle.NoDanglingAttachment | Chat-Server/core/Server.cpp:320-394 | with completions serialised and none overlapping the stale round its object is there as well |
| FileLifecycle.BreaksExactlyWhen | Chat-Server/core/RequestHandler.cpp:2789-2899 | over any run: ready files keep their objects at every point exactly when no step of the run is one of the three situations named |
| FileLifecycle.DanglingThroughStaleRound | Chat-Server/core/Server.cpp:329-344 | a run in which the stale round removes what has just been made ready |
| FileLifecycle.DanglingThroughTwoCompletions | Chat-Server/core/RequestHandler.cpp:2855-2865 | a run in which one of two completions removes what the other made ready |
| FileLifecycle.FirstRoundIsSteps | Chat-Server/core/Server.cpp:329-344 | the stale round is its statements of the interleaving model one after another |
| FileLifecycle.SecondRoundIsSteps | Chat-Server/core/Server.cpp:346-374 | so is the round over terminal files |
| FileLifecycle.ThirdRoundIsSteps | Chat-Server/core/Server.cpp:376-393 | so is the round over orphans |
| FileLifecycle.CompletionIsSteps | Chat-Server/core/RequestHandler.cpp:2789-2899 | a completion served without interruption is its statements of the interleaving model one after another |
| FileLifecycle.CancellationIsSteps | Chat-Server/core/RequestHandler.cpp:2902-2970 | so is a cancellation |
| FileLifecycle.FileCanBeReclaimed | Chat-Server/core/Server.cpp:320-394 | whatever has happened to a file whose row is there, deleting its messages and undisturbed maintenance take row and object away |
| FileLifecycle.PruningSparesFilesInUse | Chat-Server/core/Server.cpp:320-394 | maintenance never touches a file in use; with nothing failing it removes unfinished and terminal files and cancels orphans |
| FileLifecycle.FileServer.CompleteUpload | Chat-Server/core/RequestHandler.cpp:2789-2899 | the file is what the statements make of it, and each answer is given exactly for its case of old status, old object, result of the assembly and outcome of the write: missing chunks and a failing disk change nothing, only faulty data is marked and removed |
| FileLifecycle.FileServer.CancelUpload | Chat-Server/core/RequestHandler.cpp:2902-2970 | the file is what the statements make of it; only an unfinished upload is cancelled; every other state is left alone |
| FileLifecycle.FileServer.SendFileMessage | Chat-Server/core/RequestHandler.cpp:2556-2597 | a message is inserted exactly for a file that is ready at the insert |
| FileLifecycle.FileServer.PruneFileUploads | Chat-Server/core/Server.cpp:320-394 | the loops of the three rounds treat every listed file as the rounds say, and no other |
| ConversationStore.MarkNeverDecreases | Chat-Client/core/LocalStore.cpp:1194-1270 | over any run without deleting the conversation its clear mark never decreases, logout, leaving and rejoining included, if purges can read it |
| ConversationStore.PurgedHistoryStaysAway | Chat-Client/core/NetworkManager.cpp:2541-2614 | after a successful purge every later request that can read the mark starts at or above the server watermark, and at or above every message id, the last message and the old mark, each if one of the values the purge read or was told is as late |
| ConversationStore.PurgeLowersMarkExactlyWhen | Chat-Client/core/LocalStore.cpp:1194-1255 | when exactly a purge lowers a mark |
| ConversationStore.PurgeCoversMessagesExactlyWhen | Chat-Client/core/LocalStore.cpp:1194-1255 | every later request starts above the purged messages exactly when their largest id could be read, or the server watermark, the readable old mark or the readable last-message id is as late |
| ConversationStore.PurgeCoversLastExactlyWhen | Chat-Client/core/LocalStore.cpp:1194-1255 | the same of the last message's id |
| ConversationStore.PurgeCoversOldMarkExactlyWhen | Chat-Client/core/LocalStore.cpp:1194-1255 | the same of the mark there was before |
| ConversationStore.LaterRequestsStartAtMark | Chat-Client/core/NetworkManager.cpp:2541-2548 | a later request starts at or above the mark a purge left exactly when it can read the mark, asks from above it anyway, or the mark is 0 |
| ConversationStore.FailedPurgeLosesExactlyWhen | Chat-Client/core/LocalStore.cpp:1194-1255 | when exactly a failed purge has removed messages without recording the mark |
| ConversationStore.PurgeIsExact | Chat-Client/core/LocalStore.cpp:1194-1255 | a purge that reports success has removed everything of the conversation from every table, recorded the mark and touched nothing else |
| ConversationStore.DeletionIsExact | Chat-Client/core/LocalStore.cpp:1139-1173 | a deletion whose statements work removes the same and the mark: history is asked for from the start again |
| ConversationStore.LogoutKeepsMarks | Chat-Client/core/LocalStore.cpp:176-199 | logging out clears messages, rows and waiting messages; where later requests start stays |
| ConversationStore.LeftIsNotReported | Chat-Client/core/LocalStore.cpp:1175-1192 | leaving marks the group and changes nothing else, and a later reconciliation does not report it again |
| ConversationStore.ReconcileIsExact | Chat-Client/core/LocalStore.cpp:1288-1430 | afterwards a group is active exactly when listed, the ids returned are exactly the groups that were active and unlisted, unlisted private chats are untouched |
| ConversationStore.ReconcileExactOrNothing | Chat-Client/core/LocalStore.cpp:1288-1430 | for every pattern of failing statements a reconciliation in a transaction is exact, or changes and reports nothing |
| ConversationStore.ReconcileReportsExactlyWhen | Chat-Client/core/LocalStore.cpp:1288-1430 | for every pattern of failing statements: exact and reported exactly when all of them worked and a transaction, if any, is committed; otherwise nothing is reported and in a transaction nothing changed; an empty list changes nothing |
| ConversationStore.UnlistedOnlyLeaves | Chat-Client/core/LocalStore.cpp:1374-1416 | whatever fails, a row the list does not name changes only by being marked as left |
| ConversationStore.ReconcileSetsListed | Chat-Client/core/LocalStore.cpp:1302-1372 | every listed conversation gets the server's row; one that was rejoined has nothing unread and a mark at its last message, so that later requests start there; any other keeps its mark |
| ConversationStore.ReconcileRaisesMarks | Chat-Client/core/LocalStore.cpp:1332-1360 | reconciling never lowers or removes a mark and touches no message |
| ConversationStore.SecondReconcileChangesNoFlag | Chat-Client/core/LocalStore.cpp:1288-1430 | the same list again reports nothing and changes no left flag and no mark |
| ConversationStore.LocalStore.MaxMessageId | Chat-Client/core/LocalStore.cpp:1194-1255 | the largest message id of the conversation, 0 without messages |
| ConversationStore.LocalStore.DeleteConversationRows | Chat-Client/core/LocalStore.cpp:1435-1497 | each table loses exactly the conversation's rows unless its statement failed, and success means none failed |
| ConversationStore.LocalStore.PurgeConversation | Chat-Client/core/LocalStore.cpp:1194-1255 | mark, deletions, rollback and answer for every pattern of failing statements |
| ConversationStore.LocalStore.ReconcileEntry | Chat-Client/core/LocalStore.cpp:1302-1372 | one listed conversation, rejoined or not, for every pattern of failing statements |
| ConversationStore.LocalStore.MarkLeft | Chat-Client/core/LocalStore.cpp:1389-1416 | exactly the groups that could be marked are marked and returned |
| ConversationStore.LocalStore.ReconcileConversations | Chat-Client/core/LocalStore.cpp:1288-1430 | the loops, the rollback and the answer for every pattern of failing statements |
| MessagePages.ShowPages | Chat-Client/core/NetworkManager.cpp:2941-3040 | for all slice budgets and all arrivals between slices: every page is taken up or dropped in order of arrival, and for those taken up what is shown, stored in batches and left as keys is that of whole-page processing; up to 16 pages none is dropped; always ends |
| MessagePages.MessageAdvances | Chat-Client/core/NetworkManager.cpp:2968-3022 | one message in a slice is one message of the whole-page fold |
| MessagePages.ServerPageCounts | Chat-Client/core/NetworkManager.cpp:2968-3022 | stored and shown messages of a server page correspond one to one, key distributions left out |
| MessagePages.DecryptedInOrder | Chat-Client/core/NetworkManager.cpp:2968-3022 | a message of a server page is decrypted under the keys that all messages before it left, distributions included, and stored at its place among the others |
| MessagePages.CachedPageStoresNothing | Chat-Client/core/NetworkManager.cpp:2968-3022 | a cached page changes no keys, stores nothing and shows every message |
| MessagePages.NoPageVanishes | Chat-Client/core/NetworkManager.cpp:2941-2954 | every page that arrived waits, was taken up or was dropped |
| MessagePages.MessagePagePump.EnqueueMessagePage | Chat-Client/core/NetworkManager.cpp:2941-2954 | at most 16 pages wait, and only the oldest waiting one is ever dropped |
| MessagePages.MessagePagePump.TakePage | Chat-Client/core/NetworkManager.cpp:2970-2981 | the oldest waiting page is taken up, from its first message |
| MessagePages.MessagePagePump.RunMessagePageSlice | Chat-Client/core/NetworkManager.cpp:2968-3022 | a slice works in the oldest page only, uses up exactly its budget of messages to show, or finishes the page |
| MessagePages.MessagePagePump.ProcessMessages | Chat-Client/core/NetworkManager.cpp:2968-3022 | the slice's loop keeps batch and keys in agreement with the whole-page fold, and stops at its budget or the page's end |
| MessagePages.MessagePagePump.FinishPage | Chat-Client/core/NetworkManager.cpp:3024-3040 | a finished page is shown unless it had messages and none to show |
| ReplayProtection.AcceptedAtMostOnce | Chat-Server/core/RequestHandler.cpp:3291-3335 | with one clock reading per request and the cap not reached, no timestamp and nonce is ever accepted twice |
| ReplayProtection.NonceRejectedForTtl | Chat-Server/core/NonceCache.cpp:12-54 | below the cap two acceptances of a nonce are more than the time to live apart |
| ReplayProtection.NonceRejectedForHalfTtl | Chat-Server/core/NonceCache.cpp:12-54 | even at the cap they are more than half of it apart |
| ReplayProtection.AcceptedAgainExactlyWhen | Chat-Server/core/RequestHandler.cpp:3291-3335 | in any run, the next request with an accepted nonce is accepted exactly when it is within the tolerance and either more than the time to live has passed, or a request in between found the cache full more than half of it after the first |
| ReplayProtection.FirstUseAccepted | Chat-Server/core/RequestHandler.cpp:3291-3335 | in any run a request with a nonce not accepted before is accepted exactly when it is well-formed |
| ReplayProtection.ExpiredAreForgotten | Chat-Server/core/NonceCache.cpp:26-66 | no expired nonce is left after a cleaning tick, nor after a request that leaves more than half of the cap in the cache |
| ReplayProtection.ReplayedExactlyWhen | Chat-Server/core/RequestHandler.cpp:3291-3335 | with one clock reading the same timestamp and nonce are accepted again exactly after such an eviction, within the tolerance |
| ReplayProtection.ReplayThroughFullCache | Chat-Server/core/NonceCache.cpp:40-50 | a run of 100002 requests, one reading each, in which one request is accepted twice |
| ReplayProtection.ReplayAcceptedAfterDelay | Chat-Server/core/RequestHandler.cpp:3291-3335 | below the cap a second's delay between the two readings suffices |
| ReplayProtection.NonceCache.PurgeExpired | Chat-Server/core/NonceCache.cpp:56-66 | exactly the entries beyond their time to live go |
| ReplayProtection.NonceCache.DropOlderHalf | Chat-Server/core/NonceCache.cpp:41-50 | exactly the entries of the newer half of the time to live stay |
| ReplayProtection.NonceCache.CheckNonce | Chat-Server/core/NonceCache.cpp:12-54 | acceptance and the new cache, clean-up and cap included |
| ReplayProtection.NonceCache.CheckReplayProtection | Chat-Server/core/RequestHandler.cpp:3291-3335 | a request refused for its form leaves the cache untouched; otherwise the cache decides |
| RateWindow.IntervalBound | Chat-Server/core/RateWindow.h:22-34 | for all non-decreasing call times any interval of the window's length lets at most 2·max-1 calls through |
| RateWindow.IntervalBoundReached | Chat-Server/core/RateWindow.h:22-34 | for windows of two seconds and more, and any maximum, that bound is reached |
| RateWindow.OneSecondBound | Chat-Server/core/RateWindow.h:22-34 | for one-second windows an interval lets at most max calls through |
| RateWindow.OneSecondBoundReached | Chat-Server/core/RateWindow.h:22-34 | and that is reached |
| RateWindow.WindowHolds | Chat-Server/core/RateWindow.h:22-34 | each window begins with a call, holds the calls since, and its counter is the number of them let through, at most max |
| RateWindow.RefusedExactlyWhenFull | Chat-Server/core/RateWindow.h:29-31 | a call is refused exactly when, of the calls since its window began, max were let through already |
| RateWindow.NothingAllowed | Chat-Server/core/RateWindow.h:29-31 | a limiter with nothing to allow lets nothing through |
| RateWindow.RateWindow.AllowCall | Chat-Server/core/RateWindow.h:22-34 | answer and new window are those the run theorems speak of |
| RateWindow.RateWindow.Reset | Chat-Server/core/RateWindow.h:40-45 | a reset limiter is a new one |

## Left out

- Sockets, TLS, packets, JSON, timers, signals, views, settings, logging, and the SQL and OpenSSL calls themselves: a timer is a step that may happen, a statement a step that may fail, a time slice "one chunk and then any number".
- Sealing and key generation that fail inside OpenSSL; the AES-GCM and SHA-256 algorithms.
- Simple handlers: contacts, search, typing, receipts, preferences, media metadata and thumbnails; manifest fields other than the sizes (file id, key length, name, MIME type, picture).
- A source file rewritten in place during the hashing pass: LocalWork takes one content per slice, a cut-off one included. What is sent in a later upload may come from any content.
- LocalFileStorage.PutChunk running between the statements of another call for the same key: the stripe locks serialise them, and the model takes each call as one.
- The fallback of the save path when its atomic file cannot be opened, and where in the middle of a write a full disk stops.
- DecryptingReader.DecryptingIODevice.ReadData: does not say what a whole read returns for a manifest that does not promise what its chunks hold; ReadTurn says it of each turn. The threads inside the device are serialised by its mutex and not modelled.
- Upload liveness: runs that succeed exist for every file (UploadTask.UploadCanSucceed), but an upload may stop without completion (UploadTask.StrandedForever).
- Tickets: issuing, expiry and the failure windows of `FileHttpService`; a refused ticket is a reply.
- Unicode digits accepted by `QChar::isDigit` in path numbers.
- One sweep of requests in flight uses one retry time for all groups it fails.
- Private messages the server refuses for good stay in the outbox; only group messages fail there. A message composed before any login, and rows of the user's other devices, are not part of the Outbox model.
- A group message reported as failed may have been stored by an earlier attempt, because leaving the group is checked before the idempotency lookup; the model's failed messages make no claim about rows.
- Event batches the client could not apply count as not accepted and are asked for again; applying the same event twice is the handlers' business.
- EventLog.ReplayWithoutGaps: does not cover cursor 0, which the server deliberately never flags, and takes prunes and requests as indivisible, prunes as working and the watermark as readable, because the statement is false otherwise (the Gap lemmas); GapFreeExactlyWhen covers every interleaving and every failing read.
- What the assembly of an upload's chunks comes to is an arbitrary result in FileLifecycle; ObjectStorage says what it is. FileLifecycle.FileCanBeReclaimed speaks of files whose row is there.
- FileLifecycle.NoDanglingAttachment: assumes serialised completions, because it is false otherwise (the Dangling lemmas).
- ReplayProtection.AcceptedAtMostOnce: assumes one clock reading per request and the cap not reached, because it is false otherwise (AcceptedAgainExactlyWhen, ReplayThroughFullCache, ReplayAcceptedAfterDelay); the cap itself may be exceeded when nothing is old enough to drop.
- Which files the maintenance queries return, with their age and row limits, is an arbitrary choice of the model.
- A failed commit counts as rolled back; a local database that cannot be opened at all makes the calls do nothing.
- Key changes by live messages between two slices of a page: the pump owns the keys while it runs.
- Unread counts after a second reconciliation, which restores the server's number.
- The server's routing tables and session renewal.
