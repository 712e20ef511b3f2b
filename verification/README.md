# Verification of the storage engine

A Dafny model of the content-addressed storage engine: how content is cut into
chunks, packed into xorbs, claimed in the database, read back, compacted and
collected; and of the two streams an upload arrives through. Check it all with
`dafny verify dfyconfig.toml`.

## How it is modelled

**The row-lock protocol** (`Protocol`, `ProtocolSafety`, `ProtocolEffects`,
`ProtocolProgress`, `ProtocolLayout`). The
tables `objects`, `blobs`, `blob_terms`, `xorbs` and the backend are one state.
Every lock, statement and byte operation is a step of its own, so transactions
interleave anywhere, and any of them may be lost at any point: an aborted
transaction's deletes of bytes stay done. Transactions are values (locks held,
uncommitted writes, stage) rather than objects with methods, because what is
proved is about all interleavings of their steps. Row locks, `FOR UPDATE`, an
`INSERT` waiting for an uncommitted one and the advisory lock on a key are all a
lock no other open transaction holds. Grace periods, lock timeouts and `SKIP
LOCKED` become choice: a step that may happen need not. A blob is identified with
the list of chunks of its content and a xorb with its list of chunks, the names
being hashes that determine them; for xorbs that is `Merkle.RootBindsLeaves`.

**Terms** (`Terms`, `Plan`, `CarryOut`, `Compaction`, `TermTables`, `Rewrite`,
`Fetch`, `Reader`, `ReadsOverRuns`, `RoundTrip`). A list of terms means a sequence of chunks at positions.
`Plan` makes such lists, `TermTables` rewrites them, `Reader` interprets them over
byte ranges, and all three are proved against that one meaning. `Reader` runs
against an arbitrary sequence of snapshots, one per query, whose backend may
return any bytes at all; `ReadsOverRuns` shows that the protocol's runs supply
what it assumes of the terms. The protocol's state has no `xorb_chunks` rows of its
own: that a xorb's rows, while it has any, are of its chunks is not proved there
but part of identifying a xorb with its chunk list. `RoundTrip` joins the two ends,
from the parts of an upload to the bytes a read of it serves.

**Streams and codecs** (`Chunker`, `Merkle`, `ByteGroups`, `ChunkCodec`,
`XorbFile`, `SealedStaging`, `AwsChunked`, `Uploads`, `Listing`). Each is a
stateful object or a loop proved equal to a simple function of all its input,
whatever sizes it is written or read in; what the design promises is then proved
of that function.

## What is assumed

- The chunk hash and the Merkle node hash have no collision among the inputs a
  statement speaks of. AES-GCM under a staging key opens the segments of the file
  sealed under that key, and nothing else (`SealedStaging.IdealIsPossible` shows
  this asks nothing contradictory). For chunks, opening inverts sealing and LZ4
  decompression inverts compression (`ChunkCodec.LawfulIsPossible`). The gear table
  is arbitrary.
- Integers are unbounded, except where the code relies on their width: the rolling
  hash and the Merkle sizes are modulo 2^64, header lengths are 24 bits, segment
  numbers are below 2^64, and the upload limit is a 64-bit signed integer.
- Strings that are compared or cut byte by byte (keys, framing) are byte
  sequences; white space around framing fields is ASCII.

## Where the code does less than one would like

- Another commit can discard and rewrite a xorb before its first writer claims it,
  and the claim checks only that bytes are there. Recorded offsets then describe
  another serialisation. `ProtocolLayout.WritersCanDisagree` gives the run, and
  `ProtocolLayout.AgreementIffDeterministic` the exact condition. Reads are safe
  all the same: every chunk is checked before it is served.
- A key equal to the byte successor of a listed common prefix is not listed, since
  the scan resumes strictly after it. `Listing.SuccessorIsNotListed` is an instance
  and `Listing.WalkIsCompleteIff` the exact condition.
- An aws-chunked body cut short can end like a whole one: right after a chunk's
  data, inside a header line that then declares size zero, or among its trailers.
  `AwsChunked.CutBodyEndsClean` is an instance and `AwsChunked.EndsCleanIff` the
  exact condition. Of the payload nothing is lost unnoticed, since the declared
  length is checked as well (`AwsChunked.CleanEndMeansWhole`); a missing trailer is
  noticed only if it was announced (`Uploads.TakeTrailer`).
- With `max_object_bytes` set to 9223372036854775807 the limit plus one wraps to a
  negative number: an upload is staged as empty content, none of its body read or
  checked. `Uploads.StagingIsFaithfulIff` is the exact condition.

## Model

| member | source | states |
|---|---|---|
| ProtocolSafety.ObjectsAreStored | internal/db/xorb.go:171-284 | In every state of every run (puts, commits, copies, links, deletes, both sweeps, orphan reclaim, moves, aborts and crashes anywhere), every object has a blob row and all its bytes are in the backend; so does every chunked blob, at refcount 0 too, and its terms stand for exactly its content |
| ProtocolSafety.RefcountsAreExact | internal/db/object.go:70-160 | In every reachable state a blob's count is the number of objects pointing at it, and a xorb's the number of distinct blobs with a term on it |
| ProtocolSafety.NoDrift | internal/db/xorb.go:303-337 | The branches that log a drifted refcount are unreachable: a release always finds a reference to drop, and a detach one on each of its xorbs |
| ProtocolSafety.LocksExclude | internal/db/stats.go:278-307 | No two open transactions ever hold the same key, blob or xorb lock |
| ProtocolEffects.CommitDoesWhatBegan | internal/cas/cas.go:293-379 | Over any run, whatever runs in between, a commit does what its transaction began to do: begun as an upload, a copy or a link it leaves the objects as they were but with the key pointing at that blob, as a delete without the key, as a sweep or a move exactly as they were; an upload of a new blob adds its row with the planned terms and rows for the xorbs it uses; a copy needs a row and a link a referenced one; a sweep removes its row and no other; a move, from a xorb in use, rewrites the terms of every blob on it and of no other; and nothing else of blobs and xorbs changes but counts |
| ProtocolEffects.OnlyCommitsChange | internal/db/stats.go:278-307 | Every change to the tables is the commit of something begun, with that effect, or a mark of damage set or cleared: what is given up or lost to a crash leaves no trace |
| ProtocolEffects.SweptBytesWereDropped | internal/db/stats.go:134-148 | A sweep of a whole blob or a xorb commits only after its bytes were gone from the backend |
| ProtocolProgress.ClaimHoldsIff | internal/db/xorb.go:229-277 | A xorb is held after its claim exactly when its row is referenced or has its bytes, and is not marked damaged unless the claimer wrote it, or when the claimer wrote it anew and its bytes are there; bytes found under a name without a row are discarded, and nothing else is |
| ProtocolProgress.UploadCommits | internal/cas/cas.go:293-379 | With nothing open beside it an upload commits whenever its content has a row, or it has a plan whose xorbs can all be claimed |
| ProtocolProgress.CopyCommits | internal/db/object.go:100-124 | So does a copy whenever the blob has a row and its bytes |
| ProtocolProgress.LinkCommits | internal/db/object.go:126-137 | So does a link whenever the blob has a reference |
| ProtocolProgress.DeleteCommits | internal/db/object.go:275-294 | So does a delete whenever the key is there |
| ProtocolProgress.SweepBlobCommits | internal/db/stats.go:120-148 | So does the sweep of any blob without a reference, whole or chunked |
| ProtocolProgress.SweepXorbCommits | internal/db/xorb.go:408-428 | So does the sweep of any xorb without a reference |
| ProtocolProgress.MoveCommits | internal/db/compact.go:157-257 | So does a move whenever the new xorb can be claimed, the old one is in use and all its terms are covered |
| ProtocolSafety.StepKeepsInv | internal/cas/cas.go:293-379 | Each single step, of any transaction, from any state the invariant allows, keeps the invariant |
| ProtocolSafety.RunKeepsInv | internal/cas/cas.go:293-379 | So does every run from a state before chunking |
| ProtocolSafety.ClaimBlobInv | internal/db/object.go:70-87 | A claim leaves one reference no object accounts for yet, on a row that is chunked and empty when new, and otherwise as it was |
| ProtocolSafety.ClaimStoredInv | internal/db/object.go:100-137 | A copy's or a link's claim does the same, or refuses: a copy an absent row, a link an absent or unreferenced one |
| ProtocolSafety.LockXorbInv | internal/db/xorb.go:229-257 | Locking a xorb row for a claim keeps the claim's invariant, whether the row is created, revived, live, stale or damaged |
| ProtocolSafety.CheckXorbInv | internal/db/xorb.go:269-277 | A new row, or one at zero, is held by the claim only if its bytes are present under its lock |
| ProtocolSafety.AttachInv | internal/db/xorb.go:187-221 | With every xorb claimed, attaching the terms counts this blob once on each of them |
| ProtocolSafety.UpsertInv | internal/db/object.go:223-255 | Pointing the key at the blob accounts for the claimed reference and leaves the old blob one to drop; which blob the key points at is ProtocolEffects.CommitDoesWhatBegan |
| ProtocolSafety.ReleaseInv | internal/db/object.go:149-160 | Releasing drops exactly that reference, also when the old and the new blob are the same |
| ProtocolSafety.DeleteInv | internal/db/object.go:275-294 | Deleting a key leaves its blob exactly one reference too many, which the release then drops |
| ProtocolSafety.SweepBlobInv | internal/db/stats.go:120-148 | The blob sweep's pick can be collected: it has no reference and no object |
| ProtocolSafety.DetachInv | internal/db/xorb.go:303-337 | Detaching a swept blob's terms leaves every xorb's count exact |
| ProtocolSafety.DroppedBlobInv | internal/db/stats.go:134-147 | Deleting a whole blob's file under its row lock leaves no object without bytes, whether the transaction then commits or aborts |
| ProtocolSafety.DroppedXorbInv | internal/db/xorb.go:403-428 | Deleting a xorb's bytes under its row lock leaves no term without bytes, whether the transaction then commits or aborts |
| ProtocolSafety.RewriteInv | internal/db/compact.go:201-257 | A move that passes its checks keeps every locked blob's meaning, leaves the old xorb at zero and counts the new one's users exactly |
| ProtocolSafety.CommitInv | internal/cas/cas.go:313-361 | Committing a finished transaction keeps the invariant of the tables and of every other open transaction |
| ProtocolSafety.AbortInv | internal/db/stats.go:278-307 | So does giving one up at any point, its backend deletes staying done |
| ProtocolSafety.PutInv | internal/cas/plan.go:448-459 | Writing a xorb's bytes outside any transaction keeps the invariant |
| ProtocolSafety.ReleaseFindsReference | internal/db/object.go:149-160 | A transaction about to release sees the row, with a positive count |
| ProtocolSafety.DetachFindsReferences | internal/db/xorb.go:325-335 | A blob about to be detached has a positive count on each of its xorbs |
| ProtocolLayout.AgreementIffDeterministic | internal/db/xorb.go:258-277 | A live xorb's recorded offsets describe its stored bytes in every reachable state if and only if each xorb has only one serialisation writers can make |
| ProtocolLayout.WritersCanDisagree | internal/db/xorb.go:258-277 | Two serialisations of one xorb suffice for a run, given step by step, after which a blob's offsets describe bytes that are not there |
| ProtocolLayout.DeterministicAgrees | internal/db/xorb.go:258-277 | With one serialisation each, offsets and bytes agree in every reachable state |
| Terms.TilesConcat | internal/cas/plan.go:152-165 | One tiling followed by another is a tiling exactly when the second starts at the first's total size |
| Terms.TilesSplit | internal/db/xorb.go:356-371 | A tiling cut anywhere is two tilings, whose chunks are the whole's in order |
| Terms.TileAt | internal/db/xorb.go:62-68 | Every term of a tiling is sound and starts where the terms before it end |
| Compaction.MoveKeepsMeaning | internal/db/compact.go:231-243 | A move that passes its checks leaves a blob's terms standing for the same chunks at the same positions and sizes |
| Compaction.MoveChangesUses | internal/db/compact.go:237-257 | It leaves no term on the old xorb and touches no other |
| Compaction.LiveChunks | internal/db/compact.go:115-125 | A chunk is live exactly when some term covers it, ranges outside the xorb being clamped |
| Compaction.KeptAtRank | internal/cas/compact.go:142-193 | A live chunk is kept, at the place its rank among the live ones says |
| Compaction.RanksRelocate | internal/cas/compact.go:142-193 | The index built while rewriting says where the new xorb holds each chunk |
| Compaction.CoveredIffLive | internal/db/compact.go:217-229 | A term is accepted for the move exactly when all its chunks were live; so every term the index was built from is accepted, and one that needs a dropped chunk is refused |
| Compaction.CompactionKeepsMeaning | internal/cas/compact.go:133-202 | End to end: the terms the live chunks were read from can be moved, mean the same after, and leave the old xorb |
| TermTables.Tables.CheckTerms | internal/db/compact.go:201-229 | The checks pass exactly when every term on the old xorb belongs to a locked blob and is one run of the new xorb |
| TermTables.Tables.MovedPlaces | internal/db/compact.go:231-236 | The two columns hold exactly the places that moved |
| TermTables.Tables.Repoint | internal/db/compact.go:237-243 | The update rewrites exactly the terms on the old xorb, as the index says |
| TermTables.Tables.MoveTerms | internal/db/compact.go:157-257 | The move is made or refused as a whole, refused changing nothing, and as a whole rewrite exactly when the two xorbs are one; made, it leaves the old xorb at zero and the new one with its users counted afresh |
| TermTables.MoveRowsByBlob | internal/db/compact.go:237-243 | On each blob's rows the table update is the move of its term list |
| TermTables.AcceptedMove | internal/db/compact.go:201-257 | An accepted move keeps every blob's meaning and puts the users of both xorbs on the new one |
| TermTables.BlobsOnAreUsers | internal/db/compact.go:245-257 | The users counted on a xorb are exactly the blobs one of whose terms is on it |
| Plan.StartOf | internal/cas/plan.go:206-219 | A run starts at a place the next chunk can follow whenever there is one |
| Plan.ReusableRuns | internal/cas/plan.go:177-228 | Runs are the long ones (at least 8 chunks, or all of the content) of all the runs there are: each held at consecutive places of one stored xorb, ending only where the next chunk is not next there, of two chunks where two can be had, and none leaving out a chunk held anywhere |
| Plan.StoredStretchIsReused | internal/cas/plan.go:177-228 | A stretch of at least 8 chunks that one stored xorb holds together, each found there and nowhere else, is reused whole, at those places |
| Plan.GroupForXorbs | internal/cas/plan.go:249-268 | Groups are non-empty, hold the indexes in order, fit a xorb, and are as full as that order allows |
| Plan.GroupFits | internal/cas/xorb.go:44-46 | With chunks of at most 128 KiB every group has at most 8192 chunks and at most 64 MiB in the worst case |
| Plan.GroupsAreFull | internal/cas/plan.go:249-268 | A group ends only at 8192 chunks, or where it and the next chunk could take more than 64 MiB |
| Plan.AddChunk | internal/cas/plan.go:152-164 | Adding a chunk adds it to what the terms stand for, growing the last term exactly when the chunk follows it |
| Plan.BuildTerms | internal/cas/plan.go:152-165 | The terms tile the content from 0 and stand for exactly its chunks, each in a xorb some chunk was placed in, and no term goes on where the one before ends |
| Plan.RouteRuns | internal/cas/plan.go:111-127 | Chunks of held runs are reused, of other runs are decoys, the rest are new; and each run's chunks are where the run says |
| Plan.NewChunks | internal/cas/plan.go:128-132 | The chunks no run covers, in order |
| Plan.PlaceNew | internal/cas/plan.go:134-149 | Every grouped chunk is at its own index of the xorb named by its group's chunks |
| Plan.MakePlan | internal/cas/plan.go:89-165 | The plan for empty, held, already stored and new content; a plan that attaches terms satisfies PlanOk |
| Plan.PlanNew | internal/cas/plan.go:99-165 | For new content: every chunk has one route, planned xorbs hold the new chunks in order, decoys the decoyed ones, and the terms stand for the content |
| Plan.OneRouteEach | internal/cas/plan.go:61-150 | A chunk is in exactly one new xorb at one place, or in a decoy, or reused; and only ever outside a new xorb inside a long enough run |
| Plan.PlannedXorbsHold | internal/cas/plan.go:134-149 | A planned xorb is exactly its chunks of the content, in order, and its raw size theirs |
| Plan.WritesAllButHeld | internal/cas/plan.go:61-150 | What is written to xorbs and decoys together is the content's size less the runs the namespace already holds |
| Plan.GroupsInOrder | internal/cas/plan.go:249-268 | Groups made from indexes in content order follow each other in that order |
| CarryOut.CarryOut | internal/cas/plan.go:291-414 | One pass over the staged content sends every planned xorb and every decoy once, in order, each holding exactly its group's chunks, encoded under the keys the job has; it stops only when the content is short, or a chunk that is to be written no longer matches its hash |
| CarryOut.Put | internal/cas/plan.go:364-407 | A chunk goes on filling the open object or opens the next one, and an object is sent only once it has all its chunks |
| CarryOut.NextGoes | internal/cas/plan.go:366-395 | The next chunk of the groups goes to the open object until that is full, and then to the one after it |
| CarryOut.Prepare | internal/cas/plan.go:340-361 | A chunk is encoded, compressed and under the keys the job has, exactly when its staged bytes still match its hash |
| CarryOut.PlansAreCarryable | internal/cas/plan.go:70-165 | Every plan made can be carried out: for new content, for content stored for someone else, and for content there is nothing to write of |
| CarryOut.NameXorb | internal/cas/plan.go:135-145 | The planned name is the Merkle root of the group's hashes and sizes |
| CarryOut.WrittenXorbPasses | internal/cas/scrub.go:140-196 | A xorb that was written passes the whole-xorb check under its planned name, and is at most 64 MiB and 8192 chunks, so never past the buffer reserved for it |
| ByteGroups.Starts | internal/cas/xorb.go:182-193 | Where each of the four groups starts, for every length |
| ByteGroups.Split | internal/cas/xorb.go:159-170 | Splitting puts each byte at its place in its group |
| ByteGroups.Regroup | internal/cas/xorb.go:172-180 | Regrouping gives back the bytes that were split |
| ByteGroups.RegroupUndoesSplit | internal/cas/xorb.go:159-193 | Splitting and regrouping are inverse to each other for every length |
| ByteGroups.GroupingIsAPermutation | internal/cas/xorb.go:159-193 | No two bytes share a place and no place is left over |
| ByteGroups.GroupedInOrder | internal/cas/xorb.go:155-170 | Grouped bytes are in order of their position modulo 4, and in their own order within a group |
| ChunkCodec.PutHeader | internal/cas/xorb.go:103-108 | The header is written over the eight bytes reserved for it and nothing else |
| ChunkCodec.ClearFormat | internal/cas/xorb.go:13-46 | A chunk in the clear is a header of version 0 with little-endian lengths, then its data: what LZ4 made of it, as scheme 1, exactly when that is smaller, or itself, as scheme 0 |
| ChunkCodec.SealedFormat | internal/cas/crypt.go:43-57 | A sealed one is a header of version 1, the length and name of the current key, a 12-byte nonce, and that data sealed under that key for that chunk hash, the header authenticated |
| ChunkCodec.ClearReadsIff | internal/cas/xorb.go:115-157 | A chunk in the clear decodes to exactly what its bytes may stand for: the data itself, what it decompresses to, or that with its bytes regrouped, by scheme, with both lengths right |
| ChunkCodec.SealedReadsIff | internal/cas/crypt.go:135-155 | A sealed chunk decodes exactly when its data opens under the key it names, with its own header and for this hash, and what it opens to decodes; without that key it is reported as missing |
| ChunkCodec.HeaderReads | internal/cas/xorb.go:119-120 | A header reads back as what it was made of, its lengths modulo 2^24 |
| ChunkCodec.AppendCompressed | internal/cas/xorb.go:86-101 | What is appended for a chunk decompresses to it under the scheme returned |
| ChunkCodec.AppendChunk | internal/cas/xorb.go:69-84 | Appending a chunk appends exactly its encoding |
| ChunkCodec.AppendSealed | internal/cas/crypt.go:114-133 | A sealed chunk is its header, its key's name, the nonce and the sealed data, the header authenticated with it |
| ChunkCodec.EncodedLength | internal/cas/xorb.go:41-46 | A chunk takes at most its own length and the overhead planned for it |
| ChunkCodec.SplitKeyId | internal/cas/crypt.go:157-163 | The key name is split off exactly when the bytes start with one of at most 32 bytes |
| ChunkCodec.DecodeAccepts | internal/cas/xorb.go:115-157 | Bytes decode only if they are one chunk end to end, of the size asked for; and if sealed, only if they open under a key that is held, for this chunk hash and with their own header authenticated |
| ChunkCodec.DecodeInvertsEncode | internal/cas/xorb.go:115-157 | Decoding gives back the chunk, clear or sealed, if and only if both lengths fit the header's 24 bits |
| ChunkCodec.ChunksRoundTrip | internal/cas/xorb.go:69-157 | Every chunk the chunker can cut round-trips under any keyring that holds its key |
| ChunkCodec.EncodedKeyId | internal/cas/crypt.go:165-173 | A stored chunk names the key it was sealed under, and none when it is in the clear |
| ChunkCodec.WithoutItsKey | internal/cas/crypt.go:143-145 | A sealed chunk read without its key is reported as missing that key, never as damage |
| XorbFile.Verify | internal/cas/reader.go:384-407 | A chunk found sound has the row's length, size and hash |
| XorbFile.ChecksDecoding | internal/cas/reader.go:384-407 | A chunk is sound exactly when its bytes decode to its hash; it cannot be checked exactly when its key is missing and is one on record, or whether it is could not be looked up; and anything else is damage |
| XorbFile.MissingKeyIs | internal/cas/reader.go:376-400 | So a sealed chunk without its key is damage only if no instance was ever configured with a key of that name |
| XorbFile.CheckXorb | internal/cas/scrub.go:140-196 | The check passes exactly when everything the rows say is so: size, chunks end to end, each sound, and their hashes giving the name; and is not made exactly when it comes to a chunk that cannot be checked with all before it in place and checkable |
| XorbFile.AppendKeepsSerialised | internal/cas/plan.go:381-407 | Appending a sound chunk and its row keeps a serialisation sound end to end |
| XorbFile.WrittenIsSound | internal/cas/reader.go:384-407 | A chunk written now passes its check when read back |
| XorbFile.SerialisedPasses | internal/cas/scrub.go:140-196 | A serialisation named by its chunks passes the whole-xorb check |
| XorbFile.NodesUnique | internal/cas/xethash.go:43-53 | A row's hash parses to one digest only |
| Rewrite.LiveTotal | internal/db/compact.go:85-93 | The live bytes, and whether there are any and every chunk is live |
| Rewrite.Restore | internal/cas/compact.go:147-185 | A live chunk is kept byte for byte when it is sound under the current key, and otherwise encoded again as a commit would, from its content or from a sound copy when damaged; it stops the rewrite exactly when it cannot be checked, or is damaged with no copy |
| Rewrite.StaysIffCurrent | internal/cas/compact.go:160-171 | A chunk as some instance stored it is kept as it is exactly when it is under the current key, or in the clear when there is none |
| Rewrite.RewriteXorb | internal/cas/compact.go:101-195 | It makes a new xorb if and only if some but not all chunks are live, enough is dead or the xorb is damaged, and no live chunk is unreadable, gone or badly named, and otherwise says what the first such chunk is; the new xorb holds exactly the live chunks in order, passes the whole-xorb check, is all under the current key, and comes with the rank index |
| Rewrite.RewriteRelocates | internal/cas/compact.go:142-202 | That index says where the new xorb holds each kept chunk |
| Fetch.SoundCopy | internal/cas/reader.go:337-361 | A copy served from another xorb has the chunk's hash; and one that lasts is found |
| Fetch.OwnChunks | internal/cas/reader.go:272-299 | Each chunk is checked in the xorb's own bytes: those sound are taken, those damaged listed as missing, and one that cannot be checked fails the fetch |
| Fetch.FillMissing | internal/cas/reader.go:305-322 | Missing chunks are all filled with their content, or the fetch fails; and it does not while each has a sound copy elsewhere |
| Fetch.FetchRun | internal/cas/reader.go:260-332 | A fetch returns exactly the bytes wanted or fails, whatever the backend returned; it fails if a chunk cannot be checked, and not while every chunk is sound in the xorb's own bytes, or damaged there and sound elsewhere |
| Fetch.RunObtained | internal/cas/reader.go:253-332 | So a xorb damaged, cut short or missing loses no run of chunks that are each sound there or in another xorb |
| Fetch.SoundXorbServes | internal/cas/scrub.go:140-196 | A xorb that passes the whole-xorb check serves every run of its chunks from its own bytes |
| Fetch.LaidServes | internal/cas/reader.go:260-299 | Chunks stored end to end, each sound, serve every run of them |
| Reader.PageFromList | internal/db/xorb.go:356-371 | A page holds only terms of the list it was read from, in its order |
| Reader.PageCovers | internal/db/xorb.go:356-371 | A page of terms that stand for the content starts with the one covering the position asked for |
| Reader.TermsFit | internal/cas/reader.go:135-144 | Every term of a list that stands for the content sits at its position in it |
| Reader.MakeRoom | internal/cas/reader.go:224-231 | A chunk joins the run being gathered exactly when it is next to it in the same xorb and the run stays within 8 MiB; otherwise the run is queued first |
| Reader.TakeRow | internal/cas/reader.go:216-236 | A chunk is gathered in exactly the part the range wants, and the position moves to its end |
| Reader.TakeTerm | internal/cas/reader.go:183-237 | A term is gathered up to its end; it is found stale exactly when its xorb's rows are no longer all there, and ends the walk exactly when it leaves a gap or its rows cannot be read |
| Reader.TakePage | internal/cas/reader.go:183-241 | A good page always moves the position on |
| Reader.Flush | internal/cas/reader.go:155-169 | Queueing a run keeps what is queued equal to the content read so far |
| Reader.Produce | internal/cas/reader.go:139-244 | Over any interleaving with moves and sweeps and any backend, what is served is a prefix of the range, and all of it when no fetch was lost; the walk terminates; and no fetch is lost while terms name xorbs that are there with each chunk sound in them or in another, even when up to 3 times in all a xorb is moved away from and swept under the read, and its rows found gone |
| Reader.ChunkReader.Next | internal/cas/reader.go:103-120 | The next fetch is taken, or reading ends as the fetches make it: lost bytes for a fetch that was lost, EOF when all were served and nothing is due, and an error when they ended early |
| Reader.ChunkReader.Read | internal/cas/reader.go:87-98 | Every read that does not end serves something, always the next bytes of the range; EOF comes only after exactly all of it, lost bytes only for a lost fetch, and a cut only when the fetches ended early |
| Reader.ReadAll | internal/cas/reader.go:87-98 | Reading to the end serves all before the first lost fetch, and with none lost the whole range, ending in EOF |
| Reader.Open | internal/cas/reader.go:41-65 | Opening waits for the first fetch and fails with its error; a reader returned may be cut off after any number of fetches and still serves only a prefix; an empty range needs no fetch; and uncancelled, over xorbs swept under it at most 3 times, it has the whole range |
| ReadsOverRuns.ReadsAreConsistent | internal/cas/reader.go:171-183 | The terms a read finds in the states of any run stand for the blob's content, or are gone |
| ReadsOverRuns.StaleMeansMoved | internal/cas/reader.go:186-196 | A read finds a term's rows gone only in a state where the blob's own terms have left that xorb |
| RoundTrip.CutsArePlaced | internal/cas/chunker.go:97-117 | The chunks recorded of any content are contiguous from 0, none empty and none over 128 KiB: what a plan is made from |
| RoundTrip.ChunksStandForContent | internal/cas/chunker.go:97-117 | The bytes those chunks stand for are the content |
| RoundTrip.PlanUpload | internal/cas/plan.go:70-165 | Content uploaded in any parts gets a plan whose terms stand for exactly its chunks, and whose xorbs are within 8192 chunks and 64 MiB |
| RoundTrip.SoundXorbStays | internal/cas/scrub.go:140-196 | A xorb that passes the whole-xorb check, and stays as it is until it is swept, loses no read anything |
| RoundTrip.ReadBack | internal/cas/reader.go:41-98 | End to end: a read of uploaded content, over any run of the protocol and any backend, serves a prefix of the range and ends clean only with exactly the bytes uploaded there; and it does end so while its xorbs have each chunk sound somewhere and are swept under it, its terms moved, at most 3 times |
| Merkle.WriteXetHex | internal/cas/xethash.go:34-40 | Writes each 8-byte group as a little-endian integer in hex |
| Merkle.XetHexGroups | internal/cas/xethash.go:31-40 | Each 16 digits written are a group of 8 bytes read as a little-endian number |
| Merkle.DecimalReads | internal/cas/xethash.go:155-156 | A size is written in base ten, most significant digit first, with no leading zero |
| Merkle.NodeTextOfTwo | internal/cas/xethash.go:148-158 | A child is a line of its hash, a colon between spaces, and its size |
| Merkle.ParseXetHex | internal/cas/xethash.go:43-53 | Parses exactly 64 hex digits of either case, and inverts the writing |
| Merkle.XetHexInjective | internal/cas/xethash.go:34-40 | Two hashes with the same text are equal |
| Merkle.NodeTextInjective | internal/cas/xethash.go:148-158 | The text hashed for a node determines its children |
| Merkle.MergeNode | internal/cas/xethash.go:150-168 | A parent hashes its children's lines and has their total size modulo 2^64 |
| Merkle.NextMergeCut | internal/cas/xethash.go:135-146 | The next parent takes all of two nodes or fewer; of more, it takes from 3 to 9, ending at the first from the third on whose hash has byte 24 a multiple of 4, as its last 8 bytes read little-endian then are |
| Merkle.MergeCutIffEnds | internal/cas/xethash.go:131-146 | That rule leaves one cut for any nodes, and it is the one taken |
| Merkle.NextLevelIffParents | internal/cas/xethash.go:101-109 | A level's parents are exactly the groups the rule divides it into, each hashed as its children's lines and as large as they are modulo 2^64 |
| Merkle.RootIffIsRoot | internal/cas/xethash.go:93-111 | The root is exactly the hash of the one node left when parents are taken level after level; a lone node is its own root |
| Merkle.MergeCut | internal/cas/xethash.go:135-146 | It takes at least one node, and from 3 to 9 when more than two are left |
| Merkle.NextLevel | internal/cas/xethash.go:101-109 | A level of n nodes has at most ceil(n/3) parents, and at least one |
| Merkle.MergeLevel | internal/cas/xethash.go:102-108 | The loop over a level makes exactly its parents |
| Merkle.XorbHash | internal/cas/xethash.go:96-111 | The level loop ends, in the root the rule gives: a lone chunk's own hash, and all zeros for no chunks |
| Merkle.LevelConservesSize | internal/cas/xethash.go:148-168 | Every level has the same total size modulo 2^64 |
| Merkle.ParentsBind | internal/cas/xethash.go:96-111 | Equal parent hashes mean equal levels |
| Merkle.DeeperDiffers | internal/cas/xethash.go:96-111 | Trees of different depth have different roots |
| Merkle.RootBindsLeaves | internal/cas/xethash.go:96-111 | Equal roots of two non-empty lists mean equal hash lists, and equal sizes when there are two or more leaves, as long as the node hash has no collision among the texts of the two trees and no node hash is a leaf |
| Chunker.MaskedIsBelow | internal/cas/chunker.go:22-25 | The mask test is a comparison |
| Chunker.RollIsSum | internal/cas/chunker.go:79-83 | The 64-bit rolling hash is a sum modulo 2^64 |
| Chunker.WindowForgets | internal/cas/chunker.go:27-28 | After 64 bytes the hash no longer depends on what came before |
| Chunker.SkipForgets | internal/cas/chunker.go:68-78 | Skipping the bytes before the window gives the hash of hashing them all |
| Chunker.CutsCover | internal/cas/chunker.go:110-117 | The cuts put together are the content, with no gap |
| Chunker.CutsIffByRule | internal/cas/chunker.go:7-13 | Content has one division into chunks that each end where the top 16 bits of the hash of its bytes are first zero with at least 8 KiB, or else at 128 KiB, but for the last; and it is the one cut |
| Chunker.CutSizes | internal/cas/chunker.go:19-26 | Every chunk is at most 128 KiB, and all but the last at least 8 KiB |
| Chunker.CutsResume | internal/cas/chunker.go:97-108 | After each cut the cutting goes on as from a fresh start |
| Chunker.CutsResynchronise | internal/cas/chunker.go:97-108 | Two contents that both cut where a common suffix begins cut it identically |
| Chunker.Chunker.Boundary | internal/cas/chunker.go:67-95 | The skip-ahead scan finds the end of the current chunk where hashing every byte would |
| Chunker.Chunker.Write | internal/cas/chunker.go:48-63 | After any writes the chunks recorded and the bytes in hand are those of cutting all of it at once |
| Chunker.Chunker.Finish | internal/cas/chunker.go:110-117 | The chunks recorded are those of the simple chunker on all that was written, whatever the writes were |
| Chunker.ChunkParts | internal/cas/cas.go:565-577 | Content assembled from parts is cut as if it had come in one piece: into the chunks of the rule |
| SealedStaging.NoncesDiffer | internal/cas/crypt.go:184-192 | Segments below 2^64 never share a nonce, nor does a last one with the same one not last |
| SealedStaging.NonceFormat | internal/cas/crypt.go:184-192 | A nonce is three zeros, the segment number big-endian in 8 bytes, and 1 for the last segment or 0 |
| SealedStaging.SegmentFormat | internal/cas/crypt.go:51-57 | Segments are 64 KiB of the content each, the last what is left, perhaps nothing |
| SealedStaging.FileFormat | internal/cas/crypt.go:44-57 | A file is version 1, the length and name of its key, its salt, and its segments sealed one after another, each under its number and whether it is the last |
| SealedStaging.IdealIsPossible | internal/cas/crypt.go:184-264 | Whatever files are written, there is a cipher as ideal for them as the reading results ask |
| SealedStaging.SealedWriter.Write | internal/cas/crypt.go:227-246 | What is written is taken whole; a full segment is sealed only once more follows it |
| SealedStaging.SealedWriter.Close | internal/cas/crypt.go:256-264 | The file is the header and the sealed segments of everything written, with any split of writes, including none and exact multiples of 64 KiB |
| SealedStaging.OpensOnlyAsWritten | internal/cas/crypt.go:319-343 | Under an ideal AEAD a segment opens only in its own place and only as the last if it is |
| SealedStaging.OpenedIsNext | internal/cas/crypt.go:319-343 | A segment that opens is the next one of what was written under the file's key |
| SealedStaging.SealedReader.Next | internal/cas/crypt.go:319-343 | Opening fails only on a file that is not as written |
| SealedStaging.SealedReader.Read | internal/cas/crypt.go:302-317 | With any read sizes: a prefix of what was written; a clean end exactly at its end and only for the file as written; an error only for any other |
| SealedStaging.OpenStaging | internal/cas/crypt.go:278-300 | A file opens exactly when it has a header with a key name of at most 32 bytes that is held and a salt of 32; without the key it is reported as missing, and otherwise as short or of an unknown format; its key depends on its name |
| AwsChunked.ReadLine | internal/s3/chunked.go:374-393 | A line ends at the first newline of the first 8192 bytes, is refused when there is none in 8192, and at the end is still a line without its terminator |
| AwsChunked.SizeReads | internal/s3/chunked.go:271-293 | A size written in hexadecimal of either case, with an extension or without, is what its header is read as, up to 2^30, and a larger one is refused |
| AwsChunked.SignedSizeReads | internal/s3/chunked.go:285-291 | A sign is read, and only zero may be negative |
| AwsChunked.PaddedSizeReads | internal/s3/chunked.go:277-283 | Zeros before a size change nothing, up to 16 digits in all |
| AwsChunked.TrailersAreBounded | internal/s3/chunked.go:312-350 | However many trailers a body has, at most 16 are kept, never the signature, and none where none may be |
| AwsChunked.ConsumeTrailers | internal/s3/chunked.go:312-360 | The loop over trailer lines collects the trailers of the text, within the bounds on lines, bytes and names; what they are read as is AwsChunked.TrailersRoundTrip |
| AwsChunked.TrailersRoundTrip | internal/s3/chunked.go:305-350 | Trailers written a line each after well-framed chunks, and ended by a blank line or the end, are read back: exactly the names, trimmed and in lower case, but the signature's, each with the trimmed value of its last line; and they fail the body exactly when none are allowed, or they are over 17 lines, 8192 bytes, or 16 names with another to come |
| AwsChunked.TrimSpaceIffTrimmed | internal/s3/chunked.go:340-341 | Trimming takes the blank bytes at both ends and nothing else |
| AwsChunked.SignatureName | internal/s3/chunked.go:57-58 | The name never kept is that of the trailer signature |
| AwsChunked.ChunkedReader.Read | internal/s3/chunked.go:184-247 | With any read sizes the bytes served, and how they end, are those of decoding the whole body at once |
| AwsChunked.ChunkedReader.ExpectCrlf | internal/s3/chunked.go:362-372 | After a chunk's data, a body that stops there is passed on as a plain end, an empty line is consumed, and anything else is an error |
| AwsChunked.LengthCheckedReader.Read | internal/s3/chunked.go:122-137 | A clean end means exactly the declared number of bytes; an error, that the framing or the length is wrong |
| AwsChunked.WholeBodyDecodes | internal/s3/chunked.go:184-303 | A well-formed body decodes to its payload and its trailers, and ends clean |
| AwsChunked.PrefixDecodesToPrefix | internal/s3/chunked.go:184-303 | Any byte prefix of a well-formed body decodes to a prefix of its payload |
| AwsChunked.EndsCleanIff | internal/s3/chunked.go:184-303 | A well-formed body cut short ends clean, as far as its framing tells, exactly when it is cut right after a chunk's data, or in a header line what is left of which declares no data, or among the trailers where what is left are trailers |
| AwsChunked.CutBodyEndsClean | internal/s3/chunked.go:184-303 | Such a cut exists: a body of two chunks, cut inside the second's header, ends clean with the first chunk only |
| AwsChunked.CleanEndMeansWhole | internal/s3/chunked.go:122-137 | So with the declared length a clean end means exactly the payload, and the whole body always gets there |
| Listing.GroupIsRange | internal/db/object.go:375-380 | The keys in a group are exactly those from it up to its byte successor |
| Listing.SameGroup | internal/db/object.go:364-375 | Two keys are listed as one group exactly when both start with it |
| Listing.EntryIs | internal/db/object.go:364-375 | A key is listed by itself exactly when the delimiter is not after the prefix, and otherwise as the part up to the first delimiter after it |
| Listing.LessIsByteOrder | internal/db/object.go:325-329 | Keys are ordered byte by byte, a proper prefix first |
| Listing.MatchingHas | internal/db/object.go:338-348 | The keys looked at are exactly those with the prefix |
| Listing.JumpIsObject | internal/db/object.go:376-380 | A group's byte successor, as a key, is listed by itself |
| Listing.SpecHas | internal/db/object.go:323-333 | The specification lists exactly what some key is listed as |
| Listing.SpecInOrder | internal/db/object.go:323-333 | It lists them in strictly increasing order, so once each |
| Listing.WalkIsCompleteIff | internal/db/object.go:340-391 | Walking from marker to marker lists exactly the specification if and only if no key is the byte successor of a group |
| Listing.SuccessorIsNotListed | internal/db/object.go:376-384 | Such a key exists: "a0" is not listed after "a/b" |
| Listing.ListBatch | internal/db/object.go:357-385 | A batch is listed until the page is full or a group is found |
| Listing.ListObjects | internal/db/object.go:333-392 | A page holds the first entries of the walk after the marker, at most maxKeys; it is truncated exactly when there are more, and its next marker, strictly greater, is where they go on |
| Listing.ListingIsCompleteIff | internal/db/object.go:340-391 | What following the markers from the start gives, objects and groups, is the specification's if and only if no key is the byte successor of a group |
| Listing.ListAll | internal/db/object.go:300-309 | Following the markers gives, in order and once each, keys with the prefix by themselves and common prefixes in use, and nothing else; from the start every key with the prefix is given or starts with a common prefix given if and only if no key is the byte successor of a common prefix in use |
| Uploads.TakeTrailer | internal/s3/payload.go:249-269 | No checksum trailer but the announced one, which has to be there and be a checksum |
| Uploads.Check | internal/s3/payload.go:232-244 | The check passes exactly when every claim about the whole body holds |
| Uploads.Payload.Read | internal/s3/payload.go:211-229 | The end is shown only when the source ended clean and every claim holds; any failure, and the end, is sticky |
| Uploads.Stage | internal/cas/cas.go:201-260 | Staging succeeds exactly when the body is good and within the limit, and then keeps exactly the body, except at the largest limit there is, where it keeps nothing; and each error has its reason |
| Uploads.StagingIsFaithfulIff | internal/cas/cas.go:207-217 | Staging keeps exactly the body, for every body, if and only if the limit is not the largest 64-bit integer |

## Left out

- HTTP handlers, XML and JSON types, sessions, audit logging, the web UI and configuration parsing.
- AwsChunked.ChunkedReader.Read: does not model chunk and trailer signatures; the decoder is modelled as it runs without a signer, and a signature that does not verify only turns a read into an error.
- AwsChunked.EndsCleanIff: is of bodies without signatures, like the decoder it speaks of.
- A line of aws-chunked framing of exactly 8192 bytes without a newline, from a source that reports its end together with its last bytes, is refused here and accepted by the code.
- Quotas, usage counters and the checks of who may see a blob; they can only refuse a transaction, which the protocol allows at every point.
- Reads of blobs stored whole before chunking, which are served unchecked from their file, and the digest check of such a blob.
- Errors of the staging writer and of sending an object: a failed pass or copy is one that stops, which leaves nothing claimed.
- Goroutines and read-ahead: fetches are taken in the order they are queued.
- Progress beside other transactions, and freedom from deadlock: a plan can go stale any number of times, for one because two of its xorbs can have the same hash, and locks rely on the database's own detection. That each operation can commit with nothing open beside it is `ProtocolProgress`.
- ResolveManifest, the file hash, the scrubber's pacing, released_at and verified_at marks, and the order sweeps take their candidates in.
- When a xorb is marked damaged or the mark cleared: it may be at any time, by a step of its own.
- Compaction that reseals chunks is not held to 64 MiB; the packing bound is proved of planned xorbs only.
- LocateChunks: what it returns is arbitrary for a read, where every copy is checked, and assumed right for a plan, whose claim checks the xorb again.
