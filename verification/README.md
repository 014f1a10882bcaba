# Encrypted Discord storage: a verified model

This project models the parts of the storage service in which something hard has to stay true, and proves
that it does. A file is a document in a database that lists encrypted chunks; each chunk is an attachment on
Discord; a directory's entry tag covers its children, which are documents of their own. Nothing updates two
documents at once, any call can fail, and several clients work at the same time.

What is modelled, one module a component:

- `TagEncoding`, `Tags`, `CtrCipher`: what the integrity tags are taken over, and AES-CTR at an offset.
  The MAC is any injective function and the block cipher any function of key and counter.
- `FileContent`, `Backend`, `FileHandle`, `CrossHandle`: one open file. `DiscordFile` is a class with the
  source's buffer, chunk list, cache and flags; every database or Discord call lands or raises with no effect,
  at the environment's choice, and `alwaysSound` records that the stored file was sound after every one.
- `Tree`, `Paths`, `Subtree`, `TrashView`, `Search`: the parent-pointer tree and the walks over it.
- `DirectoryTags`, `Structure`, `Operations`, `Attachments`, `VfsFacts`, `RollbackFacts`, `OverwriteFacts`,
  `RenameFacts`, `Vfs`: the structural operations. `DiscordVfs` logs the database after every write; `Valid` says of every entry of the log that every
  document is signed, every directory verifies, and the version cache agrees; `Standing` says all but the second.
  Stopping anywhere leaves a logged state.
- `MoveFacts`, `TagProtocol`, `SoloRuns`: any number of tasks running those operations, interleaved at every database call, dying anywhere.
- `DirLocks`: the per-directory locks over asyncio's lock, cancellation included.
- `SqlFilter`, `SqlInline`, `SqlMeaning`, `SqliteCollection`: the translation of filters to SQL and the collection on it.
- `LoginGuard`, `RateLimiter`: the lockout and the rate budget, over runs of events.

Where a promise does not hold as it stands, the exact limit is proved beside it: `CommitVerifiesExactly` with
`TrashedMeanwhileMisSigns`, `UnwindingVerifiesExactly` with `RenamedMeanwhileUncovers`, `FailedPromotionCovers`,
`StagingCoversExactly` with `StagingAfterDeathUncovers` and `LostForGood`, `RemovalCoversExactly` with
`RestoredMeanwhileUncovers`, `MoveCoversExactly`, `CollectedCoversExactly` with `MovedMeanwhileUncovers`,
`OwnerSettles`, `TestExact` for booleans against numbers, `StoredExactly` with `TrueToOneIsLost`, and `EpochIsNotListed`.

Hypotheses, beyond those the code itself checks: new ids are new, and no nonce is drawn twice; a name is already in
normal form; an operation of `Vfs` starts with the directories it changes promoted (`TagProtocol` says what happens
when one is not); in `TagProtocol` a `rename`, a renaming `restore`, a `purge` and a `_rollback`, none of which reads
the node under its lock, find the pair they remove still in the directory when they list it, and no move takes what
a purge has collected below its own node (the `Exactly` lemmas above say that each of these is needed); no two
handles have unflushed writes to one file at once, and a file is not trashed or restored while a handle on it is open
for writing.

`dafny verify dfyconfig.toml` checks the whole project.

## Model

| member | source | states |
|---|---|---|
| `TagEncoding.DecodeReadsMessage` | src/crypto.py:146-330 | a decoder reads every tag message back to the kind and the fields it was built from |
| `TagEncoding.MessageInjective` | src/crypto.py:153-330 | with standard nonces and lengths below 2^64, equal messages mean the same kind and the same fields |
| `TagEncoding.KnownMessages` | src/crypto.py:153-330 | one message of each kind, byte for byte: labels, length prefixes, eight-byte numbers, the presence byte of the trash state |
| `TagEncoding.NonceLengthIsNeeded` | src/crypto.py:153-165 | two different chunks with nonces of different lengths that share one message: why the 16-byte nonce matters |
| `TagEncoding.NodeMessage` | src/crypto.py:213-243 | the successive updates of `node_tag`, chunk tags in a loop, feed exactly the decodable message, and refuse exactly what does not fit its length fields |
| `TagEncoding.EntriesMessage` | src/crypto.py:305-330 | the sorted loop of `dir_entries_tag` feeds exactly the decodable message of the sorted pairs |
| `TagEncoding.OrderedUnique` | src/crypto.py:305-330 | an ordered listing is the only ordered listing of its multiset |
| `TagEncoding.EntriesTagIsMembership` | src/crypto.py:286-330 | two entry messages are equal if and only if the directory and the multiset of (id, name) pairs are |
| `Tags.SameBytesSameTag` | src/crypto.py:153-354 | under an injective MAC, nested tags included, two tags have equal bytes if and only if they are the same term |
| `CtrCipher.TransformAt` | src/crypto.py:378-397 | byte i of a transform is the data byte combined with the key stream byte of its position, for every offset and across the wrap of the 128-bit counter |
| `CtrCipher.SuffixAtOffset` | src/crypto.py:383-397 | transforming a suffix at its offset is that suffix of the whole transform, aligned or not (section 6.5 of NIST SP 800-38A) |
| `CtrCipher.TransformInverse` | src/crypto.py:383-397 | the transform keeps length and is its own inverse |
| `CtrCipher.CounterWraps` | src/crypto.py:378-380 | the key stream repeats after 2^128 blocks |
| `CtrCipher.PositionByteIs` | src/crypto.py:378-397 | what a position is combined with: byte position mod 16 of the block enciphered from the nonce plus position div 16, modulo 2^128 |
| `CtrCipher.XorBitsAt` | src/crypto.py:383-397 | the combination is bit by bit: one exactly where the two differ |
| `FileContent.CtrIsCipher` | src/crypto.py:383-397 | AES-CTR gives the length-preserving involution the chunk model asks for |
| `FileContent.FlatChunk` | src/vfs.py:579-595 | chunk i's plaintext is exactly the bytes of the file at its offset |
| `FileContent.FlatReplace` | src/vfs.py:699-737 | replacing one chunk by another of its size is a splice of the file there |
| `FileContent.SameTagsSameContent` | src/vfs.py:487-515 | two well-formed chunk lists with equal tags hold equal bytes at equal places |
| `FileContent.AppendContent` | src/vfs.py:744-793 | a chunk committed at the end of the data is a write there; over a hole it fills the hole from the left |
| `FileContent.TrimContent` | src/vfs.py:1224-1263 | trimming the chunk a new end falls in, and dropping the later ones, is a cut of the file |
| `FileContent.ZerosContent` | src/vfs.py:645-686 | zeros written over the hole only lengthen the file |
| `FileContent.SpliceConcat` | src/vfs.py:638-643 | two writes back to back are the write of their concatenation |
| `FileContent.SpliceWithin` | src/vfs.py:645-686 | rewriting a chunk with one piece changed is writing that piece |
| `FileContent.SliceAt` | src/vfs.py:519-577 | a read is the bytes asked for that are there, and no others |
| `Backend.SameTagsSameChunks` | src/vfs.py:487-515 | where nonces do not repeat, equal tags mean the very same attachments: why comparing versions is enough |
| `Backend.FileBackend.Upload` | src/vfs.py:744-793 | an upload lands under a new id and nonce or raises with no effect; the stored file stays sound either way |
| `Backend.FileBackend.Delete` | src/vfs.py:1057-1071 | a deletion that goes through removes exactly that attachment; one that is refused leaves an orphan and is counted |
| `FileHandle.CommitVerifiesExactly` | src/vfs.py:1162-1175 | after a content commit the stored document verifies if and only if the handle was right about its parent, name and trash state |
| `FileHandle.TrashedMeanwhileMisSigns` | src/vfs.py:487-515 | a file trashed since the handle last synced: the next commit signs the wrong trash state |
| `FileHandle.DiscordFile.constructor` | src/vfs.py:353-393 | a handle opened on a stored file sees exactly its content |
| `FileHandle.DiscordFile.Sync` | src/vfs.py:487-515 | takes up another handle's commit when the version cache says there was one, and is then in step with the stored file, whatever its copy was |
| `FileHandle.DiscordFile.LocateChunk` | src/vfs.py:568-577 | finds the chunk a position falls in, or says there is none because the position is past the data |
| `FileHandle.DiscordFile.ChunkBytes` | src/vfs.py:579-595 | gives the chunk's plaintext whether from the cache or from Discord, and keeps every cached entry equal to its chunk's plaintext |
| `FileHandle.DiscordFile.ReadAt` | src/vfs.py:519-566 | a read is the exact slice of the file as this handle sees it, however old its copy; it raises without a fault of the stores only if it is not readable or the file is gone |
| `FileHandle.DiscordFile.CommitContent` | src/vfs.py:1162-1175 | the stored document, its tag and the version cache move together, or nothing does |
| `FileHandle.DiscordFile.Rollback` | src/vfs.py:839-905 | a file this handle created goes, with its version, the attachments its copy knows of and the name its copy has in the directory its copy names; it is reported stale only if some call failed meanwhile; any other file is left as last committed; with an up-to-date copy and no failure Discord holds exactly what is referenced |
| `FileHandle.DiscordFile.OwnerSettles` | src/vfs.py:871-905 | after an unwinding whose deletions all went through, Discord holds exactly what is referenced if and only if the handle's copy knew of every attachment |
| `FileHandle.DiscordFile.UploadChunk` | src/vfs.py:744-793 | appends one chunk to the file, or releases its attachment and leaves the file as it was |
| `FileHandle.DiscordFile.FlushBuffer` | src/vfs.py:739-742 | what was buffered is committed, and the visible file does not change |
| `FileHandle.DiscordFile.Append` | src/vfs.py:638-643 | whole chunks are cut off the buffer and committed in order; if one fails, a prefix of what was written has been |
| `FileHandle.DiscordFile.ReplaceChunk` | src/vfs.py:699-737 | one chunk's plaintext is replaced, or nothing is; the attachment no longer referenced is deleted after the commit |
| `FileHandle.DiscordFile.PatchChunks` | src/vfs.py:658-680 | the patches over existing chunks amount to one splice of as much of the data as they cover |
| `FileHandle.DiscordFile.WriteRandom` | src/vfs.py:645-686 | a random write is one zero-extended splice over buffer, chunks and hole |
| `FileHandle.DiscordFile.WriteAt` | src/vfs.py:609-636 | a write is a zero-extended splice at its offset, at end of file in append mode, over what is committed by whichever handle; a failed one leaves each byte as committed, as seen, or as written; raised or not, if every deletion goes through Discord still holds exactly what is referenced |
| `FileHandle.DiscordFile.ResizeNode` | src/vfs.py:1196-1263 | a resize is a cut or a zero pad, or leaves the document as it was |
| `FileHandle.DiscordFile.TruncateTo` | src/vfs.py:966-992 | flushes and resizes; what the handle sees is the committed file with its own writes, cut or padded; attachments are conserved, raised or not |
| `FileHandle.DiscordFile.Abort` | src/vfs.py:994-1017 | closes without committing what was buffered; a file this handle created goes, row, version and name, unless some call fails; any other is untouched; attachments are conserved unless the handle created the file and missed a commit |
| `FileHandle.DiscordFile.Close` | src/vfs.py:1019-1054 | what is committed after a close is what the handle showed; raised or not, if every deletion goes through Discord holds exactly what is referenced, unless the node is reported stale; a swap that fails unwinds the upload |
| `CrossHandle.ReaderSeesWriter` | src/vfs.py:487-515 | an idle handle with a copy of any age, open for writing too or not, reads exactly what another handle committed, though a third party renamed the file in between |
| `CrossHandle.WriterFollowsWriter` | src/vfs.py:609-636 | the next write of a handle that was idle goes on top of what another handle committed meanwhile |
| `CrossHandle.TruncateFollowsWriter` | src/vfs.py:966-992 | and its next truncation cuts or pads that |
| `CrossHandle.RenameBetweenWrites` | src/vfs.py:1156-1175 | a rename between two appends of a handle is taken up: both are kept and the stored tag verifies |
| `CrossHandle.RenamedThenAborted` | src/vfs.py:839-905 | a file renamed and then given up by the handle that made it is taken out of the directory it was in when the handle last looked |
| `Tree.PairsAfterPut` | src/vfs.py:1126-1128 | writing one document moves its own (id, name) pair and no other |
| `Tree.PairsAfterDelete` | src/vfs.py:1126-1128 | deleting one document takes its own pair and no other |
| `Paths.GetNode` | src/vfs.py:1320-1354 | resolves a path segment by segment through live nodes: what it finds is at that path, and when it finds nothing nothing is |
| `Paths.PathToOnce` | src/vfs.py:1320-1354 | under the unique index a path leads to one node |
| `Paths.PathIsNames` | src/vfs.py:1320-1354 | a node's path is the names on its parent chain, and the chain is live |
| `Paths.NamesArePath` | src/vfs.py:1320-1354 | a node whose whole chain is live is found at the path its names spell |
| `Paths.AncestorsOf` | src/vfs.py:1720-1756 | places a node exactly when its parent chain reaches this root, with the right path and the nearest trashed ancestor; ends on any graph |
| `Subtree.SubtreeOf` | src/vfs.py:1889-1906 | the node and each descendant exactly once, parents first, on any parent graph |
| `TrashView.ListTrash` | src/vfs.py:1758-1790 | exactly the trashed nodes whose ancestors are live and lead to this root, each once, each with its place |
| `TrashView.HiddenIsListedOnce` | src/vfs.py:1758-1790 | for a hidden node exactly one node on its chain is in the trash list: the topmost trashed one |
| `TrashView.VisibleResolves` | src/vfs.py:1320-1354 | a node with a live chain resolves at exactly one path, and nothing on its chain is in the trash list |
| `TrashView.HiddenHasNoPath` | src/vfs.py:1320-1354 | a node below something trashed resolves at no path |
| `TrashView.EpochIsNotListed` | src/vfs.py:108-122 | a topmost trashed node is listed if and only if its trash time is positive |
| `Search.EntriesOf` | src/vfs.py:1442-1482 | lists exactly the live children, and does so exactly when the tag covers all children and every trashed one carries its own |
| `Search.ScanDir` | src/vfs.py:1516-1540 | one directory's entries up to the ceiling that is hit, or all of them |
| `Search.SearchTree` | src/vfs.py:1484-1542 | every hit is a live node at its path whose name matches, each once, the shallower first, never more than the limit; it says truncated if and only if there are more visible entries, or more matches, than allowed; not truncated, every match is a hit; truncated, the limit is filled or every match among the entries it was allowed is a hit; it always ends |
| `DirectoryTags.ChangeKeepsCovered` | src/vfs.py:1544-1601 | a write that turns a staged directory's children into what was staged, and leaves other directories alone, leaves every directory verifying |
| `DirectoryTags.StagingKeeps` | src/vfs.py:1544-1601 | staging changes no child and no promoted tag, so a promoted directory stays covered |
| `DirectoryTags.PromotionKeeps` | src/vfs.py:1595-1601 | promoting the tag of the children there are keeps every directory covered and promotes that one |
| `DirectoryTags.StagingCoversExactly` | src/vfs.py:1576-1593 | after staging, a directory verifies if and only if its promoted tag matched already or the staged listing is the present one |
| `DirectoryTags.StagingAfterDeathUncovers` | src/vfs.py:1576-1593 | an operation died between change and promotion: the next staging leaves a listing neither tag covers |
| `Structure.PutShape` | src/vfs.py:1603-1626 | a document that fits keeps the whole tree signed, uniquely named, and hung below directories |
| `Structure.PutHangs` | src/vfs.py:2108-2143 | putting a node under a directory that is not below it cuts nothing off from the root |
| `Structure.BelowMeansPrefix` | src/vfs.py:2059-2072 | a place below a node has a path that continues the node's own: the prefix check `rename` makes is the right one |
| `Structure.PathKept` | src/vfs.py:1320-1354 | a path that does not lead through the changed node still leads where it led |
| `Operations.EnterStep` | src/vfs.py:1618-1626 | stage, then insert or rename in one directory: both databases are well shaped with every directory verifying |
| `Operations.EnterDone` | src/vfs.py:1618-1626 | with the promotion, the directory's new listing is signed and nothing pending, and every promoted directory still is |
| `Operations.MoveCovered` | src/vfs.py:2117-2146 | a move between two staged directories leaves every directory verifying, both ends by their pending tags |
| `Operations.PruneCovered` | src/vfs.py:1998-2003 | after any number of a purge's deletions, no directory still present has lost a child its tag covers |
| `Operations.PruneDone` | src/vfs.py:1980-2005 | an uncancelled purge leaves everything but the subtree, its directory's listing signed, nothing else cut off from the root |
| `Vfs.DiscordVfs.StageEntries` | src/vfs.py:1544-1601 | refuses exactly a directory that is not there or does not verify, and otherwise parks the tag over what the children are about to be, in one write; the directory then verifies exactly if its promoted tag matches or the staged listing is the present one |
| `Vfs.DiscordVfs.MakeDir` | src/vfs.py:1603-1626 | the directory is at its path, its parent's listing signed, everything else where it was; it succeeds exactly when the path is free and its parent a directory, and each error comes exactly when its cause; verifies after every write |
| `Vfs.DiscordVfs.AddChild` | src/vfs.py:2334-2361 | the same for a new file |
| `Vfs.DiscordVfs.SetTrashed` | src/vfs.py:1683-1716 | trash state and the tag over it move in one write, the version cache with them |
| `Vfs.DiscordVfs.Trash` | src/vfs.py:1670-1681 | what is trashed no longer resolves, and is itself in the trash list |
| `Vfs.DiscordVfs.Restore` | src/vfs.py:1806-1887 | brings a node back where it was under each conflict policy, with what it changes and what it keeps spelled out, and each refusal exactly when its cause |
| `VfsFacts.FreeName` | src/vfs.py:1792-1804 | the first suffix from 2 to 999 under which no live child exists, or none |
| `VfsFacts.CandidateKeeps` | src/vfs.py:1794-1798 | the suffixed name has the stem, the number asked for in parentheses, and the extension from the last dot on |
| `VfsFacts.CandidatesDiffer` | src/vfs.py:1797-1798 | different numbers give different names |
| `Vfs.DiscordVfs.TrashThenRestore` | src/vfs.py:1683-1716 | trashing and restoring gives back the identical database |
| `Vfs.DiscordVfs.Purge` | src/vfs.py:1929-2005 | destroys exactly the subtree: its attachments are asked for one by one, parents first, and only when all have been are the documents deleted, parents first; cancelled, exactly the first so many attachments were asked for and every document is in place; nothing else goes, and without a refusal everything below does; verifies after every write |
| `Attachments.ListIsBelow` | src/vfs.py:1980-1996 | what a purge asks Discord to delete is exactly what the files at and below the node reference |
| `Vfs.DiscordVfs.Rename` | src/vfs.py:2040-2146 | it succeeds exactly when the node is there, the target is not below it, the target's parent is a directory, and the target is free or to be overwritten and without live children; each error exactly when its cause, in the order the code checks; then the node is at the new path with its content, the old path leads nowhere, the occupant is destroyed with all below it and its attachments, and nothing else has changed or come loose from the root; verifies after every write |
| `VfsFacts.TargetIsApart` | src/vfs.py:2073-2108 | the occupant an overwriting rename may destroy is nothing the moved node, its directory or the target directory hangs from |
| `Vfs.DiscordVfs.Open` | src/vfs.py:2148-2177 | it succeeds exactly on a file that is there and not to be created exclusively, or on a free path to be created in a directory that is there; each refusal exactly when its cause; the handle gets the stored document, of the file there, of the new one, or of a detached one beside it |
| `Vfs.DiscordVfs.BeginOverwrite` | src/vfs.py:2179-2230 | one write: an empty signed node in no directory |
| `Vfs.DiscordVfs.FinishOverwrite` | src/vfs.py:2232-2280 | trash the occupant, stage, attach, promote, write by write, as far as the database takes them; refuses a directory in the way and changes nothing then |
| `Vfs.DiscordVfs.OverwriteFile` | src/vfs.py:2179-2280 | whichever write of the close fails, in every database of an overwriting open the old file is whole at its path or whole in the trash list, no directory holds the new one before it is whole, and no earlier attachment is deleted; every directory verifies in all of them but the one between a failed promotion's re-staging and the deletion |
| `Vfs.DiscordVfs.CloseBlocked` | src/vfs.py:1040-1054 | a directory took the name meanwhile: the close refuses, the incoming node goes and nothing else changes |
| `OverwriteFacts.DuringSwap` | src/vfs.py:2232-2280 | each database of the swap, and of its unwinding, is of that kind |
| `Vfs.DiscordVfs.Rollback` | src/vfs.py:839-905 | a created file leaves the directory its handle believes it is in, write by write; every database of the run verifies if and only if the handle was right or the document stayed |
| `RollbackFacts.UnwindingVerifiesExactly` | src/vfs.py:846-897 | every directory verifies up to the deletion of the document, and from then on if and only if the pair staged for removal is the stored one or nothing lists the file |
| `RollbackFacts.RenamedMeanwhileUncovers` | src/vfs.py:846-897 | made in one directory, renamed into another, given up: the second directory's tag goes on covering a file that is gone |
| `RollbackFacts.FailedPromotionCovers` | src/vfs.py:846-897 | unwinding an attach whose promotion failed: the directory does not verify from the re-staging until the document is deleted, and then does again |
| `TagProtocol.StepKeeps` | src/vfs.py:1544-1601 | every database call of every task, the three of `_stage_entries` each on its own, and every death keep the invariant of the directory tags |
| `TagProtocol.DraftStaysRight` | src/vfs.py:1570-1593 | between its reads of a locked directory and its write, the tags a task has read are still the stored ones and the tag it computed is still the one to stage, or the directory has gone |
| `TagProtocol.PlanListing` | src/vfs.py:1570-1601 | an operation's change turns what each staged directory holds into what was staged, and touches no other's children |
| `TagProtocol.RunCovers` | src/vfs.py:165-223 | any number of interleaved tasks, none dying between change and promotion: every present directory verifies at every moment, and every one nobody is changing is promoted |
| `SoloRuns.AloneItCompletes` | src/vfs.py:1544-1601 | a task left alone, its directories free and verifying, can take its steps to the end, and leaves its change made, its directories signed for what they hold, and every lock given back |
| `SoloRuns.AloneItPurges` | src/vfs.py:1979-2003 | so can a purge, which leaves everything it collected deleted and its directory signed for the rest |
| `TagProtocol.InvCovers` | src/vfs.py:1570-1601 | whoever died where, every directory verifies outside the window in which a half-done one has been staged again |
| `TagProtocol.ExposedExactly` | src/vfs.py:1576-1593 | in that window it verifies if and only if the old or the staged tag happens to match |
| `TagProtocol.PromotionHeals` | src/vfs.py:1595-1601 | the first operation completed in a half-done directory, or in a lost one a tag still matches, heals it |
| `TagProtocol.LostForGood` | src/vfs.py:1576-1593 | along every run, a directory neither tag matches and nobody has already checked stays unverifiable until its document is deleted |
| `TagProtocol.DeathInWindow` | src/vfs.py:1576-1593 | dying after staging over a half-done predecessor leaves such a directory, unless its old tag or the staged one happens to match |
| `TagProtocol.ReadsStayTrue` | src/vfs.py:1968-2003 | what `makedir`, `_create_file` and `_finish_overwrite` go by is still so when they make their change; for `rename`, `restore`, `purge` and `_rollback`, which read the node before their lock or not at all, it is from the moment it was so when they listed the directory |
| `TagProtocol.RemovalCoversExactly` | src/vfs.py:1968-2003 | after a `purge` or a `_rollback` has deleted the node by the pair it knows, promoted or not, every directory verifies if and only if that pair is the stored one or nothing lists the node |
| `TagProtocol.RestoredMeanwhileUncovers` | src/vfs.py:1968-2003 | the failing run: `purge` reads a trashed node, `restore` renames it in the same directory and completes, and the purge leaves that directory unverifiable though nobody died |
| `TagProtocol.MoveCoversExactly` | src/vfs.py:2057-2141 | after a completed `rename` or renaming `restore` by the parent and name it read, every directory verifies if and only if they are the stored ones or nothing lists the node |
| `TagProtocol.CollectedCoversExactly` | src/vfs.py:1979-2001 | a document a purge collected and deletes leaves a directory nobody is working in verifying if and only if it has not been moved there |
| `TagProtocol.MovedMeanwhileUncovers` | src/vfs.py:1979-2001 | the failing run: a `rename` that staged before the purge reached it carries a collected file into another directory, where the purge deletes it |
| `TagProtocol.WithdrawElsewhereUncovers` | src/vfs.py:846-897 | deleting a file by a pair from another directory leaves the one it is in unverifiable |
| `DirLocks.MutualExclusion` | src/vfs.py:165-223 | no directory is held by two tasks, though its lock object is dropped and made again |
| `DirLocks.UsersAreCounted` | src/vfs.py:226-229 | `users` is the tasks holding the directory plus the tasks queued for it |
| `DirLocks.RegistryIsExact` | src/vfs.py:226-229 | a directory is registered exactly while somebody holds it or waits for it |
| `DirLocks.NoCycle` | src/vfs.py:196-223 | if nested calls name only directories already held, no tasks wait for each other in a circle |
| `DirLocks.SomeoneCanMove` | src/vfs.py:196-223 | whenever a task waits, some task can move |
| `DirLocks.QueuedLine` | src/vfs.py:202-209 | a task that has to wait for a directory joins the end of its line, and no other line changes |
| `DirLocks.ResumedLine` | src/vfs.py:208-215 | a task that takes a directory out of its line was the first in it |
| `DirLocks.TookNowKeeps` | src/vfs.py:202-215 | taking a free lock keeps the invariant |
| `DirLocks.ResumedKeeps` | src/vfs.py:208-215 | a woken waiter, always the head of the queue, claims the lock and keeps the invariant |
| `DirLocks.UnqueuedKeeps` | src/vfs.py:209-213 | a cancelled waiter leaves queue and count, waking the next head, and keeps the invariant |
| `DirLocks.ReleasedKeeps` | src/vfs.py:217-223 | a release hands on to the head of the queue or forgets the lock, and keeps the invariant |
| `DirLocks.LockTable.Enter` | src/vfs.py:196-198 | wants what is not held already, in sorted order |
| `DirLocks.LockTable.TakeNext` | src/vfs.py:202-215 | one turn of the acquiring loop: count first, then hold the directory, or join the end of its line |
| `DirLocks.LockTable.Unwind` | src/vfs.py:209-223 | a cancelled wait gives back everything the call had taken |
| `DirLocks.LockTable.Exit` | src/vfs.py:217-223 | the end of a call gives back exactly what it took, from nobody else anything |
| `SqlFilter.Where` | src/sqlitedb.py:163-172 | the loop over a filter builds the clause of its tests, and refuses exactly what does not compile |
| `SqlFilter.OperatorClause` | src/sqlitedb.py:127-160 | the loop over operators builds the clause of their tests |
| `SqlFilter.CompilesExactly` | src/sqlitedb.py:51-172 | a filter is refused exactly when a field is no plain name, one final newline aside, or something it asks is not modelled |
| `SqlFilter.ClauseReads` | src/sqlitedb.py:163-172 | SQL, with AND binding tighter than OR, reads the joined clause as the conjunction of its tests, each with its own parameters |
| `SqlFilter.ClauseMeans` | src/sqlitedb.py:99-172 | the clause is true, not merely not false, exactly when each of its tests is |
| `SqlFilter.TestExact` | src/sqlitedb.py:99-160 | one test agrees with the filter exactly when it does not set a boolean against the number it extracts to; stated for MongoDB's typed equality and for Python's |
| `SqlFilter.WhereIsExact` | src/sqlitedb.py:99-172 | where no field the filter asks about holds a list, an object or such a clash, the clause selects exactly the documents the filter matches, missing fields included, whatever else they hold |
| `SqlFilter.ColumnsDoNotMatter` | src/sqlitedb.py:90-96 | which generated columns exist changes no answer and no refusal |
| `SqlMeaning.RangesSelect` | src/sqlitedb.py:53-160 | a document is selected by `$gt`, `$gte`, `$lt`, `$lte` of a number exactly when its field is a number on that side of it |
| `SqlMeaning.RangesRead` | src/sqlitedb.py:53-160 | and each is written with its own sign, guarded by the type of the field |
| `SqlMeaning.EqualitiesSelect` | src/sqlitedb.py:99-124 | which documents equality with null, a boolean, a string and a number selects |
| `SqlMeaning.EqualitiesRead` | src/sqlitedb.py:99-124 | the text and the parameter each equality becomes |
| `SqlMeaning.InequalitiesSelect` | src/sqlitedb.py:127-141 | `$ne` selects what is not equal, a missing field included; against null, what is there |
| `SqlMeaning.InequalitiesRead` | src/sqlitedb.py:127-141 | the text and the parameter `$ne` becomes |
| `SqlInline.InlineText` | src/sqlitedb.py:194-209 | the split-and-weave loop, and exactly what it refuses |
| `SqlInline.InlineMeansTheSame` | src/sqlitedb.py:194-209 | on any clause the translation builds, the inlined text is the same clause with the literals in place, and selects the same documents |
| `SqlInline.LiteralReadsBack` | src/sqlitedb.py:175-191 | a quoted string is read back as itself and ends where it was meant to, whatever it holds |
| `SqliteCollection.Collection.EnsureColumn` | src/sqlitedb.py:284-303 | adds a column for a plain field name; refuses any other, and one the table already has in another case |
| `SqliteCollection.Collection.FetchOne` | src/sqlitedb.py:326-330 | the first matching row in insertion order |
| `SqliteCollection.Collection.Find` | src/sqlitedb.py:339-353 | the documents of the matching rows, each row once, in row order |
| `SqliteCollection.Collection.InsertOne` | src/sqlitedb.py:355-365 | appends the document under its own `_id`, or under a new one it is given; refuses one that is there |
| `SqliteCollection.Collection.UpdateOne` | src/sqlitedb.py:367-407 | changes the first match and nothing else; writes nothing when Python sees no difference; each refusal exactly when its cause |
| `SqliteCollection.StoredExactly` | src/sqlitedb.py:398-404 | an update is stored as asked unless it changes something and every field it changes is set to a value Python takes for the old one |
| `SqliteCollection.SwapIsBoolForNumber` | src/sqlitedb.py:398-404 | outside lists and objects that is true for 1, false for 0, or the reverse |
| `SqliteCollection.TrueToOneIsLost` | src/sqlitedb.py:398-404 | a field that is true, set to 1, stays true |
| `SqliteCollection.Collection.ReplaceOne` | src/sqlitedb.py:409-421 | replaces the first match under its stored `_id`, or inserts on upsert; each refusal exactly when its cause |
| `SqliteCollection.Collection.DeleteOne` | src/sqlitedb.py:423-429 | deletes the first match and nothing else |
| `LoginGuard.TwentyEightTakeAnHour` | src/webauth.py:98-143 | twenty-eight failures from one address, each let through by `check`, span more than 3600 seconds, whatever devices and successes lie between |
| `LoginGuard.LeastSpanIsReached` | src/webauth.py:98-143 | for every n a run of n failures takes no longer than the bound: twenty-seven fit in 2730 seconds |
| `LoginGuard.NextFailure` | src/webauth.py:98-126 | from one let-through failure to the next the lockout has been sat out or an hour has passed |
| `LoginGuard.EventKeeps` | src/webauth.py:111-143 | no event lowers or forgets a counter within the hour, but a success clears its own pair |
| `LoginGuard.FiveFailuresBlock` | src/webauth.py:98-126 | five failures of one browser at one address, each within an hour of the one before and no success between, keep it out for thirty seconds, further ones for longer, up to fifteen minutes |
| `LoginGuard.SuccessLetsPass` | src/webauth.py:98-136 | after a success and until five failures more, only its address can keep a browser out |
| `LoginGuard.LockoutsAreExact` | src/webauth.py:111-126 | in any run a browser is locked out from its fifth failure and an address from its twentieth, and exactly for the penalty from the last failure on |
| `LoginGuard.PenaltyDoubles` | src/webauth.py:120-122 | thirty seconds, doubled with every failure past the threshold, fifteen minutes at the most |
| `LoginGuard.PairsShared` | src/webauth.py:90-93 | attempts share a counter exactly when address and device agree, no device counting as the device "-" |
| `LoginGuard.LoginGuard.TryCheck` | src/webauth.py:98-109 | lets through exactly when neither key blocks; the announced wait is enough, and a second less would not be; forgets exactly the counters quiet for an hour and no longer locked |
| `LoginGuard.LoginGuard.RecordFailure` | src/webauth.py:111-126 | both counters, with penalty and cap |
| `LoginGuard.LoginGuard.RecordSuccess` | src/webauth.py:128-136 | clears the pair and never an address |
| `LoginGuard.LoginGuard.ForgetStale` | src/webauth.py:138-143 | drops exactly the counters quiet for an hour and no longer locked |
| `RateLimiter.GrantsStayWithinBudget` | src/ratelimit.py:72-103 | between two updates of a bucket with its window open, the grants over all its routes never exceed the reported count, and the remaining count is that less the grants |
| `RateLimiter.ReportedBudgetHolds` | src/ratelimit.py:86-124 | after a response that allows a bucket so many calls for so many seconds, all routes together make no more in that window |
| `RateLimiter.NoGrantDuringPause` | src/ratelimit.py:72-103 | nothing is granted before the end of any pause set earlier |
| `RateLimiter.PauseNeverMovesBack` | src/ratelimit.py:126-140 | the pause end never moves back |
| `RateLimiter.RefusalIsHeeded` | src/ratelimit.py:72-140 | a global refusal's retry time is kept by every route |
| `RateLimiter.DelayMeans` | src/ratelimit.py:72-84 | a route may be used exactly when no pause is on and its bucket, if known, has something left or has been refilled |
| `RateLimiter.DelayIsLeast` | src/ratelimit.py:72-84 | no wait shorter than the announced one would do |
| `RateLimiter.RateLimiter.TryAcquire` | src/ratelimit.py:86-102 | the section under the lock: grant and spend, or say how long to wait |
| `RateLimiter.RateLimiter.Acquire` | src/ratelimit.py:86-103 | alone, a caller goes ahead as soon as its own delay is over |
| `RateLimiter.RateLimiter.Update` | src/ratelimit.py:105-124 | count, reset time and route as the headers give them, a count that does not parse leaving the reset alone, and nothing else |
| `RateLimiter.RateLimiter.Note429` | src/ratelimit.py:126-140 | only a global limit pauses, and only forward |

## Left out

- FileHandle.DiscordFile.WriteAt: two handles with unflushed writes to one file at once are not covered; the last writer wins in the code, with no lock on the file. A rename lands between two calls on a handle, not inside one; `TagProtocol` interleaves those.
- Vfs.DiscordVfs.StageEntries: the lock-held check at its head is not in this class; `TagProtocol` makes holding the lock a condition of staging.
- Vfs.DiscordVfs.Restore: names are compared as stored, without Unicode normalisation of the suffixed candidate.
- Search.SearchTree: each listing is one snapshot of a database that does not change during the walk, and the casefolded comparison is a parameter.
- SqlFilter.WhereIsExact: numbers are reals, so integers beyond 64 bits, infinities and NaN are not modelled, nor is a test of a field that holds a list or an object.
- SqlInline.InlineMeansTheSame: how `repr` writes a number is a parameter.
- LoginGuard.TwentyEightTakeAnHour: the queue and the semaphore around key derivations are not modelled.
- RateLimiter.GrantsStayWithinBudget: the concurrency semaphore, route keys and header spelling are not modelled.
- Verification of tags on reading: in the states considered every document is signed, so the check never fires; what tampering does to a reader is not modelled beyond the injectivity of the tags.
- Timestamps, permissions, tag versions, sizes reported to clients, failure tallies other than the stale flag, and the order of the trash list.
- `remove`, `removedir`, `purge_cost`, `purge_expired`, `sweep_incoming`, `ensure_root`, `truncate` by path and metadata updates: easy beside the operations modelled.
- HTTP and SFTP surfaces, sessions, accounts, key wrapping, jobs, configuration and the Discord client's transport.
- Tree acyclicity when renames race: `Rename` is one uninterrupted operation in `Vfs`, and in `TagProtocol` only the entry tags are at stake.
- Index creation and its uniqueness beyond a write being refused.
