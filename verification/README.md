# OrangeFS: consistency check, wire format and access checks

A Dafny model of three parts of OrangeFS, with proofs.

**The consistency checker** (`src/apps/admin/pvfs2-fsck.c`). The servers report which handles they store; four
passes walk the directory tree, collect orphaned sub-trees, move what can be saved to lost+found and remove the rest.
The file system is a map from handles to objects. `FsckModel` and `FsckPasses` say what the program does to it as
functions on a state: the two handle lists, the file system, the counters, and records of what happened (`log`,
`walked`, `links`, `kept`). `FsckEngine` is the program itself, on arrays changed in place, and is proved to do just
that. All theorems about whole runs are about arbitrary file systems, cyclic graphs included, unless they say otherwise.

- `FsckLinks`, `FsckTurns`, `FsckRun`: one reference for every handle, no directory walked twice, the whole run.
- `FsckIntact`, `FsckPassOne`: nothing is left dangling when no cycle can be reached, and pass 1 does not abort then.
- `FsckCycles`, `FsckOrder`, `FsckReach`: what happens on cycles, and that something dangles exactly when a cycle can be
  reached.
- `FsckVisits`, `FsckFate`, `FsckSalvage`, `FsckHealthy`: which entries and objects are left when the run ends, what gets
  a name in lost+found, and that a consistent file system is left alone.
- `FsckOwners`, `FsckOwnersRun`, `FsckRunOwners`, `FsckRescue`, `FsckWalkRescue`, `FsckRunRescue`: which files have their
  datafiles, and have them alone.
- `FsckLedger`, `FsckAccounts`: where the handles go; the books balance.
- `FsckFrame`, `FsckCapacity`, `FsckDryRun`: pacing of removals, list capacity, dry runs.
- `FsckExamples`: three runs in which the program falls short, for all file systems of a certain shape.

**The wire format** (`src/proto`). `Wire` says which byte an encoder writes where, and which bytes it leaves as they
were. `WireCodec` has the writer and the readers of the basic field types; `WireSecurity`, `WireAttr`, `WireSmallIo` the
larger structures; `WireMessages` and `WireProtocol` the table of requests and responses with one decoder for all of
them; `WireBytes`, `WireAttrBytes` and `WireRows` say at which offset each field of these lies, from the declarations of
the header and without the encoder's plan; `WireSizes` and `WireMaxSizes` the buffer sizes computed in advance. A reader takes, besides the buffer, ghost
arguments that say what was encoded; its contract is that it gives that back and stops where the next field begins.

**Access checks** (`src/server/check.c`). `Acl` is the scan of an ACL, `AclPosix` relates it to the access check
algorithm of section 23.1.5 of POSIX 1003.1e draft 17, `Capabilities` is the capability mask.

## What turned out not to hold

- `match_dirdata` and `verify_datafiles` look handles up in one loop and remove them in another. For a handle on the
  second list the removal uses the server index the loop happened to end with (lines 646-665 and 907-926 of the file), so a
  handle can stay on the list although the check succeeded. `ClaimIff` says exactly when all handles are removed. It
  always works with one list, that is in pass 1 (`ClaimSingle`), and when all handles are on one server
  (`SameHomeInStep`).
  - A file claimed in pass 2 or 3 that shares no datafile has all of them when the run ends exactly when they are in step
    at its claim (`WalkRescueIff`, `FillRescueIff`; `RescuedFileLosesDatafile` is a run in which they are not). A kept file
    always has them if pass 1 kept it or they are on one server (`RunKeepsDatafiles`).
  - A file claimed in step shares no datafile with a file kept after it (`WalkClaimOwns`, `FillClaimOwns`). Two kept files
    share none, in whatever order they are kept, if pass 1 kept one of them or each is on one server (`RunOwners`). One
    file on one server is not enough (`SharedDatafileRescuedTwice`).
- An entry for a directory that is being walked and is still listed, that is for any ancestor but the root, makes pass 1
  remove that directory (`BackEdgeIff`); an entry for the root is removed instead. The entry through which the directory
  was reached stays, so pass 1 leaves an entry without an object exactly when a walked directory is gone
  (`PassOneDangling`), and exactly when the directories it walked contain a cycle that avoids the root (`CycleIff`). If
  dirdata belongs to one directory each, these are the directories that can be reached through whole ones (`ReachIff`).
  `CycleLeavesDanglingEntry` is such a run. `PassOneIntact` and `RunIntact` ask that no such cycle can be reached from
  the root; cycles among orphans do not matter.
- Pass 3 makes an entry in lost+found for an orphaned directory even when it has just removed the directory because its
  dirdata is incomplete, so the entry names nothing. `DirectoryTurn` says exactly when the entry is made, when the
  directory is left, and when the program stops: for a removed directory whose name is taken.
- Pass 3 drops an orphaned symlink from the lists and neither names nor removes it (`OtherTurn`).
- With -s N the first prompt comes in front of removal number max(1, N), every later one after max(1, N) further removals:
  the removal a prompt was made for is not counted again (`RunPrompts`).
- `encode_string` does not write a terminator for an empty string, and `decode_string` points at the byte where it
  would be. An empty string comes back exactly when that byte was zero before; `Tidy` says so for a whole message and
  all decoders give an if-and-only-if.
- `align8` looks at the address. An encoding depends on it only modulo eight (`SameAlignment`), and at any two addresses
  that differ modulo eight some bytes are two different capabilities (`Misaligned`).
- A request with operation PROTO_ERROR can be encoded but not decoded.
- `check_acls` is the POSIX check when owner, named users, groups, mask and others come in this order and none but groups
  comes twice (`RegularIsPosix`). Each part of that is needed (`UserBeforeOwner`, `GroupBeforeUser`, `MaskTooEarly`,
  `OtherBeforeUser`, `UserTwice`); with the mask too early it can grant read and write together and refuse read alone.
- A refusal by `check_acls` is EINVAL, not EACCES, when the user's groups are named and none holds the bits, or when no
  entry applies at all (`RegularRefusal`).

## How the source is represented

- Server calls act on the map: `PVFS_sys_getattr` finds readable objects, `PVFS_mgmt_remove_object` and
  `PVFS_mgmt_remove_dirent` succeed when the object, or the directory with that entry, exists. A failed `assert`, a
  NULL list and the answer N stop the program (`halted`). Answers to prompts are a function of the prompt's number.
- A directory is read as a snapshot when its walk starts.
- The datafile and dirdata arrays of an object are part of it; a directory whose dirdata cannot be fetched has none.
- Integers are unbounded. On the wire their widths are explicit; a signed field is given by its two's complement value.
- Byte order is that of the wire; `htobmi` and `bmitoh` do nothing on a little-endian host.
- Hints, distributions, file requests and layouts have codecs of their own; they are blocks of bytes of known length.
- A bit mask is a number on the wire and the set of its bits in the access checks.

Standing assumptions, named where they are used: at least one server; the null handle is not listed; each listed handle
exists and is listed once (`Start`); a directory with dirdata has at least one dirdata handle (`Sound`). Nobody else
changes the file system during a run. The program ensures that by admin mode in passes 1 and 2 only: it leaves admin mode
before pass 3 (lines 201-209 of the file), so for passes 3 and 4 this is an assumption of every theorem about whole runs.

## Model

| member | source | states |
|---|---|---|
| `HandleLists.SwapRemoveTakesOne` | src/apps/admin/pvfs2-fsck.c:1527-1556 | removal takes exactly one occurrence from the multiset, and nothing when the handle is absent |
| `HandleLists.RemoveAtCount` | src/apps/admin/pvfs2-fsck.c:1527-1556 | removing a handle from one server's list changes the number of occurrences of that handle only, by one at most |
| `HandleLists.PopCount` | src/apps/admin/pvfs2-fsck.c:1565-1581 | returning a handle takes exactly that occurrence off the lists |
| `HandleListArrays.HandleList.constructor` | src/apps/admin/pvfs2-fsck.c:1340-1393 | empty lists with the declared capacities |
| `HandleListArrays.HandleList.AddHandle` | src/apps/admin/pvfs2-fsck.c:1424-1441 | the handle is appended to one server's list and nothing else changes |
| `HandleListArrays.HandleList.AddHandles` | src/apps/admin/pvfs2-fsck.c:1400-1422 | a batch is appended in order |
| `HandleListArrays.HandleList.FindHandle` | src/apps/admin/pvfs2-fsck.c:1463-1481 | the first server whose list holds the handle, or none |
| `HandleListArrays.HandleList.RemoveHandle` | src/apps/admin/pvfs2-fsck.c:1527-1556 | the arrays hold the lists after swap-with-last removal, and the closing assert holds |
| `HandleListArrays.HandleList.ReturnHandle` | src/apps/admin/pvfs2-fsck.c:1565-1581 | the last handle of the first non-empty list is popped; none is returned only when all lists are empty |
| `FsckModel.ProbeComplete` | src/apps/admin/pvfs2-fsck.c:616-644 | the first loop misses nothing exactly when every handle is on a list, and ends with the server of the last handle |
| `FsckModel.ClaimShrinks` | src/apps/admin/pvfs2-fsck.c:855-930 | claiming datafiles only takes handles off the lists |
| `FsckModel.MatchShrinks` | src/apps/admin/pvfs2-fsck.c:589-670 | a successful match takes at least one handle off the lists, so a walk ends |
| `FsckModel.Descend` | src/apps/admin/pvfs2-fsck.c:672-846 | a walk ends on every finite graph, cyclic ones included, and only shrinks the lists and the file system; which entries and objects it leaves is stated by `FsckVisits.VisitSettles`, `FsckFate.PassOneDecides` and `FsckHealthy.PassOneLeavesAlone` |
| `FsckEngine.Fsck.Ask` | src/apps/admin/pvfs2-fsck.c:1746-1790 | counts a removal and asks when it is due, as the model does; `FsckRun.RunPrompts` states when that is and that an N ends the run |
| `FsckEngine.Fsck.RemoveDirectoryEntry` | src/apps/admin/pvfs2-fsck.c:1267-1298 | counts, asks, removes the entry; nothing is removed in a dry run |
| `FsckEngine.Fsck.RemoveOneObject` | src/apps/admin/pvfs2-fsck.c:1300-1331 | counts, asks, removes the object; nothing is removed in a dry run |
| `FsckEngine.Fsck.ProbeHandles` | src/apps/admin/pvfs2-fsck.c:616-644 | the first loop over the arrays is the model's probe |
| `FsckEngine.Fsck.DrainHandles` | src/apps/admin/pvfs2-fsck.c:646-665 | the second loop, with the index it inherits, is the model's drain |
| `FsckEngine.Fsck.ClaimHandles` | src/apps/admin/pvfs2-fsck.c:855-930 | both loops together |
| `FsckEngine.Fsck.DescendInto` | src/apps/admin/pvfs2-fsck.c:672-846 | the recursive walk on arrays ends in the state the model gives; `FsckFate.PassOneDecides` and `FsckFate.RunDecides` state which entries and files that state has |
| `FsckEngine.Fsck.TraverseDirectoryTree` | src/apps/admin/pvfs2-fsck.c:541-587 | pass 1 on arrays is pass 1 of the model |
| `FsckEngine.Fsck.FindSubTrees` | src/apps/admin/pvfs2-fsck.c:932-1013 | pass 2 on arrays is pass 2 of the model, and its second list never overflows |
| `FsckEngine.Fsck.CreateEntry` | src/apps/admin/pvfs2-fsck.c:1238-1265 | the entry is made unless the directory is missing or has the name |
| `FsckEngine.Fsck.FillLostAndFound` | src/apps/admin/pvfs2-fsck.c:1016-1135 | pass 3 on arrays is pass 3 of the model, and its second list never overflows; `FsckSalvage.FileTurn`, `FsckSalvage.DirectoryTurn` and `FsckSalvage.OtherTurn` state what each turn leaves |
| `FsckEngine.Fsck.CullLeftovers` | src/apps/admin/pvfs2-fsck.c:1137-1180 | pass 4 on arrays is pass 4 of the model |
| `FsckEngine.Fsck.Run` | src/apps/admin/pvfs2-fsck.c:163-229 | the program's file system, log, counters and outcome are those of the model's run |
| `FsckCapacity.SortOutFits` | src/apps/admin/pvfs2-fsck.c:943-1010 | used entries of both lists together stay within each server's declared size through pass 2, so adding never overflows |
| `FsckCapacity.SalvageFits` | src/apps/admin/pvfs2-fsck.c:1028-1132 | the same through pass 3 |
| `FsckFrame.WindowBound` | src/apps/admin/pvfs2-fsck.c:1746-1790 | in a paced log no stretch without a prompt has more than max(1, N) removals |
| `FsckFrame.DescendFramed` | src/apps/admin/pvfs2-fsck.c:672-846 | a walk removes only listed objects, keeps the pace, leaves in place only files that had all their datafiles, and changes nothing in a dry run |
| `FsckLinks.ShutFails` | src/apps/admin/pvfs2-fsck.c:772-803 | a directory whose dirdata is gone from the lists is never entered again |
| `FsckLinks.DescendInv` | src/apps/admin/pvfs2-fsck.c:672-846 | a walk keeps the invariant: kept entries have distinct, unlisted targets, no directory is walked twice, every remaining entry of a walked directory is a kept one |
| `FsckLinks.DescendBacked` | src/apps/admin/pvfs2-fsck.c:672-846 | every listed handle still has its object after a walk |
| `FsckIntact.ClaimSingle` | src/apps/admin/pvfs2-fsck.c:589-670 | with one list a complete claim takes every handle off it, and never meets the NULL list when handles are distinct |
| `FsckIntact.DescendGood` | src/apps/admin/pvfs2-fsck.c:672-846 | below a rank order on the directories that can be reached, walks leave every kept target with all its parts and do not abort |
| `FsckPassOne.PassOneEnters` | src/apps/admin/pvfs2-fsck.c:541-587 | how pass 1 gets from the root to the walk, and when it stops before |
| `FsckPassOne.PassOneIntact` | src/apps/admin/pvfs2-fsck.c:541-930 | when no cycle can be reached from the root, after pass 1 every surviving entry of a walked directory names an existing object with all its datafiles or dirdata; with a complete root and Y answers pass 1 does not abort |
| `FsckCycles.BackEdgeIff` | src/apps/admin/pvfs2-fsck.c:772-830 | a visit that walks nothing removes a walked directory exactly when its entry names one that is being walked and still listed |
| `FsckCycles.PassOneDangling` | src/apps/admin/pvfs2-fsck.c:541-930 | on any graph, an entry pass 1 leaves names an existing object or a walked directory; a walked directory that is gone has a parent entry, still there unless the parent is gone too; something dangles exactly when a walked directory is gone |
| `FsckOrder.CycleIff` | src/apps/admin/pvfs2-fsck.c:541-930 | on any graph, pass 1 leaves an entry without an object exactly when the directories it walked contain a cycle that avoids the root |
| `FsckReach.WalkedIff` | src/apps/admin/pvfs2-fsck.c:541-930 | pass 1 walks exactly the directories that can be reached from the root through listed directories whose dirdata is all listed |
| `FsckReach.ReachIff` | src/apps/admin/pvfs2-fsck.c:541-930 | so it leaves an entry without an object exactly when those contain a cycle that avoids the root, which can be told before the run |
| `FsckOwners.DrainIff` | src/apps/admin/pvfs2-fsck.c:646-665 | the second loop takes all handles off two lists exactly when each one that is on the second list is on the server found last |
| `FsckOwners.ClaimIff` | src/apps/admin/pvfs2-fsck.c:855-930 | a successful claim leaves nothing on the lists exactly under that condition |
| `FsckOwners.SameHomeInStep` | src/apps/admin/pvfs2-fsck.c:646-665 | handles of one server always meet that condition |
| `FsckOwners.DescendOwned` | src/apps/admin/pvfs2-fsck.c:672-930 | for files kept in pass 1 and any set of files on one server each: once kept they have all their datafiles, off the lists and not shared |
| `FsckTurns.SubTreesInv` | src/apps/admin/pvfs2-fsck.c:932-1013 | pass 2 keeps the reference invariant and empties the first list |
| `FsckTurns.FillKeeps` | src/apps/admin/pvfs2-fsck.c:1016-1135 | pass 3 keeps references single and leaves no metafile or directory on the list |
| `FsckTurns.CullKeeps` | src/apps/admin/pvfs2-fsck.c:1137-1180 | pass 4 fails no assert, and removes exactly the listed objects |
| `FsckRun.OrphansUnreferenced` | src/apps/admin/pvfs2-fsck.c:541-1013 | after passes 1 and 2 on any graph no directory was walked twice and the entries left in place name different handles, none of them an orphan; after destructive ones these are all entries of walked directories |
| `FsckRun.RunSingleReferences` | src/apps/admin/pvfs2-fsck.c:163-229 | after a complete run the entries left in place and those made in lost+found name different handles; after a destructive one no handle is the target of two entries of walked directories |
| `FsckRun.RunIntact` | src/apps/admin/pvfs2-fsck.c:163-229 | when no cycle can be reached from the root, what pass 1 kept is intact when the run ends, however it ends |
| `FsckRun.RunPaced` | src/apps/admin/pvfs2-fsck.c:1267-1331 | in every destructive run with safety count N at most max(1, N) removals happen between two prompts, entries and objects together |
| `FsckRun.RunPrompts` | src/apps/admin/pvfs2-fsck.c:1746-1790 | for every event of every run: a prompt stands exactly where the removals since the last prompt reach max(1, N), counting the one in front of the first prompt; a removal stands only before that; nobody is asked without -y and -s; every prompt but the last was answered Y, and if the last was answered N the run is over and it is the last event |
| `FsckRun.LeftoversCulled` | src/apps/admin/pvfs2-fsck.c:1137-1180 | in every run that reaches pass 4 its asserts hold, and a destructive one removes exactly what pass 3 left |
| `FsckVisits.VisitSettles` | src/apps/admin/pvfs2-fsck.c:672-846 | a visit leaves the entry exactly when its handle is listed and it is a file or directory with all its parts listed, or a symlink; a listed, readable object whose entry goes is removed, any other object but a directory stays |
| `FsckFate.PassOneDecides` | src/apps/admin/pvfs2-fsck.c:541-930 | after pass 1, for every entry it came to: the entry is there exactly under that condition at the visit, and a listed file is there exactly when all its datafiles were listed |
| `FsckFate.RunDecides` | src/apps/admin/pvfs2-fsck.c:163-229 | the same when the run ends, for entries that pass 1 or pass 2 came to |
| `FsckFate.EntriesDecided` | src/apps/admin/pvfs2-fsck.c:672-846 | every entry of every directory that was walked was visited, so all of them are decided that way |
| `FsckFate.SortOutTurn` | src/apps/admin/pvfs2-fsck.c:943-1010 | what a turn of pass 2 does with an orphan of each type |
| `FsckFate.OrphansWalked` | src/apps/admin/pvfs2-fsck.c:932-1013 | what pass 2 returns are readable objects of known types, and every directory among them was walked |
| `FsckSalvage.FileTurn` | src/apps/admin/pvfs2-fsck.c:1057-1082 | an orphaned file gets the entry lostfile.<handle> if all its datafiles are listed and is removed otherwise; the program stops exactly when the entry cannot be made or an N says so |
| `FsckSalvage.DirectoryTurn` | src/apps/admin/pvfs2-fsck.c:1083-1111 | an orphaned directory gets the entry lostdir.<handle> exactly when the name is free, and is there afterwards exactly when its dirdata was all listed and the name was free; when the program stops |
| `FsckSalvage.OtherTurn` | src/apps/admin/pvfs2-fsck.c:1112-1130 | datafiles, dirdata and unreadable objects go on the list for pass 4, symlinks and unknown objects on none, and nothing is done to any of them |
| `FsckSalvage.RunNamesDirectory` | src/apps/admin/pvfs2-fsck.c:163-229 | for every turn of pass 3 on a directory: the entry and the directory are there when the run ends exactly under these conditions |
| `FsckSalvage.RunNamesFile` | src/apps/admin/pvfs2-fsck.c:163-229 | likewise for a file |
| `FsckHealthy.PassOneLeavesAlone` | src/apps/admin/pvfs2-fsck.c:541-930 | if everything in the tree is readable and listed with all its parts, and each of these handles is named by one entry or part of one object, pass 1 changes nothing, logs nothing, asks nothing and does not stop, walks the whole tree and takes all its handles off the list |
| `FsckHealthy.RunLeavesAlone` | src/apps/admin/pvfs2-fsck.c:163-229 | if besides no other handle is listed, the whole run changes nothing, logs nothing and does not stop, whatever the options |
| `FsckHealthy.OneFileConsistent` | src/apps/admin/pvfs2-fsck.c:541-587 | a root with one file is such a file system |
| `FsckRunOwners.RunKeepsDatafiles` | src/apps/admin/pvfs2-fsck.c:855-1180 | a kept file that pass 1 kept or whose datafiles are on one server has all of them when the run ends, however it ends, on any graph |
| `FsckRunOwners.RunOwners` | src/apps/admin/pvfs2-fsck.c:855-1135 | two kept files share no datafile if pass 1 kept one of them or each has its datafiles on one server, on any graph |
| `FsckRunOwners.RunExclusiveOwners` | src/apps/admin/pvfs2-fsck.c:855-1135 | the same for two files named by entries of walked directories after a complete destructive run |
| `FsckRescue.RescueIff` | src/apps/admin/pvfs2-fsck.c:1016-1180 | at any turn of pass 3 that rescues a file sharing no datafile: it has all of them after pass 4 exactly when they are in step at that claim |
| `FsckWalkRescue.ClaimFate` | src/apps/admin/pvfs2-fsck.c:745-771 | a visit that finds all datafiles of a file takes all of them off the lists exactly when they are in step; those taken exist, the others stay listed |
| `FsckWalkRescue.SubTreesCarries` | src/apps/admin/pvfs2-fsck.c:932-1013 | through pass 2 a datafile that was taken stays and goes to no other file, and one that was left behind is listed as long as it exists |
| `FsckRunRescue.AfterPassTwo` | src/apps/admin/pvfs2-fsck.c:163-229 | a datafile of a claimed file, and of no other object, exists when a destructive run ends exactly when it is not in hl_notree |
| `FsckRunRescue.WalkRescueIff` | src/apps/admin/pvfs2-fsck.c:163-229 | over whole runs: a file pass 2 claims, sharing no datafile, has all of them at the end exactly when they were in step at the claim |
| `FsckRunRescue.FillRescueIff` | src/apps/admin/pvfs2-fsck.c:163-229 | over whole runs: the same for a file pass 3 claims |
| `FsckRunRescue.WalkClaimOwns` | src/apps/admin/pvfs2-fsck.c:855-1135 | a file pass 2 claims in step shares no datafile with any file kept after it, whatever the servers |
| `FsckRunRescue.FillClaimOwns` | src/apps/admin/pvfs2-fsck.c:855-1135 | the same for a file pass 3 claims in step |
| `FsckLedger.DescendBalance` | src/apps/admin/pvfs2-fsck.c:672-930 | how often a handle was listed before a walk is how often it is listed after it plus how often the walk took it |
| `FsckLedger.WalkAccounts` | src/apps/admin/pvfs2-fsck.c:672-930 | a walk takes off the lists only what an entry of a directory it walks names, or a datafile or dirdata of what such an entry names |
| `FsckAccounts.PassTwoConserves` | src/apps/admin/pvfs2-fsck.c:932-1013 | the handles listed before pass 2 are, counted, those in hl_notree plus those taken as entries of directories pass 2 walked, as datafiles or dirdata of what these name, plus those given to remove_object because they cannot be read or have no known type |
| `FsckAccounts.PassTwoReturns` | src/apps/admin/pvfs2-fsck.c:932-1013 | what pass 2 returns was listed and is there once, even when it stops early |
| `FsckDryRun.DryRun` | src/apps/admin/pvfs2-fsck.c:932-1331 | a dry run of all four passes finishes, drains the lists and leaves the file system as it was |
| `FsckDryRun.DryRunChangesNothing` | src/apps/admin/pvfs2-fsck.c:932-1331 | every dry run leaves the file system as it was, however it ends |
| `FsckExamples.RescuedFileLosesDatafile` | src/apps/admin/pvfs2-fsck.c:907-926 | a whole run in which an orphan with datafiles on two servers is named in lost+found and then loses one of them |
| `FsckExamples.SharedDatafileRescuedTwice` | src/apps/admin/pvfs2-fsck.c:907-926 | a whole run after which two orphans that share a datafile are both named in lost+found |
| `FsckExamples.CycleLeavesDanglingEntry` | src/apps/admin/pvfs2-fsck.c:772-830 | a first pass in which a directory that its sub-directory contains is removed and the root's entry for it stays |
| `Wire.ValLe` | src/proto/endecode-funcs.h:37-62 | a number that fits comes back from its little-endian bytes |
| `Wire.SameAlignment` | include/pvfs2-encode-stubs.h:15-33 | an encoding depends on its address only through the address modulo 8 |
| `Wire.OverlayIs` | src/proto/endecode-funcs.h:93-106 | encoding sets the bytes of its fields and leaves padding and the rest of the buffer alone |
| `Wire.ReadyIs` | src/proto/endecode-funcs.h:217-1021 | standing before a message means that its layout lies ahead and ends where the message ends |
| `WireCodec.Encode` | src/proto/endecode-funcs.h:217-1021 | an encoder's macro calls in order write exactly its layout and move the cursor behind it |
| `WireCodec.GetU32` | src/proto/endecode-funcs.h:55-62 | the number encoded comes back and the cursor moves to the next field |
| `WireCodec.GetU64` | src/proto/endecode-funcs.h:37-44 | likewise for eight bytes |
| `WireCodec.GetText` | src/proto/endecode-funcs.h:129-159 | a string comes back exactly when it is not empty or its first byte happened to be zero |
| `WireCodec.GetKeyval` | src/proto/endecode-funcs.h:164-175 | a key or value comes back whole |
| `WireCodec.Align` | include/pvfs2-encode-stubs.h:15-33 | the cursor moves over the padding to a multiple of eight |
| `WireSecurity.GetWords` | src/proto/endecode-funcs.h:606-621 | a counted array of handles comes back in order |
| `WireSecurity.GetCapability` | include/pvfs2-types.h:1168-1195 | a capability comes back field by field, its issuer exactly as a string does, and the cursor is 8-aligned; `WireBytes.CapabilityBytes` states at which offset each field is read |
| `WireSecurity.GetCredential` | include/pvfs2-types.h:1197-1227 | likewise for a credential with its certificate |
| `WireBytes.CapabilityBytes` | include/pvfs2-types.h:1168-1195 | the issuer first; behind it, at a multiple of eight from there, the fs id at 0, the signature's length at 8, the signature at 12; behind that, aligned, the timeout at 0, the operation mask at 8, the number of handles at 12, the handles from 16 |
| `WireBytes.CredentialBytes` | include/pvfs2-types.h:1197-1227 | the user id at 8, the number of groups at 12, the groups from 16; aligned behind them the issuer; behind it the timeout at 0, the signature's length at 8, the signature at 12; aligned behind it the certificate's length at 4 and the certificate at 8 |
| `WireBytes.WordAt` | src/proto/endecode-funcs.h:606-621 | handle number i of an array lies 8 * i bytes behind its start |
| `WireSecurity.Misaligned` | include/pvfs2-encode-stubs.h:15-33 | for any two addresses that differ modulo eight there are bytes that are one capability to a reader at one and another to a reader at the other |
| `WireSizes.EndLayout` | src/proto/endecode-funcs.h:217-1021 | the address arithmetic gives the length of the layout |
| `WireSizes.CapabilityBound` | include/pvfs2-types.h:1191-1195 | within the limits a capability is at most the blank one plus extra_size, with equality at the limits, at every address |
| `WireSizes.CredentialBound` | include/pvfs2-types.h:1223-1227 | likewise for a credential |
| `WireAttr.GetMirror` | src/proto/pvfs2-attr.h:123-136 | the mirror array comes back, sized by the copies and the datafile count decoded before |
| `WireAttr.GetMirrorRows` | src/proto/pvfs2-attr.h:123-136 | the nested decoding loop reads handle number copy * count + i as the i-th of its copy, all in order |
| `WireAttr.PutMirrorRows` | src/proto/pvfs2-attr.h:112-122 | the nested encoding loop writes every handle once, in order |
| `WireAttr.GetAttr` | src/proto/pvfs2-attr.h:286-373 | attributes with any mask that uses one union arm, mirrors only with datafiles, come back exactly when no empty string picked up a stray byte |
| `WireAttrBytes.AttrBytes` | src/proto/pvfs2-attr.h:286-373 | owner, group and permissions at 0, 4 and 8, the times at 16, 24 and 32, the mask at 40, the type at 44; from 48 on the parts the mask says are there, each field of each part at its offset |
| `WireMessages.GetLists` | src/proto/endecode-funcs.h:622-641 | arrays that share one count come back, each complete |
| `WireMessages.GetField` | src/proto/endecode-funcs.h:37-1021 | every kind of field comes back |
| `WireMessages.GetFields` | src/proto/endecode-funcs.h:217-1021 | a list of fields comes back and exactly its bytes are consumed |
| `WireProtocol.DecodeRequest` | src/proto/PINT-le-bytefield.c:706-801 | decoding the encoding of any modelled request fails exactly for PROTO_ERROR or a wrong size, and otherwise gives the request back |
| `WireProtocol.DecodeResponse` | src/proto/PINT-le-bytefield.c:804-907 | likewise for responses; an error response is accepted whatever its size |
| `WireProtocol.RoundTrip` | src/proto/PINT-le-bytefield.c:475-579 | encode into a used buffer, deliver at the same alignment, decode: the request is back exactly when the buffer had a zero where each empty string ends |
| `WireRows.RequestFront` | src/proto/PINT-le-bytefield.c:475-579 | an encoded request has the operation at 0, the capability from 8 on, and the hint block behind it |
| `WireRows.RequestBody` | src/proto/pvfs2-req-proto.h:49-2510 | behind that lies every field the header declares for the operation, in the declared order, each with the width and form of its declared type |
| `WireRows.ResponseBytes` | src/proto/pvfs2-req-proto.h:49-2510 | an encoded response has the operation at 0, the status at 4, and if that is zero the declared fields from 8 on |
| `WireRows.EncodeRequest` | src/proto/PINT-le-bytefield.c:475-579 | after encoding a request the buffer has all of these bytes in place |
| `WireRows.EncodeResponse` | src/proto/PINT-le-bytefield.c:582-700 | likewise for a response |
| `WireProtocol.CheckHeader` | src/proto/PINT-reqproto-encode.c:154-232 | exactly which headers are accepted: length, encoding type, major version, and minor version by direction |
| `WireProtocol.Hear` | src/proto/PINT-reqproto-encode.c:181-232 | a peer's header is accepted exactly when majors agree and its minor is not higher, for a request, or not lower, for a response |
| `WireProtocol.Handshake` | src/proto/PINT-reqproto-encode.c:181-232 | a server accepts a client's request exactly when the client accepts that server's response |
| `WireSmallIo.FillTotal` | src/proto/pvfs2-req-proto.h:1642-1676 | the total is the sum of the segment sizes |
| `WireSmallIo.Gathered` | src/proto/pvfs2-req-proto.h:1601-1611 | the copies of the segments make one block, the segments in order |
| `WireSmallIo.GetSmallIo` | src/proto/pvfs2-req-proto.h:1614-1636 | a write request comes back with its segments concatenated, and exactly the bytes written are skipped |
| `WireMaxSizes.RequestFits` | src/proto/PINT-le-bytefield.c:99-390 | getattr, unstuff and lookup_path requests within the limits never exceed the size computed in advance in another buffer of the same alignment |
| `WireMaxSizes.MkdirFits` | src/proto/pvfs2-req-proto.h:1061-1065 | nor does a mkdir response |
| `WireMaxSizes.ReaddirFits` | src/proto/pvfs2-req-proto.h:1248-1256 | nor does a readdir response with 512 entries |
| `Acl.ReadStored` | include/pvfs2-types.h:669-683 | entries come back from the attribute format they are stored in |
| `Acl.CheckAcls` | src/server/check.c:362-508 | the loop with its jumps refuses malformed input and otherwise gives the verdict of the scan |
| `AclPosix.MaskedIff` | src/server/check.c:475-507 | the code at label mask grants exactly when the entry and every later mask entry hold the wanted bits |
| `AclPosix.RegularIsPosix` | src/server/check.c:362-508 | for every ACL in order, canonical ones included, every user, group list and wanted bits, access is granted exactly when the POSIX algorithm grants it |
| `AclPosix.RegularRefusal` | src/server/check.c:416-508 | on such an ACL a refusal is EINVAL exactly when the user is neither the owner nor named, no group of theirs holds the bits, and one is named or there is no entry for others; otherwise it is EACCES |
| `AclPosix.UnknownTag` | src/server/check.c:466-469 | in any list, an unknown tag gives EINVAL when no entry before it concerns the user |
| `AclPosix.RegularMonotone` | src/server/check.c:362-508 | whoever is granted a set of bits is granted every part of it |
| `AclPosix.MaskTooEarly` | src/server/check.c:416-507 | with the mask ahead of a group both fail |
| `AclPosix.UserBeforeOwner` | src/server/check.c:416-507 | with a named user ahead of the owner the owner is refused what POSIX grants |
| `AclPosix.GroupBeforeUser` | src/server/check.c:416-507 | with a group ahead of a named user the user is granted what POSIX refuses |
| `AclPosix.OtherBeforeUser` | src/server/check.c:416-507 | with others ahead of a named user likewise |
| `AclPosix.UserTwice` | src/server/check.c:416-507 | of two entries for a user only the first counts |
| `Capabilities.CheckMode` | src/server/check.c:284-355 | the owner's or the others' bit, or the group's bit for a member; an error exactly when attributes are missing |
| `Capabilities.ActiveGroup` | src/server/check.c:127-134 | the chosen group is the object's group exactly when the user is in it |
| `Capabilities.GetCapabilities` | src/server/check.c:55-173 | exactly when it fails, and exactly when each capability bit is set; on a regular ACL, for anybody but root, reading goes with the stored bit 4, writing with 2 and executing with 1, by the POSIX access check or by the mode |
| `Capabilities.EntitledIsPosix` | src/server/check.c:98-173 | the mask a user other than root gets on an object with a regular ACL is, bit by bit, what the POSIX check or the mode grants for 4, 2 and 1 |
| `Capabilities.GroupOrder` | src/server/check.c:55-173 | errors and capabilities depend on the set of groups only, for canonical and other ACLs |

## Left out

- Building the handle list from the servers (`build_handlelist`) and `create_lost_and_found`: they collect what the passes are given.
- `FsckRunOwners.RunOwners`: when the file kept first was claimed out of step, whether a later file takes what it left behind is not characterised; `FsckOwners.ClaimIff` has the exact condition for each claim.
- `FsckRunOwners.RunExclusiveOwners`: likewise.
- `FsckOrder.CycleIff`: a directory may not be a datafile or dirdata of another object.
- `FsckReach.ReachIff`: dirdata may be part of one directory only, and no entry may name it.
- `FsckPassOne.PassOneIntact`: a cycle that can be reached only through directories pass 1 does not walk, because their dirdata is incomplete, is excluded too; what dangles then is told by `FsckOrder.CycleIff`, which says nothing about parts.
- `FsckFate.RunDecides`: for lost+found itself, entries whose handle was not listed at the visit are left out; pass 3 may make such an entry again.
- `FsckSalvage.RunNamesDirectory`: lost+found must be a readable directory on no list; one that is an orphan itself may be removed later in pass 3.
- `FsckSalvage.RunNamesFile`: likewise.
- `FsckModel.Descend`: the directory token loop is a snapshot, and errors of `PVFS_sys_readdir` do not occur.
- A failure of `PVFS_mgmt_get_dfile_array`, which stops the program: the array can always be fetched here.
- The requests create, mkdir, io, mirror and mgmt_split_dirent, which carry layouts, distributions or file requests, and the small I/O request as part of the request table (it has a module of its own).
- The responses lookup_path, listattr, tree_getattr, mirror, small_io, mgmt_dspace_info_list, mgmt_event_mon and mgmt_get_uid.
- `WireProtocol.DecodeRequest`: says nothing about buffers that hold no encoded request; the source reads without bounds there.
- `WireProtocol.DecodeResponse`: likewise.
- The maximum size of messages whose extra size does not cover all their parts, such as remove, crdirent and lists of extended attributes: it does not hold at the limits.
- The variant built with HAVE_VALGRIND_H, which zeroes padding; its buffers are among those `Tidy` admits.
- Changes by others between admin mode and the end of a run: passes 3 and 4 are modelled without them.
- `PINT_perm_check`, releasing of decoded messages, BMI buffers and logging.
