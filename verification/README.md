# Verified models of CasaOS-AppManagement

Dafny models of the parts of app management whose correctness rests on a stated
guarantee, and proofs of those guarantees. Each module follows one component of
the Go sources, in its own form: what changes state is a class with the same
fields, what computes is a function.

- **Docker's data mover** (`DockerDisk`, `DockerMover`). The host's folders, units
  and state file as values; every command, rename, write and undo one step that
  may fail. `up` falls when the process stops, and from then on no step has any
  effect, so what holds at the end of a method holds at every stop inside it.
- **The log store** (`LogLines`, `LogSeek`, `LogOrder`, `LogCursor`, `LogPager`,
  `LogPaging`, `LogWriter`, `LogHub`, `LogPurge`, `LogFrames`). Bytes of day files
  up to pages a client follows over growing files; the subscriber protocol of the
  hub step by step; the purge plan; Docker's framed stream.
- **Git deployments** (`GitTags`, `GitDeploy`, `GitWebhook`). The app's record and
  the machine beside it; builds, moves, starts and rollbacks fail at will.
- **Smaller cores** (`VersionTags`, `UpdateOffer`, `BackupHold`, `DockerWatch`).

Run `dafny verify dfyconfig.toml` to check everything.

## How the models read

A boolean assigned `*` is an outcome nobody controls: a failure, a stop, a
remote's answer. A process that is stopped is modelled by a flag that turns every
later step into nothing, and a run by a method over a list of steps, so an
`ensures` of such a method is a statement about every run. A flag that says no step
fails from some point on (`calm`, `well`) is how a contract says what must succeed.

Parameters stand for what is not modelled: how a timestamp reads and is written
(`Stamp`, `Format`), what a log filter matches, what a line costs of a page, how a
tag reads as a version (`Reading`, `Reader`), which commits are ancestors of which.
Time is an integer, and a day is 86400 seconds of it.

## Where the code and its comments disagree

- `backup_hold.go` says a release that half failed leaves its note for the next
  start; the code erases it either way. `BackupHold.ReleaseForgets` is the case,
  `BackupHold.ReleaseCovers` the exact condition.
- `hub.go` says a reader never gets a message a later drop made stale; it can,
  exactly when the drop comes while the message is offered (`LogHub.StaleDelivery`,
  `LogHub.Subscriber.Deliver`). The accounting is right all the same.
- `backToFolder` skips an area whose folder is absent, so with the drive gone it
  does nothing and reports no error, and `dropCopies` then deletes the copy. Where an
  area is no longer bound, Docker fills its live folder, and a later `switchDone`
  takes that for the switched copy and offers the only whole tree for deletion
  (`DockerDisk.AwayKeepsBootFolder`). `DockerMover.Mover.BackFromDefault` says when
  the data is back, and the guarantees of `Life` end only at such a recovery.
- `switchToDefault` ignores a unit and a drop-in it cannot remove, and Docker's start
  then mounts the old data again. Exactly then the undos cannot all run
  (`DockerDisk.StartedRuns`, `DockerDisk.MountReturns`); where no step of them fails
  Docker is on what it had all the same (`DockerMover.Mover.UndoAll`).
- `Recover` says a cut switch is put back to where the data was. It cannot be, with no
  step failing, where a mount covers a live folder that was filled while it was not
  there: `setAsideBootFolders` passes over it and the folder is in the way once
  unmounted (`DockerMover.BuriedStays`; exactly when, `DockerMover.Mover.PutRight`).
- `CheckTarget` lets a target hold an empty folder for an area the host has no data of;
  the move then fails at that area and is put back (`DockerMover.Mover.Move`).
- The automatic rebuild of a branch can go back to a version of the history
  (`GitDeploy.GoesBack`), where `fetchGitBranch` would refuse a version that does not
  follow what runs; `GitDeploy.App.AutoGoes` says exactly when.
- `finishGitDeploy` removes images before it saves the record: stopped in between, the
  record may name a deployed version whose images are gone
  (`GitDeploy.EndRemovesRunning`; exactly when, `GitDeploy.App.StopAndRecover`).
- `compareTags` is antisymmetric but not transitive (`UpdateOffer.TagOrderNotTransitive`,
  `UpdateOffer.NumberBetweenVersions`); `UpdateOffer.TagOrderTransitive` and
  `UpdateOffer.CircleThroughNumber` say exactly where it goes round.
- An app held again after a recovery that failed has its note overwritten, or erased
  by the release, and with it what the first one named
  (`BackupHold.HeldAgainForgets`; exactly when, `BackupHold.HoldCovers`).
- A recovery that keeps a switch it could not verify lists the old data for
  deletion in one write and unlists it in the next; a stop in between leaves it
  listed (`DockerMover.UnverifiedListed`; exactly when, `DockerMover.Mover.KeepSwitch`).

## Model

| member | source | states |
|---|---|---|
| `DockerMover.Mover.Life` | pkg/dockerlocation/dockerlocation.go:694-818 | Over a move and any number of stops and starts, of the process or the machine, at any step of the move, of its undo or of a recovery, the drive there or not: the tree Docker had is whole in the live folder, aside, or in the far folder; a process that gets to the end has Docker asked to run and no move left to recover; when what ran last ended without an error, Docker runs, now and after any boot, on what it had or on a complete flushed copy, unless a state file write was lost or a way back was last put right without its drive when an area was no longer bound to it; and the last start, where it had a move to recover and no step failed in it, ended without an error exactly when it kept the switch or nothing to put back was buried under a mount |
| `DockerMover.Mover.Move` | pkg/dockerlocation/dockerlocation.go:694-818 | Every end of a move. Finished: every area stands on a good tree. Before Docker starts in the new place: both areas exactly as they were but for the copies and what Docker wrote since. Put back later: Docker on the tree it had. Stranded: a complete copy of all kept; and where no step of the undo failed, that is so exactly when Docker's start mounted the old data of a way back again, and Docker is then on the tree it had. With no step failing at all it finishes, unless the target holds a folder for an area there is nothing of |
| `DockerMover.Mover.Recover` | pkg/dockerlocation/dockerlocation.go:1493-1585 | A switch is kept exactly when it was starting or switchDone holds of it and it is not being undone; a kept one leaves every moved area on a good tree; one put back without error leaves each on the tree Docker had, but for the one case named: a way back, the drive absent, an area no longer bound; with no step failing it ends without error, unless it has a folder to put back that is buried under a mount, which always is an error; the recorded phase is done or failed; Docker is asked to run |
| `DockerMover.Mover.PutRight` | pkg/dockerlocation/dockerlocation.go:1524-1552 | What is not kept is put back without error, no step failing, exactly when no area of a switch to a folder is mounted over a live folder that holds something while its data waits beside it; on the way back, always |
| `DockerMover.BuriedStays` | pkg/dockerlocation/dockerlocation.go:1703-1730 | A recovery in which no step fails and which ends with an error all the same: docker mounted over a folder filled while it was not; its data still whole |
| `DockerDisk.BuriedByBoots` | pkg/dockerlocation/dockerlocation.go:1638-1665 | How it comes to that: an undo that removed the drop-in and not the unit, cut, and two boots |
| `DockerMover.Mover.StopAndStart` | pkg/dockerlocation/dockerlocation.go:1493-1585 | One stop and start, with whatever boot, drive loss and recovery: what a past end promised still holds, and a move to recover is recovered without error when no step fails, but for a folder buried under a mount |
| `DockerMover.Mover.Restart` | pkg/dockerlocation/dockerlocation.go:184-200 | Of each area a boot makes one of: its unflushed copies lost or not, its enabled unit mounted where it can be or not, its service started and writing into what it sees or not; the state file unchanged; an area served stays served. Without a boot nothing changes |
| `DockerMover.Mover.SwitchMounts` | pkg/dockerlocation/dockerlocation.go:1013-1094 | Failed at any step or not, of the undos collected so far each can work when its turn comes, newest first, and all of them take both areas exactly back; when it succeeds every area copied is bound, with unit and drop-in |
| `DockerMover.Mover.SwitchToDefault` | pkg/dockerlocation/dockerlocation.go:1112-1174 | The same for the way back, where the unit must be there again before it is enabled and its mount started; when it succeeds each area with a copy shows it, unmounted |
| `DockerMover.Mover.UndoAll` | pkg/dockerlocation/dockerlocation.go:1000-1008 | All undos run, newest first. Without a failing step none fails exactly when each can run, and then the disk is where the switch found it; on a way back Docker is on what it had whether each can or not, and a complete copy is never lost; an area whose mount would not stop is left as found, wholly switched; far folders untouched |
| `DockerMover.Mover.UnmountUndo` | pkg/dockerlocation/dockerlocation.go:1099-1108 | A stop that fails marks the area stuck and changes nothing |
| `DockerMover.Mover.PutFoldersBack` | pkg/dockerlocation/dockerlocation.go:1041-1049 | The folder comes back only where the mount stopped and the live folder is empty |
| `DockerMover.Mover.PutUnitsBack` | pkg/dockerlocation/dockerlocation.go:1055-1064 | Unit and drop-in as before, unless the area is stuck |
| `DockerMover.Mover.UndoOrSay` | pkg/dockerlocation/dockerlocation.go:729-742 | Recorded as undoing before anything is touched; put back, the disk is what the undos give but for the copies; with no step failing it is put back exactly when the undos can run, and the copies are gone; otherwise a complete copy of all is kept, on either way |
| `DockerMover.Mover.Carry` | pkg/dockerlocation/dockerlocation.go:785-797 | A switch that fails anywhere is put back exactly as it was, copies deleted, when no step of the undo fails |
| `DockerMover.Mover.BackOut` | pkg/dockerlocation/dockerlocation.go:799-815 | Docker not back in the new place: recorded as undoing before anything changes, then undone, put back exactly when the undos can run where no step fails; or left with a complete copy of all kept, on either way |
| `DockerMover.Mover.MakeCopies` | pkg/dockerlocation/dockerlocation.go:749-783 | Every area to move is copied whole and flushed, or the copies tried are gone when no removal fails; nothing but the copies changed |
| `DockerMover.Mover.FlushCopies` | pkg/dockerlocation/dockerlocation.go:773-783 | What was copied whole is complete on disk once every flush worked; a flush that fails loses nothing |
| `DockerMover.Mover.Finish` | pkg/dockerlocation/dockerlocation.go:821-835 | Only a standing switch is recorded done, and what it lists for deletion is what is there and not in use, never the only whole tree of a tracked state |
| `DockerMover.Mover.DeleteOldCopy` | pkg/dockerlocation/dockerlocation.go:1451-1482 | Refused when anything offered is in use; otherwise only offered areas change, each tracked one keeps a complete copy, and what did not go stays offered |
| `DockerMover.Mover.SetAsideBootFolders` | pkg/dockerlocation/dockerlocation.go:1638-1665 | A folder Docker filled at boot, while its data waits beside it, is moved aside and kept there, and nothing else changes; without error none is in the way afterwards |
| `DockerMover.Mover.BackToDefault` | pkg/dockerlocation/dockerlocation.go:1703-1730 | Without error, no area has a unit and every area has its original tree back in its live folder |
| `DockerMover.Mover.BackToFolder` | pkg/dockerlocation/dockerlocation.go:1734-1776 | With the drive there and no error every area is mounted and bound again; without the drive it changes nothing and reports no error, and the data is back exactly when every unit and drop-in had stayed |
| `DockerMover.Mover.BackFromDefault` | pkg/dockerlocation/dockerlocation.go:1531-1540 | A way back put right without error has Docker on the tree it had exactly when the drive was there or every area still bound |
| `DockerMover.Mover.DropCopies` | pkg/dockerlocation/dockerlocation.go:1687-1699 | Only copy slots change, never one Docker uses; without error each one Docker does not use is gone |
| `DockerMover.Mover.EnableUnits` | pkg/dockerlocation/dockerlocation.go:1669-1683 | A switch that stands still stands once its units are enabled, or failed to be |
| `DockerMover.Mover.KeepSwitch` | pkg/dockerlocation/dockerlocation.go:1558-1577 | A switch kept but not verified offers nothing for deletion, except when this process stopped, or a write was lost, between the write that lists the old data and the one that unlists it |
| `DockerMover.UnverifiedListed` | pkg/dockerlocation/dockerlocation.go:1565-1577 | The verification asked for and failed, the process stopped between the two writes and started again: the old data is still listed |
| `DockerDisk.SwitchDoneStands` | pkg/dockerlocation/dockerlocation.go:1604-1630 | switchDone tells the truth of a tracked state: of a switch not being undone it holds only when every area moved was switched to a complete copy |
| `DockerDisk.AwayKeepsBootFolder` | pkg/dockerlocation/dockerlocation.go:1734-1776 | It does not of a way back put right without its drive: step by step to a disk where switchDone holds of a folder Docker made at boot, and the only whole tree is offered for deletion |
| `DockerDisk.AbsentHome` | pkg/dockerlocation/dockerlocation.go:1734-1742 | With the drive absent Docker is on its data exactly when the unit and the drop-in are there |
| `DockerDisk.StandingMayFinish` | pkg/dockerlocation/dockerlocation.go:821-835 | What a finished move of a tracked state offers for deletion is never the only whole tree |
| `DockerDisk.UndoSteppedFine` | pkg/dockerlocation/dockerlocation.go:1041-1064 | Any one undo, failing at any of its steps, keeps all a recovery needs |
| `DockerDisk.SteppedUndone` | pkg/dockerlocation/dockerlocation.go:1000-1008 | An undo that worked brings the disk one undo nearer to where the switch found it |
| `DockerDisk.LeftAloneStep` | pkg/dockerlocation/dockerlocation.go:1099-1108 | An area found stuck is changed by none of the undos after |
| `DockerDisk.AreaSwitchingUndone` | pkg/dockerlocation/dockerlocation.go:1023-1075 | Wherever one area's part of a switch stops, what it pushed can run and undoes it exactly |
| `DockerDisk.AreaLeavingUndone` | pkg/dockerlocation/dockerlocation.go:1116-1168 | The same for the way back: the unit is back before it is enabled and before its mount starts |
| `DockerDisk.UnitsLastCannotRun` | pkg/dockerlocation/dockerlocation.go:1133-1144 | Pushed the other way round, they could not run: the mount would start before its unit is there |
| `DockerDisk.StartedGivesBack` | pkg/dockerlocation/dockerlocation.go:799-815 | Undos collected before Docker wrote in its new place still give the old data back |
| `DockerDisk.StartedRuns` | pkg/dockerlocation/dockerlocation.go:799-815 | ... and each can still run exactly when no mount of a way back came back with Docker's start |
| `DockerDisk.MountReturns` | pkg/dockerlocation/dockerlocation.go:1142-1146 | Such a disk: unit and drop-in not removed, the undos cannot run, and Docker is on what it had with the copy under the mount |
| `DockerDisk.MendStep` | pkg/dockerlocation/dockerlocation.go:1128-1170 | One undo of a way back that fails only where it cannot run brings every area one nearer to being mounted again |
| `DockerDisk.CutBeforeSwitchIsHome` | pkg/dockerlocation/dockerlocation.go:1544-1546 | A move cut while stopping or copying has left Docker on the tree it had |
| `DockerDisk.PowerCutFine` | pkg/dockerlocation/dockerlocation.go:184-200 | A power cut keeps all a recovery needs, a copy not flushed being lost |
| `DockerDisk.ServiceStartedKeeps` | pkg/dockerlocation/dockerlocation.go:928-936 | Docker writing into the tree it sees loses none of the others |
| `LogLines.RevReader.Next` | pkg/logstore/query.go:538-557 | The last complete line not returned yet, with its offset and text, skipping what does not parse |
| `LogLines.RevReader.Fill` | pkg/logstore/query.go:560-583 | Reading the chunk before keeps exactly the lines left to return, whatever was trimmed |
| `LogLines.ReadBackwards` | pkg/logstore/query.go:531-583 | For any bytes, any end and any fall of the 64 KiB chunks: exactly the reverse of the complete lines read forwards |
| `LogLines.FwdReader.Next` | pkg/logstore/query.go:503-527 | The first complete line left that parses; a last line without its newline is none |
| `LogLines.LinesSplit` | pkg/logstore/query.go:503-527 | Lines read from a line start on are the rest of the lines read from an earlier one |
| `LogLines.LinesTrim` | pkg/logstore/query.go:576-581 | Bytes after the last newline belong to no complete line |
| `LogLines.LinesGrow` | pkg/logstore/query.go:503-527 | Appending to a file changes none of its complete lines |
| `LogLines.LinesOrdered` | pkg/logstore/query.go:503-527 | Records come in strictly increasing offsets, each at a line start |
| `LogLines.KeptWhole` | pkg/logstore/query.go:564-567 | Cutting what is kept of a line changes nothing of a line within the limit |
| `LogSeek.SeekTime` | pkg/logstore/query.go:335-354 | Ends at a line start before which every line is before t; with all lines timed, every line a chunk or more after it is at or after t |
| `LogSeek.LineFrom` | pkg/logstore/query.go:358-385 | The first line start at or after an offset, found across blocks, and its time |
| `LogSeek.SeekMissesNone` | pkg/logstore/query.go:306-321 | A read from where the search ended misses no line at or after t |
| `LogSeek.ParsedTime` | pkg/logstore/query.go:370-384 | The time the search reads at a line start is the one the reader parses |
| `LogOrder.LessTotal` | pkg/logstore/query.go:387-389 | Time, file and offset order lines totally |
| `LogOrder.LessTransitive` | pkg/logstore/query.go:387-389 | ... and transitively |
| `LogCursor.CursorReads` | pkg/logstore/query.go:99-116 | A cursor written and read back is itself, colons in its file name included, exactly when the name is a relative path that never goes up |
| `LogPager.OpenReader` | pkg/logstore/query.go:306-331 | What the reader of a file is opened on holds all that is asked of the file, in walk order, from a cursor's offset, a searched offset or the end |
| `LogPager.Judge` | pkg/logstore/query.go:397-421 | A line is passed over, ends the walk or is kept exactly as the bounds, the hold-back and the filter say |
| `LogPager.PastAll` | pkg/logstore/query.go:402-420 | Nothing after the bound that ends a walk is asked for |
| `LogPager.Pager.Take` | pkg/logstore/query.go:397-445 | Taking the foremost line left keeps the page a gapless prefix of what is asked for |
| `LogPager.FullCollects` | pkg/logstore/query.go:434-437 | The line that makes a page full for its bytes is the next asked for, and not lost |
| `LogPager.FindBest` | pkg/logstore/query.go:285-292 | The source whose head comes first in the walk; none exactly when all are exhausted |
| `LogPager.BestForemost` | pkg/logstore/query.go:285-292 | That head comes before every line left in any source |
| `LogPager.AdvanceLeaves` | pkg/logstore/query.go:293-300 | Taking it off leaves every other line |
| `LogPager.Pager.ReadDay` | pkg/logstore/query.go:262-302 | After a day no line of it is left to look at, whichever way the page stands |
| `LogPager.SomeDaysCover` | pkg/logstore/query.go:173-195 | The days left out hold no line asked for |
| `LogPager.Read` | pkg/logstore/query.go:156-213 | The page: in walk order, each line asked for, none passed over up to where it stops, within the limit and the bytes, its cursor that of its last line; a request both ways is refused |
| `LogPager.OnePage` | pkg/logstore/query.go:156-213 | There is one such page: the longest that fits, whatever the files and the merge |
| `LogPager.EntriesApart` | pkg/logstore/query.go:92-97 | A cursor names one line of a store |
| `LogPaging.WalkBack` | pkg/logstore/query.go:156-240 | Following the cursors back over files that grow past what the first page could ask for gets every line asked for that was there then, newest first, each once, for any limit and bytes; and it ends |
| `LogPaging.WalkBackOver` | pkg/logstore/query.go:156-240 | Over stores that gain anything meanwhile, an upper bound still to come included, for any number of pages: the lines got are in order, each once, and when there is no next page every line asked for that was there at the first is among them |
| `LogPaging.Poll` | pkg/logstore/query.go:156-240 | Polling forwards over growing files gets every line asked for, oldest first, each once; after a page that is not full, all of those not held back |
| `LogPaging.FewerToCome` | pkg/logstore/query.go:156-240 | Every page that has lines leaves strictly fewer to come |
| `LogPaging.CursorStays` | pkg/logstore/query.go:92-97 | A cursor read off a line stays good while the line stays |
| `LogPaging.AppendKeepsLines` | pkg/logstore/query.go:92-97 | Files that are appended to keep every line read before |
| `LogWriter.Writer.Write` | pkg/logstore/writer.go:45-69 | When it succeeds, as it does while it is open and no write of a file fails, the line is the last of its day and no other line moved; lines are lost only when it fails, and never one that reached a file; less than a buffer is left unwritten |
| `LogWriter.Writer.TurnTo` | pkg/logstore/writer.go:52-58 | A buffer never holds two days: another day flushes first |
| `LogWriter.Writer.FlushLocked` | pkg/logstore/writer.go:86-110 | The buffer goes whole to the file of its own day, or is dropped |
| `LogWriter.Writer.Close` | pkg/logstore/writer.go:134-142 | The last flush, after which nothing is written |
| `LogWriter.Writer.FilesAreWritten` | pkg/logstore/writer.go:17-34 | Each day's file is what the pager takes it to be |
| `LogWriter.EncodedReads` | pkg/logstore/line.go:33-48 | Whatever lines were written, the readers read exactly those, in order, at their offsets |
| `LogWriter.BodyParses` | pkg/logstore/line.go:33-48 | ParseLine undoes FormatLine |
| `LogWriter.EncodedInTimeOrder` | pkg/logstore/query.go:152-154 | Lines written in the order of their times are timed in the order of their offsets |
| `LogWriter.EncodedIsWritten` | pkg/logstore/query.go:152-154 | A file of one day's lines meets every assumption the reader makes of it |
| `LogWriter.Truncate` | pkg/logstore/line.go:50-59 | A long text is cut at the last start of a UTF-8 sequence within the limit, and marked; a short one is unchanged |
| `LogWriter.OneLine` | pkg/logstore/line.go:24-35 | Newlines and returns become spaces, and nothing else changes |
| `LogHub.Run` | pkg/logstore/hub.go:37-144 | Over any interleaving of publishers, the drain and an unsubscribe: what a reader got is faithful, and with what is queued or still to report it accounts for every message accepted |
| `LogHub.Subscriber.Publish` | pkg/logstore/hub.go:50-66 | Never more than the queue holds: the oldest is dropped and counted, exactly when it is full; the backing array stays under twice the queue |
| `LogHub.Subscriber.Deliver` | pkg/logstore/hub.go:119-129 | When a reader receives a message it has had, or been told of, every one before it; what it receives is the head of the queue, and is stale exactly when a drop came while it was offered |
| `LogHub.Subscriber.Settle` | pkg/logstore/hub.go:131-143 | What was received leaves the queue, or is taken off the drops it had been counted in; the drops never go below zero |
| `LogHub.Subscriber.Pick` | pkg/logstore/hub.go:91-112 | A lag is offered before the head; with neither the drain waits, and no change is missed |
| `LogHub.ReceivedInOrder` | pkg/logstore/hub.go:87-144 | Messages are received in the order they were accepted, none twice |
| `LogHub.StaleDelivery` | pkg/logstore/hub.go:87-88 | A message that a drop made stale delivered, the drop coming while it is offered: the comment says never |
| `LogPurge.PlanPurge` | pkg/logstore/purge.go:68-103 | The plan is exactly the dated files up to one day: nothing past the retention stays; what stays is within the cap or has no dated file; and sparing the last day the cap took would exceed it |
| `LogPurge.OldestOver` | pkg/logstore/purge.go:93-101 | Whole days off the front, stopping where the rest fits, each day taken only while it did not |
| `LogPurge.GoneLater` | pkg/logstore/purge.go:73-91 | What the cap adds to what the retention took is again a threshold on days |
| `LogPurge.SparedAndGone` | pkg/logstore/purge.go:83-86 | What stays and what goes are the files, in count and in size |
| `GitDeploy.Live` | service/git_deploy.go:259-335 | Over any run of requests, checks and changes, with build, move, retag, start and rollback failing at will: an app that is not blocked has its folder, its image names and what was last started on the version it says it deployed; and the images of that version and of those to revert to were never removed |
| `GitDeploy.Unattended` | service/git_deploy.go:590-600 | Over any run of checks and of what they deploy: the deployed tag never goes down in precedence, and a paused app keeps its version |
| `GitDeploy.App.RunDeploy` | service/git_deploy.go:259-335 | Deployed: the target under its tag, not blocked, pause set as going down by hand does; otherwise what was deployed is kept and the commit is not tried again; on a branch a version built follows the one that ran and drops no commit of the folder; and where no step fails, that is all it asks |
| `GitDeploy.App.SwitchIn` | service/git_deploy.go:301-320 | The version lands, nothing changes, or what ran comes back |
| `GitDeploy.App.RollBack` | service/git_deploy.go:460-488 | Rolled back to the deployed version, as it is when no step fails, or blocked; a first version is left stopped |
| `GitDeploy.App.Deploy` | service/git_deploy.go:76-181 | A refusal changes nothing that runs; an automatic one is not tried again; a lower tag deployed by hand pauses the automatic rebuild; with no step failing, another commit that was asked for is deployed exactly when it may go there |
| `GitDeploy.App.Request` | service/git_deploy.go:76-181 | An app to adopt is adopted first, or the request refused with nothing changed; what runs of it is then what a deployment that fails leaves |
| `GitDeploy.App.Choose` | service/git_deploy.go:92-141 | Which commit and tag a request goes to, by mode and by what it gives |
| `GitDeploy.App.Preconditions` | service/git_deploy.go:199-256 | The running version again only as a repair; a revert only to a version that ran and whose images are there, from the deployed commit |
| `GitDeploy.App.FetchBranch` | service/git_deploy.go:369-390 | The target is on the branch, follows what runs, and contains what the folder is on; with no step failing, that is all it asks |
| `GitDeploy.App.FetchAndBuild` | service/git_deploy.go:340-364 | New images, or the failure recorded and nothing else |
| `GitDeploy.App.ImagesFor` | service/git_deploy.go:272-292 | The images of a version that ran when they are there, else new ones |
| `GitDeploy.App.Finish` | service/git_deploy.go:507-517 | The images go first, then the record is saved: the history gains the entry, and no image of a version that runs or ran is removed |
| `GitDeploy.App.Fail` | service/git_deploy.go:491-503 | Recorded, and the commit joins those not tried again |
| `GitDeploy.App.DeployAutomatically` | service/git_deploy.go:573-600 | Only when allowed, and what was tried is not allowed again; with no step failing what is allowed is deployed exactly when it may go there |
| `GitDeploy.App.AutoGoes` | service/git_deploy.go:90-181 | The automatic rebuild of a sound app may go to a commit the history names exactly when it ran, wherever it stands; to any other of a branch exactly when it follows what runs |
| `GitDeploy.App.CheckApp` | service/git_apps.go:553-606 | A check changes nothing that runs; a higher tag of the running commit becomes its tag, never a lower one |
| `GitDeploy.App.Update` | service/git_apps.go:327-352 | Only turning the automatic rebuild on lifts a pause; a change of mode forgets the check of the other |
| `GitDeploy.App.Adopt` | service/git_apps.go:212-243 | What runs becomes the deployed version, with its images named |
| `GitDeploy.App.StopAndRecover` | service/git_lifecycle.go:56-99 | A stop anywhere in a deployment, its end and the recovery included: the deployed version is still known, the commit is not tried again, the images of what the history says ran are there, and those of the deployed version too exactly when the end that was not written down removed none of them |
| `GitDeploy.EndSpares` | service/git_app_state.go:354-387 | What such an end removes of the deployed version is what that version shares with the entry that leaves and with nothing that stays or now runs |
| `GitDeploy.EndRemovesRunning` | service/git_deploy.go:507-517 | After two failed builds the next deployment to land removes the images of the version the record still names, before it is written down |
| `GitDeploy.App.TagToDeploy` | service/git_deploy.go:184-196 | The tag asked for among the eligible ones of the remote, or one no eligible tag is higher than |
| `GitDeploy.GoesBack` | service/git_deploy.go:90-181 | A run of it: 2 runs, 1 does not follow it, and the automatic rebuild deploys 1 |
| `GitDeploy.RemovableSpares` | service/git_app_state.go:354-387 | No image of the running version or of a remembered entry is handed to removal |
| `GitDeploy.RemovableAll` | service/git_app_state.go:354-387 | Every image of an entry that leaves is handed to removal or still named |
| `GitDeploy.EntryOfFinds` | service/git_app_state.go:404-420 | A commit of the history is found, as a version that ran when it ever did |
| `GitDeploy.LastAttempts` | service/git_app_state.go:390-399 | The commit is remembered, among the last twenty |
| `GitTags.EligibleTags` | service/git_tags.go:109-139 | Exactly the tags that match and name a version, pre-releases as asked, highest first |
| `GitTags.OneList` | service/git_tags.go:105-108 | The list is the same whatever order the tags came in |
| `GitTags.FirstHighest` | service/git_tags.go:164-180 | No eligible tag is higher than the first |
| `GitTags.LowerTotal` | service/git_tags.go:98-103 | Precedence of section 11 of Semantic Versioning 2.0.0 is total and antisymmetric |
| `GitTags.LowerTransitive` | service/git_tags.go:98-103 | ... and transitive |
| `GitTags.NotDownTransitive` | service/git_tags.go:98-103 | A tag that never goes down step by step has not gone down |
| `GitTags.InsertTag` | service/git_tags.go:127-133 | Ties of version come by name, so the order is total |
| `GitWebhook.Run` | service/git_webhook_receive.go:116-203 | Over any interleaving: checks webhooks start are a window apart; with nothing left running or queued every push accepted was followed by the beginning of a read, unless the very check it joined gave up or could not start, which it had not when the push came |
| `GitWebhook.App.Schedule` | service/git_webhook_receive.go:116-149 | A push is held, joined to the one check that waits, queued, or starts a check; it is never forgotten, and at most one check waits |
| `GitWebhook.App.LookAtWindow` | service/git_webhook_receive.go:188-203 | The queued check goes on exactly when the window has closed |
| `GitWebhook.App.TryClaim` | service/app_operations.go:138-171 | The app is taken when it is free; given up only past the deadline |
| `GitWebhook.App.LeaveQueue` | service/git_webhook_receive.go:160-175 | It is queued no more before it reads, so a push after it is owed another; its start is a window after the last; only giving up drops pushes, and only when no check is about to read for them |
| `GitWebhook.App.BeginReading` | service/git_webhook_receive.go:177-182 | All pushes accepted so far are answered by the read that begins; only a queued check can fail to start, and it drops pushes only when no other waits |
| `GitWebhook.App.BeginOperation` | service/app_operations.go:42-60 | One operation holds an app at a time |
| `GitWebhook.App.EndReading` | service/app_operations.go:186-193 | The hold passes to the deployment the check starts, with nothing in between |
| `VersionTags.NaturalCompare` | service/appstore_management.go:745-771 | The loop gives the order of the strings as runs of digits and characters: the first difference decides when it is a number |
| `VersionTags.NaturalOrder` | service/appstore_management.go:739-771 | Antisymmetric, transitive wherever both comparisons are ordered, and equal exactly when the runs have the same values |
| `VersionTags.TokensTransitive` | service/appstore_management.go:745-771 | Transitivity where it is ordered, strict when either is |
| `VersionTags.CompareNumbers` | service/appstore_management.go:786-798 | The order of the numeric values, for runs of any length |
| `VersionTags.EqualUpToZeros` | service/appstore_management.go:786-798 | Equal runs differ in leading zeros only |
| `VersionTags.DigitRun` | service/appstore_management.go:775-782 | The longest run of digits a string begins with |
| `UpdateOffer.TagOrderAntisymmetric` | service/appstore_management.go:689-728 | Which tag is asked about first does not matter |
| `UpdateOffer.CoreDecides` | service/appstore_management.go:697-712 | Of two upstream versions the later is later, whatever builds they are |
| `UpdateOffer.BuildDecides` | service/appstore_management.go:698-710 | Of two builds of one version the first number they differ in decides, as a number: ls99 comes before ls124 |
| `UpdateOffer.NumberDecides` | service/appstore_management.go:715-723 | The same of whole tags that read as no version, of four numbers say |
| `UpdateOffer.TagOrderTransitive` | service/appstore_management.go:689-713 | Of three tags that read as versions the order goes round in a circle exactly when they are builds of one version, digits order two of them, and characters put the third between these the other way round; otherwise it is transitive |
| `UpdateOffer.WholeTransitive` | service/appstore_management.go:689-728 | With tags among them that read as no version it is transitive, but where two read as versions that their whole tags order another way |
| `UpdateOffer.CircleThroughNumber` | service/appstore_management.go:689-728 | Two tags that read as versions and one that does not go round exactly when that one is between them by whole tags, and these order the two another way than their versions |
| `UpdateOffer.NumberBetweenVersions` | service/appstore_management.go:697-723 | That case: a release, the same with a hyphen, and a pre-release of it go round |
| `UpdateOffer.TagOrderNotTransitive` | service/appstore_management.go:702-712 | 1.0.0-9x is behind 1.0.0-10, that behind 1.0.0--, and that behind 1.0.0-9x |
| `UpdateOffer.TagOrderNotTransitiveLevel` | service/appstore_management.go:702-712 | 1.0.0-09b is behind 1.0.0-9a, that behind 1.0.0-9b, and the last level with the first |
| `UpdateOffer.ForwardOneWay` | service/appstore_management.go:665-686 | A move and the way back are both allowed exactly between tags that are absent, the same or level |
| `UpdateOffer.IsUpdateAvailable` | service/appstore_management.go:589-653 | Offered exactly when nothing is missing, no service refuses and something would change; a refusal names the first service that refuses |
| `UpdateOffer.UpdatedCompose` | service/compose_app.go:431-471 | Refuses only what it cannot create; otherwise writes the catalogue's image exactly where neither reference floats |
| `UpdateOffer.PlanServices` | service/compose_update_all.go:71-94 | Exactly the services the catalogue moves, from and to, in their order; all of them as they are when it moves none |
| `UpdateOffer.OfferIsWritten` | service/appstore_management.go:589-653 | From the answer to the list and the write: an offer lists and writes exactly the same services, at least one, none backwards, none floating, and leaves nothing to offer; an answer that offers nothing writes nothing; what cannot be created is what the write refuses |
| `UpdateOffer.UpdateSettles` | service/compose_app.go:483-512 | Once written, the comparison finds nothing left to change |
| `UpdateOffer.JoinExtracts` | pkg/docker/manifest.go:69-80 | A tag joined to any image, a registry with a port included, is split off again |
| `BackupHold.Host.Life` | service/backup_hold_recovery.go:122-167 | A backup killed at any step, then any number of starts, each of which may be killed or fail: no container that was off is ever on; what a release that ran to its end could not start is all that is lost; the last start tried every container its notes named and answers well exactly when it lived and each one started, as with no step failing they do; and then, or when the release had every start work, exactly what was running is, but for that |
| `BackupHold.Host.Backup` | service/backup_hold.go:77-134 | The release's own answer says what was running runs again, whatever became of the stops and the copy; killed anywhere or to its end, exactly what no note names any more is lost: what the app's note named alone before it, and what did not start |
| `BackupHold.Host.Hold` | service/backup_hold.go:77-107 | What is stopped was written down first, over whatever the app's note said, and is returned even when a stop fails; the note then names all that is down exactly when no container was up to write down, or nothing the old note named was down |
| `BackupHold.HoldCovers` | service/backup_hold_recovery.go:79-95 | After a hold the app's note names all that is down exactly when no container was up to write down, or nothing the old note named was down |
| `BackupHold.HoldLoses` | service/backup_hold_recovery.go:79-95 | ... and what is lost by it is what only the old note named |
| `BackupHold.BackupLoses` | service/backup_hold.go:115-134 | A backup that ran to its end loses that, and what it did not start |
| `BackupHold.HeldAgainForgets` | service/backup_hold_recovery.go:79-95 | Two backups of one app around a recovery that failed: the second forgets what the first left down |
| `BackupHold.Host.Release` | service/backup_hold.go:115-134 | Every container stopped is tried, the last one first, whatever came of the others; the note is erased; and it answers well exactly when each one started |
| `BackupHold.Host.Recover` | service/backup_hold_recovery.go:122-167 | Every container the notes name is tried, app by app, whatever came of the others; it answers well exactly when it lived and each one started, and then only what no note named is down; exactly the notes of the apps that did not start whole stay; nothing is lost |
| `BackupHold.Host.RecoverApp` | service/backup_hold_recovery.go:139-166 | Each container of the app is tried, the last one first, whatever came of the others; the note goes exactly when each one started |
| `BackupHold.Host.Remember` | service/backup_hold_recovery.go:79-95 | Written in one step, over the other apps' notes |
| `BackupHold.ReleaseCovers` | service/backup_hold.go:127-131 | After a release what is still down is noted exactly when everything started or the note could not be erased |
| `BackupHold.ReleaseForgets` | service/backup_hold.go:127-131 | A release that half failed leaves no note behind: the comment says it does |
| `BackupHold.RunningIds` | service/backup_hold.go:49-68 | Exactly the containers that are up, in a stable order |
| `DockerWatch.Run` | service/docker_watch.go:95-189 | Over any time-ordered run: healthy only after a trouble of the same episode, restarting once an episode, and whatever is in trouble is remembered |
| `DockerWatch.Watch.Observe` | service/docker_watch.go:95-144 | Publishes exactly what the container's history and the episode say: a death nobody asked for, an unhealthy container, a fourth unasked start in the window once an episode |
| `DockerWatch.Watch.Tick` | service/docker_watch.go:149-178 | An app is said healthy exactly when something of it is in trouble and all that is has run well for the window, once; nothing in trouble is forgotten |
| `DockerWatch.Watch.Resume` | service/docker_watch.go:184-189 | What runs has run well since now at best |
| `DockerWatch.WellSinceMeans` | service/docker_watch.go:106-141 | Well since t: found well at t, and nothing since says otherwise |
| `DockerWatch.TroubleBetween` | service/docker_watch.go:149-178 | Between two healthy events of an app there is a trouble of it |
| `DockerWatch.LatestMore` | service/docker_watch.go:121-126 | The starts remembered are all those of the window, whatever was dropped before |
| `DockerWatch.OverMeans` | service/docker_watch.go:149-163 | The well and the unwell of a tick say which apps are over |
| `DockerWatch.ForgetKeeps` | service/docker_watch.go:154-158 | Only what owes nothing is forgotten |
| `LogFrames.ReadFrames` | service/logs_follow.go:204-250 | What is given of each stream is its bytes split into lines, in order, with its unfinished rest at the end, wherever the frames and the chunks fall |
| `LogFrames.FramingIrrelevant` | service/logs_follow.go:201-203 | Two ways of cutting into frames what was written give the same lines |
| `LogFrames.PayloadIsWrote` | service/logs_follow.go:236-249 | What the frames hold of a stream is what was written to it |
| `LogFrames.InPieces` | service/logs_follow.go:207-224 | Bytes may come in any pieces |
| `LogFrames.Feed` | service/logs_follow.go:207-224 | A chunk gives the lines it ends, and keeps the rest |
| `LogFrames.ReadFrame` | service/logs_follow.go:240-249 | One frame, in chunks, wherever the stream is cut |
| `LogFrames.GiveLines` | service/logs_follow.go:210-217 | Every line in the data, without its returns, and what follows them |

## Left out

- A write of the mover's state file that fails: the run goes on, and only what does not rest on the file is claimed from then on (`Tracked`).
- Old copies of earlier moves to other folders, the measures of free space, and the lists of containers and images of a move.
- An area without a unit whose folder in the move's place exists all the same: a way back is modelled from a state a move left.
- A host without Docker's own folder: every move modelled moves it.
- The Docker image and container checks of `startAndVerify`: one step that passes or fails.
- Lines over 1 MiB, in files and in frames: the readers cut them, and the theorems are for files and streams without them.
- The error `readFrames` returns for a stream cut inside a frame; the lines given are modelled for every cut.
- Day files purged, or made again, under a live cursor; and the listing of folders, its names and its filters of apps and services.
- A write that leaves part of a line in a day file: a flush appends the whole buffer or nothing.
- The events of a page and their window.
- `Hub` with several subscribers: each has its own queue, and one is modelled.
- Parsing and printing of timestamps and of semantic versions.
- The .env of a first deployment, build logs, worktrees and the refs that keep commits.
- A state file of a git app that cannot be saved: the record and the machine would part.
- Images or commits removed by hand under a git app.
- Commits are numbers: that two commits share their first twelve digits, and so an image tag, is left out.
- The webhook's signature, body and route; `markInProgress` and the list of running operations.
- A check of a git app whose read fails, for want of credentials too, counts as having begun it.
- A listing of containers that is old by the time they are stopped: what is up when a backup begins is what it stops.
- Restores that move the folder before they deploy.
- Compose files beyond the image of each service, the cache of answers, and the question to the registries, which is a parameter.
- A container's name that belongs to two apps, and the pauses of the event stream: the watch is modelled from the events it is given.
- Docker, Compose, systemd, git, rsync and the file system themselves; HTTP routes, events published and logs written.
