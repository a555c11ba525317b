/**
 Copying and restoring files: cmd/sub2api-limit-updater/files.go and the restore loop of apply.go, for
 any list of saved files.  A call may fail anywhere, and a process may be killed anywhere; the next one
 continues from the cursor on disk.
 */
module FileRestore {
  import opened Options

  type Byte = x: int | 0 <= x < 256
  type Content = seq<Byte>
  type Path = string
  type Files = map<Path, Content>

  const BUFFER_SIZE: nat := 128 * 1024

  /** What the journal says of a managed file: where it was and, if it existed, the content of its backup. */
  datatype Saved = Saved(original: Path, backup: Option<Content>)

  // ----- one uninterrupted restore

  function Put(files: Files, entry: Saved): Files {
    match entry.backup
    case Some(content) => files[entry.original := content]
    case None => files - {entry.original}
  }

  /** The files after restoring everything the cursor has not passed yet, last entry first. */
  function Restored(files: Files, saved: seq<Saved>, cursor: nat): Files
    requires cursor <= |saved|
    decreases |saved| - cursor
  {
    if cursor == |saved| then files else Restored(Put(files, saved[|saved| - 1 - cursor]), saved, cursor + 1)
  }

  function Lookup(files: Files, path: Path): Option<Content> { if path in files then Some(files[path]) else None }

  ghost predicate Distinct(saved: seq<Saved>) {
    forall i, j :: 0 <= i < j < |saved| ==> saved[i].original != saved[j].original
  }

  /** A restore puts every remaining file back and touches no other path. */
  lemma {:induction false} RestoredContents(files: Files, saved: seq<Saved>, cursor: nat)
    requires cursor <= |saved| && Distinct(saved)
    ensures forall i :: 0 <= i < |saved| - cursor ==> Lookup(Restored(files, saved, cursor), saved[i].original) == saved[i].backup
    ensures forall path :: (forall i :: 0 <= i < |saved| - cursor ==> saved[i].original != path) ==>
              Lookup(Restored(files, saved, cursor), path) == Lookup(files, path)
    decreases |saved| - cursor
  {
    if cursor < |saved| {
      RestoredContents(Put(files, saved[|saved| - 1 - cursor]), saved, cursor + 1);
    }
  }

  /** Restoring the next file again changes nothing about where the restore ends. */
  lemma RestoringTwice(files: Files, saved: seq<Saved>, cursor: nat)
    requires cursor < |saved|
    ensures var entry := saved[|saved| - 1 - cursor];
            && Restored(Put(files, entry), saved, cursor) == Restored(files, saved, cursor)
            && Restored(Put(files, entry), saved, cursor + 1) == Restored(files, saved, cursor)
  {
    var entry := saved[|saved| - 1 - cursor];
    assert Put(Put(files, entry), entry) == Put(files, entry);
  }

  // ----- interrupted restores

  /** Restores as they happen: a file is put back, its checkpoint written, and a crash may come between the two. */
  datatype Replay =
    | Resume(files: Files, cursor: nat)
    | PutBack(before: Replay)
    | Checkpoint(before: Replay)
    | Crash(before: Replay)

  function FilesAfter(r: Replay, saved: seq<Saved>): Files {
    match r
    case Resume(files, _) => files
    case PutBack(before) =>
      var cursor := CursorAfter(before);
      if cursor < |saved| then Put(FilesAfter(before, saved), saved[|saved| - 1 - cursor]) else FilesAfter(before, saved)
    case Checkpoint(before) => FilesAfter(before, saved)
    case Crash(before) => FilesAfter(before, saved)
  }

  function CursorAfter(r: Replay): nat {
    match r
    case Resume(_, cursor) => cursor
    case PutBack(before) => CursorAfter(before)
    case Checkpoint(before) => CursorAfter(before) + 1
    case Crash(before) => CursorAfter(before)
  }

  function Origin(r: Replay): (o: Replay)
    ensures o.Resume?
  {
    if r.Resume? then r else Origin(r.before)
  }

  /** The process that writes a checkpoint has just put that file back; a full cursor leaves nothing to do. */
  predicate PossibleReplay(r: Replay, saved: seq<Saved>) {
    match r
    case Resume(_, cursor) => cursor <= |saved|
    case PutBack(before) => PossibleReplay(before, saved) && CursorAfter(before) < |saved|
    case Checkpoint(before) => PossibleReplay(before, saved) && before.PutBack?
    case Crash(before) => PossibleReplay(before, saved)
  }

  function Checkpoints(r: Replay): nat {
    match r
    case Resume(_, _) => 0
    case PutBack(before) => Checkpoints(before)
    case Checkpoint(before) => Checkpoints(before) + 1
    case Crash(before) => Checkpoints(before)
  }

  /** Whatever the interleaving of restores, checkpoints and crashes: where the restore will end never changes, so
      with the full cursor the files are those of one uninterrupted restore; and each checkpoint brings it one file
      nearer. */
  lemma {:induction false} ReplayEndsAlike(r: Replay, saved: seq<Saved>)
    requires PossibleReplay(r, saved)
    ensures CursorAfter(r) == CursorAfter(Origin(r)) + Checkpoints(r) <= |saved|
    ensures Restored(FilesAfter(r, saved), saved, CursorAfter(r)) == Restored(Origin(r).files, saved, Origin(r).cursor)
    ensures CursorAfter(r) == |saved| ==> FilesAfter(r, saved) == Restored(Origin(r).files, saved, Origin(r).cursor)
  {
    match r
    case Resume(_, _) =>
    case PutBack(before) =>
      ReplayEndsAlike(before, saved);
      RestoringTwice(FilesAfter(before, saved), saved, CursorAfter(before));
    case Checkpoint(before) =>
      ReplayEndsAlike(before.before, saved);
      RestoringTwice(FilesAfter(before.before, saved), saved, CursorAfter(before.before));
    case Crash(before) =>
      ReplayEndsAlike(before, saved);
  }

  // ----- the file system

  class Volume {
    var files: Files
    var temporaries: map<nat, Content>  // .replace-*.tmp files, which no other code reads
    var cursor: nat                     // the restore cursor of the journal on disk
    ghost var mishaps: nat              // calls that failed or were cut short, and kills

    constructor (files: Files, cursor: nat)
      ensures this.files == files && this.cursor == cursor && temporaries == map[]
    {
      this.files := files;
      this.cursor := cursor;
      temporaries := map[];
      mishaps := 0;
    }

    /** Nothing has gone wrong since. */
    twostate predicate Smooth()
      reads this
    {
      mishaps == old(mishaps)
    }

    method Chance() returns (end: Ending)
      modifies `mishaps
      ensures mishaps == old(mishaps) + if end.Done? then 0 else 1
    {
      end := *;
      mishaps := mishaps + if end.Done? then 0 else 1;
    }
  }

  datatype Ending = Done | Failed | Killed

  datatype ReadError = NoError | EndOfFile | OtherError | KilledInRead

  /** Read of the source: at most a buffer of what follows, and io.EOF only at the end. */
  method Read(volume: Volume, source: Content, position: nat) returns (count: nat, error: ReadError)
    requires position <= |source|
    modifies volume`mishaps
    ensures position + count <= |source| && count <= BUFFER_SIZE
    ensures error.EndOfFile? ==> position + count == |source|
    ensures old(volume.mishaps) <= volume.mishaps && (volume.Smooth() ==> error.EndOfFile? || (error.NoError? && count > 0))
  {
    count, error := *, *;
    if count > BUFFER_SIZE || position + count > |source| {
      count := 0;
    }
    if error.EndOfFile? && position + count != |source| {
      error := NoError;
    }
    volume.mishaps := volume.mishaps + if error.EndOfFile? || (error.NoError? && count > 0) then 0 else 1;
  }

  /** copyWithContext: the target holds a prefix of the source, and all of it when nothing went wrong. */
  method CopyWithContext(volume: Volume, temporary: nat, source: Content) returns (end: Ending)
    requires temporary in volume.temporaries && volume.temporaries[temporary] == []
    modifies volume`temporaries, volume`mishaps
    ensures temporary in volume.temporaries
    ensures volume.temporaries == old(volume.temporaries)[temporary := volume.temporaries[temporary]]
    ensures volume.temporaries[temporary] <= source
    ensures end.Done? ==> volume.temporaries[temporary] == source
    ensures old(volume.mishaps) <= volume.mishaps && (volume.Smooth() ==> end.Done?)
  {
    var position := 0;
    while true
      invariant position <= |source| && temporary in volume.temporaries
      invariant volume.temporaries == old(volume.temporaries)[temporary := source[..position]]
      invariant old(volume.mishaps) <= volume.mishaps
      decreases |source| - position
    {
      end := volume.Chance();
      if !end.Done? {
        return;
      }
      var count, error := Read(volume, source, position);
      if count > 0 {
        end := volume.Chance();
        if !end.Done? {
          return;
        }
        var written: nat :| written <= count;
        position := position + written;
        volume.temporaries := volume.temporaries[temporary := source[..position]];
        end := volume.Chance();
        if !end.Done? {
          return;
        }
        if written != count {
          volume.mishaps := volume.mishaps + 1;
          return Failed;
        }
      }
      match error {
        case EndOfFile => return Done;
        case OtherError => return Failed;
        case KilledInRead => return Killed;
        case NoError =>
          if count == 0 {
            return Failed;
          }
      }
    }
  }

  /** At most one temporary file more than before. */
  twostate predicate LeavesAtMostOne(volume: Volume)
    reads volume
  {
    || volume.temporaries == old(volume.temporaries)
    || exists t :: t !in old(volume.temporaries) && t in volume.temporaries &&
                   volume.temporaries == old(volume.temporaries)[t := volume.temporaries[t]]
  }

  /** The deferred removal of a temporary file, whose error is ignored. */
  method RemoveTemporary(volume: Volume, temporary: nat) returns (killed: bool)
    requires temporary in volume.temporaries
    modifies volume`temporaries, volume`mishaps
    ensures old(volume.mishaps) <= volume.mishaps && (volume.Smooth() ==> !killed)
    ensures volume.temporaries == if volume.Smooth() then old(volume.temporaries) - {temporary} else old(volume.temporaries)
  {
    var end := volume.Chance();
    if end.Done? {
      volume.temporaries := volume.temporaries - {temporary};
    }
    killed := end.Killed?;
  }

  /** atomicCopyContext: the destination is as before or exactly the source, whatever fails; a temporary file is left
      only if the process was killed, or if removing it failed as well. */
  method AtomicCopy(volume: Volume, source: Content, destination: Path) returns (end: Ending)
    modifies volume`files, volume`temporaries, volume`mishaps
    ensures volume.files == old(volume.files) || volume.files == old(volume.files)[destination := source]
    ensures end.Done? ==> volume.files == old(volume.files)[destination := source]
    ensures LeavesAtMostOne(volume) && (end.Done? ==> volume.temporaries == old(volume.temporaries))
    ensures !end.Killed? && volume.mishaps <= old(volume.mishaps) + 1 ==> volume.temporaries == old(volume.temporaries)
    ensures old(volume.mishaps) <= volume.mishaps && (volume.Smooth() ==> end.Done?)
  {
    end := volume.Chance();
    if !end.Done? {
      return;
    }
    var temporary: nat := *;
    if temporary in volume.temporaries {
      volume.mishaps := volume.mishaps + 1;
      return Failed;
    }
    volume.temporaries := volume.temporaries[temporary := []];
    end := CopyWithContext(volume, temporary, source);
    if end.Killed? {
      return;
    }
    if end.Done? {
      end := volume.Chance();  // mode, owner, sync, close and the checks between them
      if end.Killed? {
        return;
      }
    }
    if end.Done? {
      volume.files := volume.files[destination := volume.temporaries[temporary]];
      volume.temporaries := volume.temporaries - {temporary};
      assert volume.temporaries == old(volume.temporaries);
      end := volume.Chance();  // syncDirectory
    } else {
      assert volume.temporaries - {temporary} == old(volume.temporaries);
      var killed := RemoveTemporary(volume, temporary);
      end := if killed then Killed else Failed;
    }
  }

  method RestoreFile(volume: Volume, entry: Saved) returns (end: Ending)
    modifies volume`files, volume`temporaries, volume`mishaps
    ensures volume.files == old(volume.files) || volume.files == Put(old(volume.files), entry)
    ensures end.Done? ==> volume.files == Put(old(volume.files), entry)
    ensures LeavesAtMostOne(volume) && (end.Done? ==> volume.temporaries == old(volume.temporaries))
    ensures !end.Killed? && volume.mishaps <= old(volume.mishaps) + 1 ==> volume.temporaries == old(volume.temporaries)
    ensures old(volume.mishaps) <= volume.mishaps && (volume.Smooth() ==> end.Done?)
  {
    end := volume.Chance();
    if !end.Done? {
      return;
    }
    match entry.backup {
      case None =>
        end := volume.Chance();
        if end.Done? {
          volume.files := volume.files - {entry.original};
          end := volume.Chance();
        }
      case Some(content) =>
        end := AtomicCopy(volume, content, entry.original);
    }
  }

  /** restoreTransactionFilesWithCheckpoint, from the cursor on disk. */
  method RestoreTransactionFiles(volume: Volume, saved: seq<Saved>) returns (end: Ending)
    requires volume.cursor <= |saved|
    modifies volume
    ensures old(volume.cursor) <= volume.cursor <= |saved|
    // where the restore will end is settled from the start, whatever happens on the way
    ensures Restored(volume.files, saved, volume.cursor) == Restored(old(volume.files), saved, old(volume.cursor))
    ensures end.Done? ==> volume.cursor == |saved|
    ensures old(volume.cursor) == |saved| ==> end.Done? && volume.files == old(volume.files)
    ensures old(volume.mishaps) <= volume.mishaps && (volume.Smooth() ==> end.Done?)
  {
    var cursor := volume.cursor;
    while cursor < |saved|
      invariant old(volume.cursor) <= cursor == volume.cursor <= |saved|
      invariant Restored(volume.files, saved, cursor) == Restored(old(volume.files), saved, old(volume.cursor))
      invariant old(volume.cursor) == |saved| ==> volume.files == old(volume.files)
      invariant old(volume.mishaps) <= volume.mishaps
    {
      RestoringTwice(volume.files, saved, cursor);
      end := RestoreFile(volume, saved[|saved| - 1 - cursor]);
      if !end.Done? {
        return;
      }
      cursor := cursor + 1;
      end := volume.Chance();  // the checkpoint: writeTransactionJournal
      if !end.Done? {
        var durable: bool := *;
        if durable {
          volume.cursor := cursor;
        } else {
          RestoringTwice(old(volume.files), saved, cursor - 1);
        }
        return;
      }
      volume.cursor := cursor;
    }
    return Done;
  }

  /** Any number of interrupted restores, then one that finishes: the files are those of one uninterrupted restore. */
  method RestoreUntilDone(volume: Volume, saved: seq<Saved>, attempts: nat) returns (done: bool)
    requires volume.cursor <= |saved|
    modifies volume
    ensures volume.cursor <= |saved|
    ensures volume.mishaps < old(volume.mishaps) + attempts ==> done  // an attempt fails only by a mishap
    ensures done ==> volume.files == Restored(old(volume.files), saved, old(volume.cursor)) && volume.cursor == |saved|
    ensures Restored(volume.files, saved, volume.cursor) == Restored(old(volume.files), saved, old(volume.cursor))
  {
    for attempt := 0 to attempts
      invariant volume.cursor <= |saved| && old(volume.mishaps) + attempt <= volume.mishaps
      invariant Restored(volume.files, saved, volume.cursor) == Restored(old(volume.files), saved, old(volume.cursor))
    {
      var end := RestoreTransactionFiles(volume, saved);
      if end.Done? {
        return true;
      }
    }
    return false;
  }
}
