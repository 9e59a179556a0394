/** `DiskLogWriter`: the write-ahead log on disk.  Each record is appended
    to the log file followed by a newline, the position counter advances by
    the bytes written, the checkpoint file is rewritten and the whole log is
    copied to a backup.  A failed write that finds the file shorter than the
    counter moves the damaged file aside, restores the backup, reopens the
    writer and then passes the original failure on.

    The file system is a map from path to bytes; the checkpoint file holds a
    `Checkpoint` value, since its JSON form is not modelled.  The JSON text of
    a record, the clock and the lock table of the operating system come in as
    parameters. */
module DiskLogWriters {
  import opened JavaLang
  import opened JavaTime
  import opened Checkpoints

  newtype byte = x: int | 0 <= x < 256

  const LogFilePath: string := "logs/entity-changes.log"
  const BackupPath: string := "logs/entity-changes.log.backup"
  /** the `"\n"` appended to every record */
  const NewLine: byte := 10
  const NoBackupMessage: string := "No backup file available for recovery"
  /** the message of the `RuntimeException` thrown when this JVM already
      holds the lock, ending in the `OverlappingFileLockException` */
  const JvmLockMessage: string := "JVM 에서 이미 락이 걸려있어서 파일 락을 획득할 수 없습니다. java.nio.channels.OverlappingFileLockException"
  /** the message of the `IOException` thrown when another process holds
      the lock */
  const ProcessLockMessage: string := "다른 프로세스가 락을 갖고 있어서 락을 획득할 수 없습니다."

  /** Where a damaged log is moved, for a `yyyyMMddHHmmss` time stamp. */
  function CorruptedPath(stamp: string): (p: string)
    ensures |p| > 5 && p[5] == 'c' && p[..5] == LogFilePath[..5]
  {
    "logs/corrupted-" + stamp + ".log"
  }

  /** The damaged copy never lands on the log or on its backup. */
  lemma CorruptedPathIsFresh(stamp: string)
    ensures CorruptedPath(stamp) != LogFilePath && CorruptedPath(stamp) != BackupPath
  {
    assert LogFilePath[5] == 'e' && BackupPath[5] == 'e';
  }

  /** The contents of a file after `data` is written at `position`: the
      bytes there are replaced, the file grows when the data runs past its
      end, and a gap before `position` reads as zeros. */
  function WriteAt(file: seq<byte>, position: nat, data: seq<byte>): (r: seq<byte>)
    ensures |r| == if position + |data| > |file| then position + |data| else |file|
    ensures r[position..position + |data|] == data
  {
    var n := if position + |data| > |file| then position + |data| else |file|;
    seq(n, i requires 0 <= i < n =>
      if position <= i < position + |data| then data[i - position] else if i < |file| then file[i] else 0)
  }

  /** Writing at the end appends. */
  lemma WriteAtEnd(file: seq<byte>, data: seq<byte>)
    ensures WriteAt(file, |file|, data) == file + data
  {
    var r := WriteAt(file, |file|, data);
    assert forall i | 0 <= i < |file| :: r[i] == file[i];
    assert r[|file|..] == data;
  }

  /** Writing at the start of a longer file overwrites its first bytes and
      keeps the rest: what a reopened writer does to an existing log. */
  lemma WriteAtStart(file: seq<byte>, data: seq<byte>)
    requires |data| <= |file|
    ensures WriteAt(file, 0, data) == data + file[|data|..]
    ensures data != file[..|data|] ==> WriteAt(file, 0, data)[..|file|] != file
  {
    var r := WriteAt(file, 0, data);
    assert r[|data|..] == file[|data|..];
    assert r[..|data|] == data;
    assert r == r[..|data|] + r[|data|..];
  }

  /** Who else holds the lock on the log file. */
  datatype LockHolder = NoOtherHolder | HeldInThisJvm | HeldByAnotherProcess

  /** The `RandomAccessFile` and its channel: not yet opened, open, closed. */
  datatype Handle = NoHandle | OpenHandle | ClosedHandle

  /** The buffered output stream on the channel, with the channel position
      its next bytes go to. */
  datatype Output = NoOutput | Writing(position: nat) | ClosedOutput

  /** Where a call to `write` fails, if it does: the serialisation of the
      record, the write to the channel, the checkpoint file or the backup
      copy, each with the message of its `IOException`. */
  datatype WriteFault =
    | NoFault
    | SerializationFails(message: string)
    | OutputFails(message: string)
    | CheckpointFails(message: string)
    | BackupFails(message: string)

  /** The surroundings of one call: the lock table, the clock for the
      checkpoint, the formatted clock for a damaged file's name, and whether
      the file length can be read. */
  datatype WriteEnv = WriteEnv(others: LockHolder, now: LocalDateTime, stamp: string, lengthReadable: bool)

  /** The log's length in a file system. */
  function LengthIn(files: map<string, seq<byte>>): nat {
    if LogFilePath in files then |files[LogFilePath]| else 0
  }

  /** `isFileCorrupted` on a file handle, the log's length and the counter:
      a null file dereferenced, a closed file whose length cannot be read,
      or an open one shorter than the counter. */
  function Corrupted(handle: Handle, length: nat, position: int, lengthReadable: bool): Result<bool> {
    match handle
    case NoHandle => Err(NullPointerException)
    case ClosedHandle => Ok(true)
    case OpenHandle => Ok(!lengthReadable || length < position)
  }

  /** The file system after `recoverFromBackup`'s two moves: the damaged
      log under its `corrupted-` name and the backup copied over the log. */
  function Restored(files: map<string, seq<byte>>, stamp: string): map<string, seq<byte>>
    requires LogFilePath in files && BackupPath in files
  {
    files[CorruptedPath(stamp) := files[LogFilePath]][LogFilePath := files[BackupPath]]
  }

  /** What the `catch` block of `write` does with the caught exception `e`,
      from the writer's state when the exception was caught (`handle0`,
      `files0`, `output0`, `lock0`, `position0`, with `checkpoint` in the
      checkpoint file) to the outcome `r` and the state after it
      (`handle1`, ...).  A file that does not look corrupted, or whose
      check throws, is left alone; a corrupted one without a backup throws
      the "no backup" error; a failing move throws its own error; otherwise
      the log is restored from the backup and the writer closed and opened
      again, which takes the lock afresh and reloads the checkpoint, and
      then `e` is rethrown unless re-opening failed: on a lock held
      elsewhere, or on a checkpoint that cannot be read. */
  ghost predicate CatchBlock(e: Exception, env: WriteEnv, checkpoint: CheckpointFile,
                             handle0: Handle, files0: map<string, seq<byte>>, output0: Output, lock0: bool, position0: int,
                             r: Outcome,
                             handle1: Handle, files1: map<string, seq<byte>>, output1: Output, lock1: bool, position1: int)
  {
    var unchangedState := handle1 == handle0 && files1 == files0 && output1 == output0 && lock1 == lock0 && position1 == position0;
    match Corrupted(handle0, LengthIn(files0), position0, env.lengthReadable)
    case Err(x) => r == Thrown(x) && unchangedState
    case Ok(corrupted) =>
      if !corrupted then r == Thrown(e) && unchangedState
      else if BackupPath !in files0 then r == Thrown(IOException(NoBackupMessage)) && unchangedState
      else if LogFilePath !in files0 then r == Thrown(IOException(LogFilePath)) && unchangedState
      else if CorruptedPath(env.stamp) in files0 then r == Thrown(IOException(CorruptedPath(env.stamp))) && unchangedState
      else
        files1 == Restored(files0, env.stamp) && handle1 == OpenHandle &&
        match env.others
        case NoOtherHolder =>
          r == (if checkpoint.Unreadable? then Thrown(IOException(checkpoint.reason)) else Thrown(e)) &&
          lock1 && output1 == Writing(0) && position1 == LoadedPosition(checkpoint, position0)
        case HeldInThisJvm =>
          r == Thrown(RuntimeException(JvmLockMessage, NoCause)) && !lock1 &&
          output1 == (if output0.NoOutput? then NoOutput else ClosedOutput) && position1 == position0
        case HeldByAnotherProcess =>
          r == Thrown(IOException(ProcessLockMessage)) && !lock1 &&
          output1 == (if output0.NoOutput? then NoOutput else ClosedOutput) && position1 == position0
  }

  /** Whether the `try` block of `write` fails before anything is written:
      serialising fails, the stream is closed, or writing to it fails. */
  predicate FailsBeforeWriting(fault: WriteFault, output: Output) {
    fault.SerializationFails? || (!output.NoOutput? && (output.ClosedOutput? || fault.OutputFails?))
  }

  /** The `IOException` such an early failure throws; a closed channel's
      `ClosedChannelException` has no message. */
  function EarlyFailure(fault: WriteFault, output: Output): Exception
    requires FailsBeforeWriting(fault, output)
  {
    if fault.SerializationFails? then IOException(fault.message)
    else if output.ClosedOutput? then IOException("")
    else IOException(fault.message)
  }

  /** `checkpoint.json`: missing, holding a checkpoint, or holding text that
      `readValue` cannot parse (a rewrite cut short, say), with the parser's
      message. */
  datatype CheckpointFile = NoCheckpoint | Stored(checkpoint: Checkpoint) | Unreadable(reason: string)

  /** The counter after `loadCheckpoint` reads `c` with the counter at
      `position`: the stored position, or the counter as it was. */
  function LoadedPosition(c: CheckpointFile, position: int): int {
    if c.Stored? then c.checkpoint.position else position
  }

  /** What `saveCheckpoint` writes `loadCheckpoint` reads back: the saved
      counter, without an error, whatever the counter was before; so a
      rewritten checkpoint also repairs an unreadable one. */
  lemma SavedCheckpointReadsBack(position: int, now: LocalDateTime, counter: int)
    ensures var c := Stored(Current(position, now));
      !c.Unreadable? && LoadedPosition(c, counter) == position
  {
  }

  class DiskLogWriter {
    var files: map<string, seq<byte>>
    /** `checkpoint.json` */
    var checkpointFile: CheckpointFile
    /** the position counter, kept apart from the channel position */
    var filePosition: int
    var logFile: Handle
    var output: Output
    var lockHeld: bool

    constructor (files: map<string, seq<byte>>, checkpointFile: CheckpointFile)
      ensures this.files == files && this.checkpointFile == checkpointFile
      ensures filePosition == 0 && logFile == NoHandle && output == NoOutput && !lockHeld
    {
      this.files, this.checkpointFile := files, checkpointFile;
      filePosition, logFile, output, lockHeld := 0, NoHandle, NoOutput, false;
    }

    /** The log file's length. */
    function LogLength(): nat
      reads this
    {
      if LogFilePath in files then |files[LogFilePath]| else 0
    }

    /** The channel writes exactly at the end of the log, where the counter
        points: the state of a writer opened over a missing log without a
        checkpoint, kept by every successful write. */
    predicate Appending()
      reads this
    {
      output.Writing? && LogFilePath in files && output.position == filePosition == |files[LogFilePath]|
    }

    /** `isFileCorrupted`: the log is shorter than the counter, or its length
        cannot be read (a closed file); before `init` the file is null. */
    function IsFileCorrupted(lengthReadable: bool): (r: Result<bool>)
      reads this
      ensures r.Err? <==> logFile.NoHandle?
      ensures r.Err? ==> r.error == NullPointerException
      ensures r == Ok(true) <==> logFile.ClosedHandle? || (logFile.OpenHandle? && (!lengthReadable || LogLength() < filePosition))
      ensures Appending() && logFile.OpenHandle? && lengthReadable ==> r == Ok(false)
      ensures r == Corrupted(logFile, LengthIn(files), filePosition, lengthReadable)
    {
      match logFile
      case NoHandle => Err(NullPointerException)
      case ClosedHandle => Ok(true)
      case OpenHandle => Ok(!lengthReadable || LogLength() < filePosition)
    }

    /** `init`: opens the log, creating it when missing, with the channel at
        position 0; takes the lock, failing with a `RuntimeException` when
        this JVM holds it already and with an `IOException` when another
        process does; then sets up the output and loads the checkpoint's
        position, if there is a checkpoint. */
    method Init(others: LockHolder) returns (r: Outcome)
      modifies this`files, this`logFile, this`output, this`lockHeld, this`filePosition
      ensures logFile == OpenHandle && checkpointFile == old(checkpointFile)
      ensures files == (if LogFilePath in old(files) then old(files) else old(files)[LogFilePath := []])
      ensures old(lockHeld) || others == HeldInThisJvm ==>
        r == Thrown(RuntimeException(JvmLockMessage, NoCause)) &&
        lockHeld == old(lockHeld) && output == old(output) && filePosition == old(filePosition)
      ensures !old(lockHeld) && others == HeldByAnotherProcess ==>
        r == Thrown(IOException(ProcessLockMessage)) && !lockHeld && output == old(output) && filePosition == old(filePosition)
      ensures !old(lockHeld) && others == NoOtherHolder ==>
        lockHeld && output == Writing(0) && filePosition == LoadedPosition(checkpointFile, old(filePosition)) &&
        r == (if checkpointFile.Unreadable? then Thrown(IOException(checkpointFile.reason)) else Done)
      // the channel starts at 0 whatever the counter says: only an empty
      // log with the counter at 0 is appended to
      ensures r.Done? ==> (Appending() <==> files[LogFilePath] == [] && filePosition == 0)
    {
      if LogFilePath !in files {
        files := files[LogFilePath := []];
      }
      logFile := OpenHandle;
      if lockHeld || others == HeldInThisJvm {
        return Thrown(RuntimeException(JvmLockMessage, NoCause));
      }
      if others == HeldByAnotherProcess {
        return Thrown(IOException(ProcessLockMessage));
      }
      lockHeld := true;
      output := Writing(0);
      r := LoadCheckpoint();
    }

    /** `loadCheckpoint`: the stored position, when the file exists; a file
        that cannot be parsed throws the parser's `IOException` and leaves
        the counter alone. */
    method LoadCheckpoint() returns (r: Outcome)
      modifies this`filePosition
      ensures filePosition == LoadedPosition(checkpointFile, old(filePosition))
      ensures r.Thrown? <==> checkpointFile.Unreadable?
      ensures checkpointFile.Unreadable? ==> r == Thrown(IOException(checkpointFile.reason))
    {
      match checkpointFile
      case NoCheckpoint =>
        r := Done;
      case Stored(checkpoint) =>
        filePosition := checkpoint.position;
        r := Done;
      case Unreadable(reason) =>
        r := Thrown(IOException(reason));
    }

    /** `close`: closes what was opened and releases the lock; a failure
        while closing is logged and never thrown. */
    method Close()
      modifies this`logFile, this`output, this`lockHeld
      ensures !lockHeld
      ensures logFile == (if old(logFile).NoHandle? then NoHandle else ClosedHandle)
      ensures output == (if old(output).NoOutput? then NoOutput else ClosedOutput)
    {
      if output != NoOutput {
        output := ClosedOutput;
      }
      lockHeld := false;
      if logFile != NoHandle {
        logFile := ClosedHandle;
      }
    }

    /** `saveCheckpoint`: the checkpoint file is rewritten with the counter
        and the clock, then the log is copied over the backup; a failure of
        either step leaves what follows it undone. */
    method SaveCheckpoint(fault: WriteFault, now: LocalDateTime) returns (failure: Option<Exception>)
      modifies this`checkpointFile, this`files
      ensures fault.CheckpointFails? ==>
        failure == Some(IOException(fault.message)) && checkpointFile == old(checkpointFile) && files == old(files)
      ensures !fault.CheckpointFails? ==> checkpointFile == Stored(Current(filePosition, now))
      ensures !fault.CheckpointFails? && (fault.BackupFails? || LogFilePath !in files) ==>
        failure == Some(IOException(if fault.BackupFails? then fault.message else LogFilePath)) && files == old(files)
      ensures !fault.CheckpointFails? && !fault.BackupFails? && LogFilePath in old(files) ==>
        failure == None && files == old(files)[BackupPath := old(files)[LogFilePath]]
    {
      if fault.CheckpointFails? {
        return Some(IOException(fault.message));
      }
      checkpointFile := Stored(Current(filePosition, now));
      if fault.BackupFails? {
        return Some(IOException(fault.message));
      }
      if LogFilePath !in files {
        // `Files.copy` throws `NoSuchFileException`, named after the path
        return Some(IOException(LogFilePath));
      }
      files := files[BackupPath := files[LogFilePath]];
      failure := None;
    }

    /** The `try` block of `write`: the record's bytes and the newline go to
        the channel position, then the counter advances by their length and
        the checkpoint is saved.  `failure` is the `IOException` it throws;
        a write before `init` dereferences the null stream. */
    method AppendRecord(json: seq<byte>, fault: WriteFault, now: LocalDateTime) returns (r: Outcome, failure: Option<Exception>)
      modifies this`files, this`output, this`filePosition, this`checkpointFile
      ensures r.Thrown? ==> failure == None
      ensures fault.SerializationFails? ==>
        r == Done && failure == Some(IOException(fault.message)) && unchanged(this)
      ensures !fault.SerializationFails? && old(output).NoOutput? ==>
        r == Thrown(NullPointerException) && unchanged(this)
      ensures !fault.SerializationFails? && old(output).ClosedOutput? ==>
        r == Done && failure == Some(IOException("")) && unchanged(this)
      ensures !fault.SerializationFails? && old(output).Writing? && fault.OutputFails? ==>
        r == Done && failure == Some(IOException(fault.message)) && unchanged(this)
      ensures !fault.SerializationFails? && old(output).Writing? && !fault.OutputFails? ==>
        var data := json + [NewLine];
        r == Done && LogFilePath in files &&
        files[LogFilePath] == WriteAt(if LogFilePath in old(files) then old(files)[LogFilePath] else [], old(output).position, data) &&
        output == Writing(old(output).position + |data|) && filePosition == old(filePosition) + |data| &&
        (fault.CheckpointFails? ==> failure == Some(IOException(fault.message)) && checkpointFile == old(checkpointFile)) &&
        (!fault.CheckpointFails? ==> checkpointFile == Stored(Current(filePosition, now))) &&
        (fault.BackupFails? ==> failure == Some(IOException(fault.message))) &&
        (fault.CheckpointFails? || fault.BackupFails? ==> files == old(files)[LogFilePath := files[LogFilePath]]) &&
        (fault.NoFault? ==> failure == None && files == old(files)[LogFilePath := files[LogFilePath]][BackupPath := files[LogFilePath]])
    {
      if fault.SerializationFails? {
        return Done, Some(IOException(fault.message));
      }
      match output {
        case NoOutput =>
          return Thrown(NullPointerException), None;
        case ClosedOutput =>
          // the closed channel throws a `ClosedChannelException`, without a message
          return Done, Some(IOException(""));
        case Writing(position) =>
          if fault.OutputFails? {
            return Done, Some(IOException(fault.message));
          }
          var data := json + [NewLine];
          var file := if LogFilePath in files then files[LogFilePath] else [];
          files := files[LogFilePath := WriteAt(file, position, data)];
          output := Writing(position + |data|);
          filePosition := filePosition + |data|;
          failure := SaveCheckpoint(fault, now);
          r := Done;
      }
    }

    /** `recoverFromBackup`: the damaged log moves to `corrupted-<stamp>.log`
        and the backup is copied over the log, then the writer is closed and
        opened again, which reloads the checkpoint's position.  Without a
        backup it throws "No backup file available for recovery"; a move onto
        an existing file or from a missing one throws. */
    method RecoverFromBackup(env: WriteEnv) returns (r: Outcome)
      modifies this`files, this`logFile, this`output, this`lockHeld, this`filePosition
      ensures BackupPath !in old(files) ==>
        r == Thrown(IOException(NoBackupMessage)) && unchanged(this)
      ensures BackupPath in old(files) && LogFilePath !in old(files) ==>
        r == Thrown(IOException(LogFilePath)) && unchanged(this)
      ensures BackupPath in old(files) && LogFilePath in old(files) && CorruptedPath(env.stamp) in old(files) ==>
        r == Thrown(IOException(CorruptedPath(env.stamp))) && unchanged(this)
      ensures BackupPath in old(files) && LogFilePath in old(files) && CorruptedPath(env.stamp) !in old(files) ==>
        files == old(files)[CorruptedPath(env.stamp) := old(files)[LogFilePath]][LogFilePath := old(files)[BackupPath]] &&
        logFile == OpenHandle &&
        (env.others == NoOtherHolder ==>
          lockHeld && output == Writing(0) && filePosition == LoadedPosition(checkpointFile, old(filePosition)) &&
          r == (if checkpointFile.Unreadable? then Thrown(IOException(checkpointFile.reason)) else Done)) &&
        (env.others != NoOtherHolder ==>
          !lockHeld && output == (if old(output).NoOutput? then NoOutput else ClosedOutput) && filePosition == old(filePosition)) &&
        (env.others == HeldInThisJvm ==> r == Thrown(RuntimeException(JvmLockMessage, NoCause))) &&
        (env.others == HeldByAnotherProcess ==> r == Thrown(IOException(ProcessLockMessage)))
    {
      if BackupPath !in files {
        return Thrown(IOException(NoBackupMessage));
      }
      var target := CorruptedPath(env.stamp);
      if LogFilePath !in files {
        // `NoSuchFileException`
        return Thrown(IOException(LogFilePath));
      }
      if target in files {
        // `FileAlreadyExistsException`
        return Thrown(IOException(target));
      }
      CorruptedPathIsFresh(env.stamp);
      var damaged := files[LogFilePath];
      files := (files - {LogFilePath})[target := damaged];
      files := files[LogFilePath := files[BackupPath]];
      assert files == old(files)[target := damaged][LogFilePath := old(files)[BackupPath]];
      Close();
      r := Init(env.others);
    }

    /** The `catch` block of `write`: when the file looks corrupted the
        writer recovers from the backup, and then the caught exception is
        rethrown; a failing recovery throws its own exception instead. */
    method OnWriteFailure(e: Exception, env: WriteEnv) returns (r: Outcome)
      modifies this`files, this`logFile, this`output, this`lockHeld, this`filePosition
      ensures r.Thrown?
      ensures CatchBlock(e, env, checkpointFile, old(logFile), old(files), old(output), old(lockHeld), old(filePosition),
                         r, logFile, files, output, lockHeld, filePosition)
    {
      var corrupted := IsFileCorrupted(env.lengthReadable);
      if corrupted.Err? {
        return Thrown(corrupted.error);
      }
      if !corrupted.value {
        return Thrown(e);
      }
      var recovered := RecoverFromBackup(env);
      if recovered.Thrown? {
        return recovered;
      }
      r := Thrown(e);
    }

    /** `write`: the record as the object mapper serialises it, `json`, is
        written with a trailing newline; the counter, the checkpoint and the
        backup follow.  Any `IOException` on the way goes through the
        `catch` block, from the state the `try` block reached when it
        failed: the writer's state as it was for a failure before writing,
        and the advanced log and counter for a failing checkpoint or backup,
        with the checkpoint file still stale or already rewritten. */
    method Write(json: seq<byte>, fault: WriteFault, env: WriteEnv) returns (r: Outcome)
      modifies this`files, this`logFile, this`output, this`lockHeld, this`filePosition, this`checkpointFile
      ensures r.Done? <==> fault.NoFault? && old(output).Writing?
      ensures fault.NoFault? && old(output).Writing? ==>
        var data := json + [NewLine];
        LogFilePath in files &&
        files == old(files)[LogFilePath := files[LogFilePath]][BackupPath := files[LogFilePath]] &&
        files[LogFilePath] == WriteAt(if LogFilePath in old(files) then old(files)[LogFilePath] else [], old(output).position, data) &&
        output == Writing(old(output).position + |data|) && filePosition == old(filePosition) + |data| &&
        checkpointFile == Stored(Current(filePosition, env.now)) &&
        logFile == old(logFile) && lockHeld == old(lockHeld)
      ensures fault.NoFault? && old(Appending()) ==>
        Appending() && files[LogFilePath] == old(files)[LogFilePath] + json + [NewLine] && files[BackupPath] == files[LogFilePath]
      ensures !fault.SerializationFails? && old(output).NoOutput? ==> r == Thrown(NullPointerException) && unchanged(this)
      ensures FailsBeforeWriting(fault, old(output)) ==>
        checkpointFile == old(checkpointFile) &&
        CatchBlock(EarlyFailure(fault, old(output)), env, checkpointFile,
                   old(logFile), old(files), old(output), old(lockHeld), old(filePosition),
                   r, logFile, files, output, lockHeld, filePosition)
      ensures (fault.CheckpointFails? || fault.BackupFails?) && old(output).Writing? ==>
        var data := json + [NewLine];
        var written := WriteAt(if LogFilePath in old(files) then old(files)[LogFilePath] else [], old(output).position, data);
        var position := old(filePosition) + |data|;
        checkpointFile == (if fault.CheckpointFails? then old(checkpointFile) else Stored(Current(position, env.now))) &&
        CatchBlock(IOException(fault.message), env, checkpointFile,
                   old(logFile), old(files)[LogFilePath := written], Writing(old(output).position + |data|), old(lockHeld), position,
                   r, logFile, files, output, lockHeld, filePosition)
    {
      var outcome, failure := AppendRecord(json, fault, env.now);
      if outcome.Thrown? {
        return outcome;
      }
      if failure.None? {
        if old(Appending()) {
          WriteAtEnd(old(files)[LogFilePath], json + [NewLine]);
        }
        return Done;
      }
      r := OnWriteFailure(failure.value, env);
    }
  }
}
