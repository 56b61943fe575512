/**
 * The stage (recall) task: a two-phase state machine that asks the ENDIT
 * daemon to recall a file by writing a request record, waits for the
 * daemon to produce the in-file, and finally moves it into the pool.
 * The `start` phase only waits for the in-file to appear; the `complete`
 * phase waits for it to reach its full size, removes the request, waits
 * out a grace period and then moves the file.  An error file written by
 * the daemon fails either phase and removes all three protocol files.
 */
module Stage {
  import opened Wrappers
  import opened Files
  import opened Tasks

  /** Milliseconds between the in-file reaching its size and its move. */
  const GracePeriod: nat := 1000

  const RecallAction: string := "recall"

  /** The diagnostics of a poll on a task that was neither started nor completed. */
  const NotStarted: seq<string> :=
    ["Internal ENDIT provider bug.", "StageTask: neither start() nor complete() called before poll()."]

  /** The four paths a stage task acts on. */
  datatype Layout = Layout(file: Path, inFile: Path, errorFile: Path, requestFile: Path)
  {
    /** No two of the paths coincide. */
    predicate Separate() {
      && inFile != errorFile && inFile != requestFile && errorFile != requestFile
      && file != inFile && file != errorFile && file != requestFile
    }
  }

  /** The mutable fields of a stage task. */
  datatype Flags = Flags(delayUntil: int, doStart: bool, doComplete: bool, doWatch: bool)
  {
    /**
     * At most one phase is ever entered, only the start phase can be
     * watched, and the grace deadline is either unarmed (-1) or was armed
     * in the complete phase from a non-negative clock.
     */
    predicate Valid() {
      && !(doStart && doComplete)
      && doWatch == doStart
      && (delayUntil == -1 || (doComplete && delayUntil >= GracePeriod))
    }
  }

  /** The reply of one poll, and the flags and files it leaves behind. */
  datatype Step = Step(reply: Reply<bool>, flags: Flags, fs: FileMap)

  /** The in-file is present as a regular file of the expected size. */
  predicate Arrived(l: Layout, size: nat, fs: FileMap) {
    IsRegularFile(fs, l.inFile) && fs[l.inFile].size == size
  }

  /** The failure a poll raises when it finds the error file. */
  function ErrorFileFailure(l: Layout, fs: FileMap): (e: Error)
    // The daemon's diagnostics when the error file is readable text, and
    // otherwise the I/O failure of reading it.
    ensures e.Endit? || e == IoError(l.errorFile)
    ensures e.Endit? <==> IsRegularFile(fs, l.errorFile) && fs[l.errorFile].content.Lines?
    ensures e.Endit? ==> e.lines == fs[l.errorFile].content.lines
  {
    var lines := ReadAllLines(fs, l.errorFile);
    if lines.Some? then Endit(lines.value) else IoError(l.errorFile)
  }

  /** What `StageTask.poll` does at time `now`. */
  function PollStep(l: Layout, size: nat, f: Flags, fs: FileMap, now: nat): (r: Step)
    // An error file fails the stage task with its lines (or with the read failure),
    // and afterwards none of the in-file, error file and request file exists.
    ensures l.errorFile in fs ==>
      && r.reply == Thrown(ErrorFileFailure(l, fs))
      && r.fs == fs - {l.inFile, l.errorFile, l.requestFile}
      && r.flags == f
    // A task that entered no phase reports the internal bug and touches nothing.
    ensures l.errorFile !in fs && !f.doStart && !f.doComplete ==>
      r == Step(Thrown(Endit(NotStarted)), f, fs)
    // The start phase only looks: it is done exactly when the in-file exists.
    ensures l.errorFile !in fs && f.doStart ==>
      && r.fs == fs && r.flags == f
      && r.reply == (if IsRegularFile(fs, l.inFile) then Value(true) else Null)
    // The complete phase never answers before the in-file has its size.
    ensures l.errorFile !in fs && !f.doStart && f.doComplete && !Arrived(l, size, fs) ==>
      r == Step(Null, f, fs)
    // The first time it has, the request is withdrawn and the deadline armed.
    ensures l.errorFile !in fs && !f.doStart && f.doComplete && Arrived(l, size, fs) && f.delayUntil < 0 ==>
      r == Step(Null, f.(delayUntil := now + GracePeriod), fs - {l.requestFile})
    // Success is only ever `true`, and in the complete phase it needs the
    // deadline to have passed and consists of moving the in-file into place.
    ensures r.reply.Value? ==> r.reply.value && l.errorFile !in fs && IsRegularFile(fs, l.inFile)
    ensures r.reply.Value? && !f.doStart ==>
      && Arrived(l, size, fs) && 0 <= f.delayUntil
      && f.delayUntil <= now
      && r.fs == Moved(fs, l.inFile, l.file) && r.flags == f
    // Only the arming poll changes a flag.
    ensures r.flags != f ==> f.delayUntil < 0 && r.flags == f.(delayUntil := now + GracePeriod)
    ensures f.Valid() ==> r.flags.Valid()
  {
    if l.errorFile in fs then
      Step(Thrown(ErrorFileFailure(l, fs)), f, fs - {l.inFile, l.errorFile, l.requestFile})
    else if f.doStart then
      Step(if IsRegularFile(fs, l.inFile) then Value(true) else Null, f, fs)
    else if f.doComplete then
      if Arrived(l, size, fs) then
        if f.delayUntil < 0 then
          Step(Null, f.(delayUntil := now + GracePeriod), fs - {l.requestFile})
        else if f.delayUntil > 0 && now < f.delayUntil then
          Step(Null, f, fs)
        else
          Step(Value(true), f, Moved(fs, l.inFile, l.file))
      else
        Step(Null, f, fs)
    else
      Step(Thrown(Endit(NotStarted)), f, fs)
  }

  type ChecksumValue = string

  class StageTask {
    const file: Path
    const inFile: Path
    const errorFile: Path
    const requestFile: Path
    const size: nat
    const storageClass: string
    const path: Option<string>
    /** The pool's process id, written into request records. */
    const pid: int

    var delayUntil: int
    var doStart: bool
    var doComplete: bool
    var doWatch: bool

    function Paths(): Layout {
      Layout(file, inFile, errorFile, requestFile)
    }

    function State(): Flags
      reads this
    {
      Flags(delayUntil, doStart, doComplete, doWatch)
    }

    ghost predicate Valid()
      reads this
    {
      Paths().Separate() && State().Valid()
    }

    /**
     * A task for pnfs id `id`, whose replica goes to `replica`.  The request
     * and error files live in `requestDir`, the in-file in `inDir`.
     */
    constructor (replica: Path, id: string, size: nat, storageClass: string, path: Option<string>,
                 pid: int, requestDir: Path, inDir: Path)
      requires requestDir != inDir
      requires replica != Child(inDir, id) && replica != Child(requestDir, id)
      requires replica != Child(requestDir, id + ".err")
      ensures Valid()
      ensures file == replica && inFile == Child(inDir, id)
      ensures errorFile == Child(requestDir, id + ".err") && requestFile == Child(requestDir, id)
      ensures this.size == size && this.storageClass == storageClass && this.path == path && this.pid == pid
      ensures delayUntil == -1 && !doStart && !doComplete && !CanWatch()
    {
      file := replica;
      this.size := size;
      inFile := Child(inDir, id);
      errorFile := Child(requestDir, id + ".err");
      requestFile := Child(requestDir, id);
      this.storageClass := storageClass;
      this.path := path;
      this.pid := pid;
      delayUntil := -1;
      doStart := false;
      doComplete := false;
      doWatch := false;
      assert |id + ".err"| == |id| + 4;
    }

    /** Whether the watcher may drive this task: exactly in the start phase. */
    function CanWatch(): (r: bool)
      reads this
      ensures State().Valid() ==> (r <==> doStart)
      ensures State().Valid() && r ==> !doComplete
    {
      doWatch
    }

    /** The paths whose creation may advance this task. */
    function FilesToWatch(): (r: seq<Path>)
      ensures |r| == 2 && r[0] == errorFile && r[1] == inFile
      ensures Paths().Separate() ==> r[0] != r[1] && requestFile !in r && file !in r
    {
      [errorFile, inFile]
    }

    /** The record `start` writes at time `now` (milliseconds). */
    function Request(now: nat): (r: RecallRequest)
      ensures r.fileSize == size && r.parentPid == pid && r.storageClass == storageClass && r.path == path
      ensures r.action == "recall"
      // The time is in whole seconds, rounded down from the milliseconds of `now`.
      ensures 0 <= r.time && r.time * 1000 <= now < r.time * 1000 + 1000
    {
      RecallRequest(size, pid, now / 1000, storageClass, RecallAction, path)
    }

    /** Begins the start phase; done at once if the data is already staged. */
    method Start(fs: FileSystem, now: nat) returns (r: Reply<bool>)
      requires Valid() && !doComplete
      modifies this, fs
      ensures Valid()
      ensures doStart && !doComplete && CanWatch() && delayUntil == old(delayUntil)
      ensures IsRegularFile(old(fs.entries), inFile) ==>
        r == Value(true) && fs.entries == old(fs.entries)
      ensures !IsRegularFile(old(fs.entries), inFile) ==>
        r == Null && fs.entries == old(fs.entries)[requestFile := Regular(0, Recall(Request(now)))]
    {
      doStart := true;
      doWatch := true;
      if IsRegularFile(fs.entries, inFile) {
        return Value(true);
      }
      fs.Write(requestFile, Regular(0, Recall(Request(now))));
      r := Null;
    }

    /** Begins the complete phase and polls once. */
    method Complete(fs: FileSystem, now: nat) returns (r: Reply<bool>)
      requires Valid() && !doStart
      modifies this, fs
      ensures Valid() && doComplete && !CanWatch()
      ensures Step(r, State(), fs.entries)
           == PollStep(Paths(), size, old(State()).(doComplete := true), old(fs.entries), now)
    {
      doComplete := true;
      r := Poll(fs, now);
    }

    method Poll(fs: FileSystem, now: nat) returns (r: Reply<bool>)
      requires Valid()
      modifies this, fs
      ensures Valid()
      ensures Step(r, State(), fs.entries) == PollStep(Paths(), size, old(State()), old(fs.entries), now)
    {
      if errorFile in fs.entries {
        // The lines are read first; the three files go whether or not that worked.
        var failure := ErrorFileFailure(Paths(), fs.entries);
        var deleted := fs.DeleteIfExists(inFile);
        deleted := fs.DeleteIfExists(errorFile);
        deleted := fs.DeleteIfExists(requestFile);
        return Thrown(failure);
      }
      if doStart {
        if IsRegularFile(fs.entries, inFile) {
          return Value(true);
        }
      } else if doComplete {
        if IsRegularFile(fs.entries, inFile) && fs.entries[inFile].size == size {
          if delayUntil < 0 {
            var deleted := fs.DeleteIfExists(requestFile);
            delayUntil := now + GracePeriod;
            return Null;
          }
          if delayUntil > 0 && now < delayUntil {
            return Null;
          }
          fs.AtomicMove(inFile, file);
          return Value(true);
        }
      } else {
        return Thrown(Endit(NotStarted));
      }
      r := Null;
    }

    /** No checksum is retained. */
    method Checksum() returns (r: set<ChecksumValue>)
      ensures r == {}
    {
      r := {};
    }

    /** Withdraws the request, keeping whatever the daemon already recalled. */
    method Abort(fs: FileSystem) returns (ok: bool)
      requires Valid()
      modifies fs
      ensures ok
      // The in-file is neither of these paths, so what was recalled stays.
      ensures fs.entries == old(fs.entries) - {requestFile, errorFile}
    {
      var deleted := fs.DeleteIfExists(requestFile);
      deleted := fs.DeleteIfExists(errorFile);
      ok := true;
    }
  }
}
