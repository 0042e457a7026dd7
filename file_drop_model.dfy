/**
 * The lock / metadata / unlock protocol of the file-drop metadata job, as
 * values. One function per slot gives the job's new fields and what it emits;
 * `Step` dispatches a reply to its slot and `Run` plays a sequence of them.
 * The class in FileDropJob is proved to make exactly these transitions, and
 * the lemmas here say what every run of the job does.
 *
 * The network jobs the slots start are not modelled: each reply is an input
 * event. The job waits for one reply at a time (`pending`); a reply that is
 * not the awaited one is never delivered, since no slot is connected to it.
 */
module FileDropModel {

  type Bytes = seq<bv8>

  /** The propagator job's life cycle. */
  datatype JobState = NotYetStarted | Running | Finished

  /** The item status the job reports with `finished`. */
  datatype Status = Success | NormalError

  /** What the folder metadata was built from: a downloaded document, or a fresh empty one. */
  datatype MetadataSource = Downloaded(json: Bytes) | EmptyMetadata

  /** The job's folder metadata object: its source and the HTTP status it came with. */
  datatype Metadata = Metadata(source: MetadataSource, statusCode: int)

  /** The network requests the job starts. */
  datatype Request =
    | ListFolder(path: string)
    | LockFolder(fileId: Bytes)
    | FetchMetadata(folderId: Bytes)
    | UploadMetadata(folderId: Bytes, metadata: Metadata, token: Bytes)
    | UnlockFolder(folderId: Bytes, token: Bytes)

  /** Which reply the job is waiting for. */
  datatype Pending = Idle | Listing | Locking | Fetching | Uploading | Unlocking

  /** What a slot makes observable: a request started, or a signal emitted. */
  datatype Effect =
    | Send(request: Request)
    | FolderUnlocked(folderId: Bytes, httpStatus: int)
    | Finish(status: Status)

  /** Being scheduled, or one reply of a network job. */
  datatype Event =
    | Schedule
    | IdReceived(fileId: Bytes)
    | IdError
    | LockSucceeded(fileId: Bytes, token: Bytes)
    | LockFailed(fileId: Bytes, httpErrorCode: int)
    | MetadataReceived(json: Bytes, statusCode: int, moveSucceeds: bool)
    | MetadataFailed(fileId: Bytes, httpReturnCode: int, moveSucceeds: bool)
    | UpdateSucceeded(fileId: Bytes)
    | UpdateFailed(fileId: Bytes, httpErrorResponse: int)
    | UnlockSucceeded(folderId: Bytes)
    | UnlockFailed(folderId: Bytes, httpStatus: int)

  /** The job's fields, and the reply it waits for. */
  datatype Job = Job(
    state: JobState,
    path: string,
    currentLockingInProgress: bool,
    isUnlockRunning: bool,
    isFolderLocked: bool,
    folderToken: Bytes,
    folderId: Bytes,
    metadata: Option<Metadata>,
    pending: Pending)

  datatype Option<T> = None | Some(value: T)

  /** The job's new fields and what it emitted on the way there. */
  datatype Transition = Transition(next: Job, effects: seq<Effect>)

  /** A freshly constructed job for `path`. */
  function Init(path: string): (j: Job)
    ensures j.state == NotYetStarted && j.path == path
    ensures !j.currentLockingInProgress && !j.isUnlockRunning && !j.isFolderLocked
    ensures j.folderToken == [] && j.folderId == [] && j.metadata == None
    ensures Inv(j)
  {
    Job(NotYetStarted, path, false, false, false, [], [], None, Idle)
  }

  /** The reply that arrives for the job's pending request, if any. */
  predicate Delivered(j: Job, e: Event) {
    match e
    case Schedule => true
    case IdReceived(_) => j.pending == Listing
    case IdError => j.pending == Listing
    case LockSucceeded(_, _) => j.pending == Locking
    case LockFailed(_, _) => j.pending == Locking
    case MetadataReceived(_, _, _) => j.pending == Fetching
    case MetadataFailed(_, _, _) => j.pending == Fetching
    case UpdateSucceeded(_) => j.pending == Uploading
    case UpdateFailed(_, _) => j.pending == Uploading
    case UnlockSucceeded(_) => j.pending == Unlocking
    case UnlockFailed(_, _) => j.pending == Unlocking
  }

  // ---------------------------------------------------------------------
  // One function per slot
  // ---------------------------------------------------------------------

  /** Whether `scheduleSelfOrChild` reports the job as still to be run. */
  function Scheduled(j: Job): bool {
    j.state != Finished
  }

  /** `start`: ask for the folder listing that carries the folder's id. */
  function Start(j: Job): Transition {
    Transition(j.(pending := Listing), [Send(ListFolder(j.path))])
  }

  /** `scheduleSelfOrChild`: the first call starts the job. */
  function OnSchedule(j: Job): Transition {
    if j.state == NotYetStarted then Start(j.(state := Running))
    else Transition(j, [])
  }

  /** `slotTryLock`: ask to lock the folder. */
  function TryLock(j: Job, fileId: Bytes): Transition {
    Transition(j.(pending := Locking), [Send(LockFolder(fileId))])
  }

  /** `slotFolderEncryptedIdReceived`: lock the folder whose id the listing gave. */
  function OnIdReceived(j: Job, fileId: Bytes): Transition {
    TryLock(j, fileId)
  }

  /** `slotFolderEncryptedIdError`: nothing but a log line. */
  function OnIdError(j: Job): Transition {
    Transition(j.(pending := Idle), [])
  }

  /** `slotFolderLockedSuccessfully`: record the lock, then fetch the metadata. */
  function OnLockSucceeded(j: Job, fileId: Bytes, token: Bytes): Transition {
    var k := j.(currentLockingInProgress := true, folderToken := token, folderId := fileId,
                isFolderLocked := true);
    Transition(k.(pending := Fetching), [Send(FetchMetadata(k.folderId))])
  }

  /** `slotFolderLockedError`: give up with an error. */
  function OnLockFailed(j: Job): Transition {
    Transition(j.(pending := Idle), [Finish(NormalError)])
  }

  /**
   * `unlockFolder`: finish at once if the folder is not locked, ignore a
   * second call while an unlock runs, otherwise ask to unlock.
   */
  function RequestUnlock(j: Job): Transition {
    if !j.isFolderLocked then Transition(j, [Finish(Success)])
    else if j.isUnlockRunning then Transition(j, [])
    else Transition(j.(isUnlockRunning := true, pending := Unlocking),
                    [Send(UnlockFolder(j.folderId, j.folderToken))])
  }

  /**
   * `slotFolderEncryptedMetadataReceived`: keep the metadata; unlock if the
   * file drop cannot be moved into it, otherwise upload it.
   */
  function OnMetadataReceived(j: Job, source: MetadataSource, statusCode: int, moveSucceeds: bool): Transition {
    var m := Metadata(source, statusCode);
    var k := j.(metadata := Some(m), pending := Idle);
    if !moveSucceeds then RequestUnlock(k)
    else Transition(k.(pending := Uploading), [Send(UploadMetadata(k.folderId, m, k.folderToken))])
  }

  /** `slotFolderEncryptedMetadataError`: carry on as if empty metadata had arrived. */
  function OnMetadataFailed(j: Job, httpReturnCode: int, moveSucceeds: bool): Transition {
    OnMetadataReceived(j, EmptyMetadata, httpReturnCode, moveSucceeds)
  }

  /** `slotUpdateMetadataSuccess` and `slotUpdateMetadataError`: unlock either way. */
  function OnUpdateDone(j: Job): Transition {
    RequestUnlock(j.(pending := Idle))
  }

  /** The unlock job's success reply: forget the lock and finish successfully. */
  function OnUnlockSucceeded(j: Job, folderId: Bytes): Transition {
    Transition(j.(folderToken := [], folderId := [], isFolderLocked := false,
                  isUnlockRunning := false, pending := Idle),
               [FolderUnlocked(folderId, 200), Finish(Success)])
  }

  /** The unlock job's error reply: the unlock is over, the lock is still recorded. */
  function OnUnlockFailed(j: Job, folderId: Bytes, httpStatus: int): Transition {
    Transition(j.(isUnlockRunning := false, pending := Idle),
               [FolderUnlocked(folderId, httpStatus), Finish(NormalError)])
  }

  /** The slot that handles `e`, when `e` is delivered; otherwise nothing happens. */
  function Step(j: Job, e: Event): Transition {
    if !Delivered(j, e) then Transition(j, [])
    else match e
      case Schedule => OnSchedule(j)
      case IdReceived(fileId) => OnIdReceived(j, fileId)
      case IdError => OnIdError(j)
      case LockSucceeded(fileId, token) => OnLockSucceeded(j, fileId, token)
      case LockFailed(_, _) => OnLockFailed(j)
      case MetadataReceived(json, code, ok) => OnMetadataReceived(j, Downloaded(json), code, ok)
      case MetadataFailed(_, code, ok) => OnMetadataFailed(j, code, ok)
      case UpdateSucceeded(_) => OnUpdateDone(j)
      case UpdateFailed(_, _) => OnUpdateDone(j)
      case UnlockSucceeded(folderId) => OnUnlockSucceeded(j, folderId)
      case UnlockFailed(folderId, status) => OnUnlockFailed(j, folderId, status)
  }

  /** The events one after another: the final fields and everything emitted. */
  function Run(j: Job, events: seq<Event>): Transition
    decreases |events|
  {
    if events == [] then Transition(j, [])
    else
      var t := Step(j, events[0]);
      var rest := Run(t.next, events[1..]);
      Transition(rest.next, t.effects + rest.effects)
  }

  // ---------------------------------------------------------------------
  // The job's invariant
  // ---------------------------------------------------------------------

  /**
   * What holds between the fields of every job the slots can reach: an unlock
   * is running exactly while its reply is awaited; the lock is held while the
   * metadata is fetched, uploaded and unlocked; a recorded lock was set by the
   * lock slot; a job not yet started waits for nothing.
   */
  ghost predicate Inv(j: Job) {
    && (j.isUnlockRunning <==> j.pending == Unlocking)
    && (j.pending in {Fetching, Uploading, Unlocking} ==> j.isFolderLocked)
    && (j.isFolderLocked ==> j.currentLockingInProgress)
    && (j.pending == Uploading ==> j.metadata.Some?)
    && (j.state == NotYetStarted ==> j.pending == Idle && !j.isFolderLocked)
  }

  /** A job that has stopped waiting: it has started and awaits no reply. */
  ghost predicate Quiescent(j: Job) {
    j.state != NotYetStarted && j.pending == Idle
  }

  lemma StepPreservesInv(j: Job, e: Event)
    requires Inv(j)
    ensures Inv(Step(j, e).next)
  {
  }

  lemma {:induction false} RunPreservesInv(j: Job, events: seq<Event>)
    requires Inv(j)
    ensures Inv(Run(j, events).next)
    decreases |events|
  {
    if events != [] {
      StepPreservesInv(j, events[0]);
      RunPreservesInv(Step(j, events[0]).next, events[1..]);
    }
  }

  /**
   * `ASSERT(!_isUnlockRunning)` in `unlockFolder`: every slot that calls it
   * does so while no unlock runs and the folder is locked, so the call always
   * starts the unlock request (neither early exit is taken).
   */
  lemma UnlockCalledOnlyWhenLockedAndIdle(j: Job, e: Event)
    requires Inv(j) && Delivered(j, e)
    requires e.MetadataReceived? || e.MetadataFailed? || e.UpdateSucceeded? || e.UpdateFailed?
    ensures !j.isUnlockRunning && j.isFolderLocked
    ensures (e.MetadataReceived? || e.MetadataFailed?) && !e.moveSucceeds ==>
            Step(j, e).effects == [Send(UnlockFolder(j.folderId, j.folderToken))]
    ensures (e.UpdateSucceeded? || e.UpdateFailed?) ==>
            Step(j, e).effects == [Send(UnlockFolder(j.folderId, j.folderToken))]
  {
  }

  // ---------------------------------------------------------------------
  // What every run does
  // ---------------------------------------------------------------------

  /** A quiescent job stays exactly as it is and emits nothing, whatever arrives. */
  lemma {:induction false} QuiescentIsSilent(j: Job, events: seq<Event>)
    requires Quiescent(j)
    ensures Run(j, events) == Transition(j, [])
    decreases |events|
  {
    if events != [] {
      assert Step(j, events[0]) == Transition(j, []);
      QuiescentIsSilent(j, events[1..]);
    }
  }

  function CountFinish(effects: seq<Effect>): (n: nat)
    ensures n <= |effects|
    decreases |effects|
  {
    if effects == [] then 0
    else (if effects[0].Finish? then 1 else 0) + CountFinish(effects[1..])
  }

  function CountUnlockRequests(effects: seq<Effect>): (n: nat)
    ensures n <= |effects|
    decreases |effects|
  {
    if effects == [] then 0
    else (if effects[0].Send? && effects[0].request.UnlockFolder? then 1 else 0)
         + CountUnlockRequests(effects[1..])
  }

  lemma {:induction false} CountFinishAppend(a: seq<Effect>, b: seq<Effect>)
    ensures CountFinish(a + b) == CountFinish(a) + CountFinish(b)
    decreases |a|
  {
    if a != [] {
      assert (a + b)[0] == a[0];
      assert (a + b)[1..] == a[1..] + b;
      CountFinishAppend(a[1..], b);
    } else {
      assert a + b == b;
    }
  }

  lemma {:induction false} CountUnlockRequestsAppend(a: seq<Effect>, b: seq<Effect>)
    ensures CountUnlockRequests(a + b) == CountUnlockRequests(a) + CountUnlockRequests(b)
    decreases |a|
  {
    if a != [] {
      assert (a + b)[0] == a[0];
      assert (a + b)[1..] == a[1..] + b;
      CountUnlockRequestsAppend(a[1..], b);
    } else {
      assert a + b == b;
    }
  }

  /** A single slot emits `finished` at most once, and only on its way to quiescence. */
  lemma StepFinish(j: Job, e: Event)
    requires Inv(j)
    ensures CountFinish(Step(j, e).effects) <= 1
    ensures CountFinish(Step(j, e).effects) == 1 ==> Quiescent(Step(j, e).next)
    ensures Quiescent(j) ==> Quiescent(Step(j, e).next)
  {
  }

  lemma {:induction false} RunFinish(j: Job, events: seq<Event>)
    requires Inv(j)
    ensures CountFinish(Run(j, events).effects) <= (if Quiescent(j) then 0 else 1)
    decreases |events|
  {
    if events != [] {
      var t := Step(j, events[0]);
      StepFinish(j, events[0]);
      StepPreservesInv(j, events[0]);
      RunFinish(t.next, events[1..]);
      CountFinishAppend(t.effects, Run(t.next, events[1..]).effects);
      if Quiescent(j) {
        QuiescentIsSilent(j, events);
      }
    }
  }

  /** Whatever replies arrive, the job emits `finished` at most once. */
  lemma FinishedAtMostOnce(path: string, events: seq<Event>)
    ensures CountFinish(Run(Init(path), events).effects) <= 1
  {
    RunFinish(Init(path), events);
  }

  /** A single slot starts at most one unlock, and only from a job that can still start one. */
  lemma StepUnlock(j: Job, e: Event)
    requires Inv(j)
    ensures CountUnlockRequests(Step(j, e).effects) <= (if Quiescent(j) || j.pending == Unlocking then 0 else 1)
    ensures CountUnlockRequests(Step(j, e).effects) == 1 ==> Step(j, e).next.pending == Unlocking
    ensures j.pending == Unlocking ==> Step(j, e).next.pending == Unlocking || Quiescent(Step(j, e).next)
    ensures Quiescent(j) ==> Quiescent(Step(j, e).next)
  {
  }

  lemma {:induction false} RunUnlock(j: Job, events: seq<Event>)
    requires Inv(j)
    ensures CountUnlockRequests(Run(j, events).effects) <= (if Quiescent(j) || j.pending == Unlocking then 0 else 1)
    decreases |events|
  {
    if events != [] {
      var t := Step(j, events[0]);
      StepUnlock(j, events[0]);
      StepPreservesInv(j, events[0]);
      RunUnlock(t.next, events[1..]);
      CountUnlockRequestsAppend(t.effects, Run(t.next, events[1..]).effects);
    }
  }

  /** No double unlock: whatever replies arrive, the job asks to unlock the folder at most once. */
  lemma AtMostOneUnlockRequest(path: string, events: seq<Event>)
    ensures CountUnlockRequests(Run(Init(path), events).effects) <= 1
  {
    RunUnlock(Init(path), events);
  }

  /**
   * A failed folder-id lookup stalls the job: after it, whatever else
   * arrives, the job has sent only the listing request and never finishes.
   */
  lemma {:induction false} IdLookupFailureNeverFinishes(path: string, events: seq<Event>)
    ensures Run(Init(path), [Schedule, IdError] + events).effects == [Send(ListFolder(path))]
    ensures CountFinish(Run(Init(path), [Schedule, IdError] + events).effects) == 0
  {
    var j0 := Init(path);
    var j1 := Step(j0, Schedule).next;
    var j2 := Step(j1, IdError).next;
    assert Quiescent(j2);
    QuiescentIsSilent(j2, events);
    var all := [Schedule, IdError] + events;
    assert all[1..] == [IdError] + events;
    assert ([IdError] + events)[1..] == events;
    assert Run(j1, [IdError] + events) == Transition(j2, []);
    assert Run(j0, all) == Transition(j2, [Send(ListFolder(path))]);
  }

  /** A slot that finishes successfully leaves the folder unlocked. */
  lemma StepSuccessUnlocks(j: Job, e: Event)
    requires Inv(j)
    ensures Finish(Success) in Step(j, e).effects ==> !Step(j, e).next.isFolderLocked
  {
  }

  lemma {:induction false} RunSuccessUnlocks(j: Job, events: seq<Event>)
    requires Inv(j)
    ensures Finish(Success) in Run(j, events).effects ==> !Run(j, events).next.isFolderLocked
    decreases |events|
  {
    if events != [] {
      var t := Step(j, events[0]);
      StepPreservesInv(j, events[0]);
      StepSuccessUnlocks(j, events[0]);
      StepFinish(j, events[0]);
      RunSuccessUnlocks(t.next, events[1..]);
      if Finish(Success) in t.effects {
        assert CountFinish(t.effects) >= 1 by {
          FinishCounted(t.effects, Finish(Success));
        }
        QuiescentIsSilent(t.next, events[1..]);
      }
    }
  }

  lemma {:induction false} FinishCounted(effects: seq<Effect>, f: Effect)
    requires f in effects && f.Finish?
    ensures CountFinish(effects) >= 1
    decreases |effects|
  {
    if effects[0] != f {
      FinishCounted(effects[1..], f);
    }
  }

  /** A job that reports success has released the folder lock, on every run. */
  lemma SuccessLeavesFolderUnlocked(path: string, events: seq<Event>)
    ensures Finish(Success) in Run(Init(path), events).effects ==>
            !Run(Init(path), events).next.isFolderLocked
  {
    RunSuccessUnlocks(Init(path), events);
  }

  /** The path is set at construction and no slot changes it. */
  lemma {:induction false} PathNeverChanges(j: Job, events: seq<Event>)
    ensures Run(j, events).next.path == j.path
    decreases |events|
  {
    if events != [] {
      PathNeverChanges(Step(j, events[0]).next, events[1..]);
    }
  }
}
