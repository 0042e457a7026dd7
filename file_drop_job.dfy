/**
 * The file-drop metadata job as an object: its fields are updated in place by
 * its slots, and each slot returns what it makes observable (the network
 * request it starts, the signals it emits). Every slot is proved to make the
 * transition FileDropModel gives for it, and to keep the job's invariant; the
 * lemmas of FileDropModel then say what any sequence of slots does.
 *
 * A slot that handles a network reply requires that this reply is the one the
 * job waits for (`pending`): it is connected only to the job it started.
 */
module FileDropJob {

  import opened FileDropModel

  class UpdateFileDropMetadataJob {
    var state: JobState
    const path: string
    var currentLockingInProgress: bool
    var isUnlockRunning: bool
    var isFolderLocked: bool
    var folderToken: Bytes
    var folderId: Bytes
    var metadata: Option<Metadata>
    /** The network job whose reply the job waits for. */
    ghost var pending: Pending

    /** The job's fields as a value. */
    ghost function Model(): Job
      reads this
    {
      Job(state, path, currentLockingInProgress, isUnlockRunning, isFolderLocked,
          folderToken, folderId, metadata, pending)
    }

    ghost predicate Valid()
      reads this
    {
      Inv(Model())
    }

    /** A new job for `path`: not started, not locked, no unlock running, no metadata. */
    constructor (path: string)
      ensures Valid() && Model() == Init(path)
      ensures state == NotYetStarted && this.path == path
      ensures !currentLockingInProgress && !isUnlockRunning && !isFolderLocked
      ensures folderToken == [] && folderId == [] && metadata == None
    {
      state := NotYetStarted;
      this.path := path;
      currentLockingInProgress := false;
      isUnlockRunning := false;
      isFolderLocked := false;
      folderToken := [];
      folderId := [];
      metadata := None;
      pending := Idle;
    }

    /**
     * `scheduleSelfOrChild`: a finished job declines; a job not yet started
     * starts running and asks for the folder's id; a running job is left as
     * it is. Every job but a finished one reports that it is still to be run.
     */
    method ScheduleSelfOrChild() returns (scheduled: bool, effects: seq<Effect>)
      requires Valid()
      modifies this
      ensures Valid()
      ensures scheduled == Scheduled(old(Model()))
      ensures old(state) == NotYetStarted ==>
                state == Running && effects == [Send(ListFolder(path))] && pending == Listing
      ensures old(state) != NotYetStarted ==> Model() == old(Model()) && effects == []
      ensures Transition(Model(), effects) == Step(old(Model()), Schedule)
    {
      if state == Finished {
        return false, [];
      }
      effects := [];
      if state == NotYetStarted {
        state := Running;
        effects := Start();
      }
      scheduled := true;
    }

    /** `start`: asks for the folder listing that carries the folder's id. */
    method Start() returns (effects: seq<Effect>)
      requires Valid() && state == Running && pending == Idle
      modifies this
      ensures Valid()
      ensures effects == [Send(ListFolder(path))]
      ensures Transition(Model(), effects) == FileDropModel.Start(old(Model()))
    {
      pending := Listing;
      effects := [Send(ListFolder(path))];
    }

    /** `slotFolderEncryptedIdReceived`: asks to lock the folder with the id the listing gave. */
    method FolderEncryptedIdReceived(fileId: Bytes) returns (effects: seq<Effect>)
      requires Valid() && pending == Listing
      modifies this
      ensures Valid()
      ensures effects == [Send(LockFolder(fileId))]
      ensures Transition(Model(), effects) == Step(old(Model()), IdReceived(fileId))
    {
      effects := TryLock(fileId);
    }

    /** `slotTryLock`: asks to lock the folder; no field of the source changes. */
    method TryLock(fileId: Bytes) returns (effects: seq<Effect>)
      requires Valid() && pending == Listing
      modifies this
      ensures Valid()
      ensures effects == [Send(LockFolder(fileId))]
      ensures Transition(Model(), effects) == FileDropModel.TryLock(old(Model()), fileId)
    {
      pending := Locking;
      effects := [Send(LockFolder(fileId))];
    }

    /**
     * `slotFolderEncryptedIdError`: only logs. No field changes and nothing is
     * emitted, so the job never finishes.
     */
    method FolderEncryptedIdError() returns (effects: seq<Effect>)
      requires Valid() && pending == Listing
      modifies this
      ensures Valid()
      ensures effects == []
      ensures Model() == old(Model()).(pending := Idle)
      ensures Transition(Model(), effects) == Step(old(Model()), IdError)
    {
      pending := Idle;
      effects := [];
    }

    /**
     * `slotFolderLockedSuccessfully`: records the lock (in progress, locked,
     * with the returned token and folder id) and asks for the metadata.
     */
    method FolderLockedSuccessfully(fileId: Bytes, token: Bytes) returns (effects: seq<Effect>)
      requires Valid() && pending == Locking
      modifies this
      ensures Valid()
      ensures currentLockingInProgress && isFolderLocked
      ensures folderToken == token && folderId == fileId
      ensures state == old(state) && isUnlockRunning == old(isUnlockRunning) && metadata == old(metadata)
      ensures effects == [Send(FetchMetadata(fileId))]
      ensures Transition(Model(), effects) == Step(old(Model()), LockSucceeded(fileId, token))
    {
      currentLockingInProgress := true;
      folderToken := token;
      folderId := fileId;
      isFolderLocked := true;
      pending := Fetching;
      effects := [Send(FetchMetadata(folderId))];
    }

    /** `slotFolderLockedError`: finishes with an error; no lock field changes. */
    method FolderLockedError(fileId: Bytes, httpErrorCode: int) returns (effects: seq<Effect>)
      requires Valid() && pending == Locking
      modifies this
      ensures Valid()
      ensures effects == [Finish(NormalError)]
      ensures Model() == old(Model()).(pending := Idle)
      ensures Transition(Model(), effects) == Step(old(Model()), LockFailed(fileId, httpErrorCode))
    {
      pending := Idle;
      effects := [Finish(NormalError)];
    }

    /**
     * `slotFolderEncryptedMetadataError`: not an end of the job; it goes on as
     * `slotFolderEncryptedMetadataReceived` with empty metadata and the same
     * status code.
     */
    method FolderEncryptedMetadataError(fileId: Bytes, httpReturnCode: int, moveSucceeds: bool)
      returns (effects: seq<Effect>)
      requires Valid() && pending == Fetching
      modifies this
      ensures Valid()
      ensures metadata == Some(Metadata(EmptyMetadata, httpReturnCode))
      ensures Transition(Model(), effects) == Step(old(Model()), MetadataFailed(fileId, httpReturnCode, moveSucceeds))
    {
      effects := FolderEncryptedMetadataReceived(EmptyMetadata, httpReturnCode, moveSucceeds);
    }

    /**
     * `slotFolderEncryptedMetadataReceived`: keeps the metadata. When the file
     * drop cannot be moved into it, no update is requested and the folder is
     * unlocked at once; otherwise the updated metadata is uploaded under the
     * lock's token. `moveSucceeds` is the outcome of `moveFileDropToFiles`.
     */
    method FolderEncryptedMetadataReceived(source: MetadataSource, statusCode: int, moveSucceeds: bool)
      returns (effects: seq<Effect>)
      requires Valid() && pending == Fetching
      modifies this
      ensures Valid()
      ensures metadata == Some(Metadata(source, statusCode))
      ensures !moveSucceeds ==> effects == [Send(Request.UnlockFolder(old(folderId), old(folderToken)))]
      ensures moveSucceeds ==>
                effects == [Send(UploadMetadata(folderId, Metadata(source, statusCode), folderToken))]
      ensures Transition(Model(), effects) == OnMetadataReceived(old(Model()), source, statusCode, moveSucceeds)
    {
      metadata := Some(Metadata(source, statusCode));
      pending := Idle;
      if !moveSucceeds {
        effects := UnlockFolder();
        return;
      }
      pending := Uploading;
      effects := [Send(UploadMetadata(folderId, metadata.value, folderToken))];
    }

    /** `slotUpdateMetadataSuccess`: unlocks the folder. */
    method UpdateMetadataSuccess(fileId: Bytes) returns (effects: seq<Effect>)
      requires Valid() && pending == Uploading
      modifies this
      ensures Valid()
      ensures effects == [Send(Request.UnlockFolder(folderId, folderToken))] && isUnlockRunning
      ensures Transition(Model(), effects) == Step(old(Model()), UpdateSucceeded(fileId))
    {
      pending := Idle;
      effects := UnlockFolder();
    }

    /** `slotUpdateMetadataError`: unlocks the folder, as on success. */
    method UpdateMetadataError(fileId: Bytes, httpErrorResponse: int) returns (effects: seq<Effect>)
      requires Valid() && pending == Uploading
      modifies this
      ensures Valid()
      ensures effects == [Send(Request.UnlockFolder(folderId, folderToken))] && isUnlockRunning
      ensures Transition(Model(), effects) == Step(old(Model()), UpdateFailed(fileId, httpErrorResponse))
    {
      pending := Idle;
      effects := UnlockFolder();
    }

    /**
     * `unlockFolder`, which asserts that no unlock is running. A folder that
     * is not locked finishes the job with success and no request; a locked
     * one gets an unlock request under its id and token. The source's guard
     * against a second call while an unlock runs cannot fire under the
     * assertion, so it has no branch here.
     */
    method UnlockFolder() returns (effects: seq<Effect>)
      requires Valid() && pending == Idle
      requires !isUnlockRunning
      modifies this
      ensures Valid()
      ensures !old(isFolderLocked) ==> Model() == old(Model()) && effects == [Finish(Success)]
      ensures old(isFolderLocked) ==>
                isUnlockRunning && pending == Unlocking &&
                effects == [Send(Request.UnlockFolder(folderId, folderToken))]
      ensures Transition(Model(), effects) == RequestUnlock(old(Model()))
    {
      if !isFolderLocked {
        return [Finish(Success)];
      }
      isUnlockRunning := true;
      pending := Unlocking;
      effects := [Send(Request.UnlockFolder(folderId, folderToken))];
    }

    /**
     * The unlock job's success reply: clears token, folder id, the lock and
     * the running unlock, then reports the unlock and finishes with success.
     */
    method UnlockSucceeded(unlockedId: Bytes) returns (effects: seq<Effect>)
      requires Valid() && pending == Unlocking
      modifies this
      ensures Valid()
      ensures folderToken == [] && folderId == [] && !isFolderLocked && !isUnlockRunning
      ensures effects == [FolderUnlocked(unlockedId, 200), Finish(Success)]
      ensures Transition(Model(), effects) == Step(old(Model()), Event.UnlockSucceeded(unlockedId))
    {
      folderToken := [];
      folderId := [];
      isFolderLocked := false;
      effects := [FolderUnlocked(unlockedId, 200)];
      isUnlockRunning := false;
      pending := Idle;
      effects := effects + [Finish(Success)];
    }

    /**
     * The unlock job's error reply: only the running unlock is cleared; the
     * folder stays recorded as locked with its token and id, and the job
     * finishes with an error.
     */
    method UnlockFailed(unlockedId: Bytes, httpStatus: int) returns (effects: seq<Effect>)
      requires Valid() && pending == Unlocking
      modifies this
      ensures Valid()
      ensures !isUnlockRunning && isFolderLocked
      ensures folderToken == old(folderToken) && folderId == old(folderId)
      ensures effects == [FolderUnlocked(unlockedId, httpStatus), Finish(NormalError)]
      ensures Transition(Model(), effects) == Step(old(Model()), Event.UnlockFailed(unlockedId, httpStatus))
    {
      effects := [FolderUnlocked(unlockedId, httpStatus)];
      isUnlockRunning := false;
      pending := Idle;
      effects := effects + [Finish(NormalError)];
    }
  }
}
