# File-drop metadata job and csync allocation helpers, in Dafny

This project models two small pieces of the desktop sync client.

**The csync allocation helpers** (`src/std/c_alloc.c`, module `CAlloc`,
file `c_alloc.dfy`). `c_calloc` and `c_malloc` refuse zero-sized requests
and otherwise hand out zero-filled memory. `c_realloc` wraps the C library's
`realloc`. `c_strdup` and `c_strndup` copy a C string into a fresh buffer.
Memory is an `array<char>` and NULL is `null`. A C string given by the
caller is a `seq<char>` without NUL (`IsCString`). A buffer read back as a
C string is measured by `StrLen`, the index of its first NUL. `StrCpy` and
`StrNCpy` model the C library's `strcpy` and `strncpy` as loops over the
array.

**The lock / metadata / unlock protocol of `UpdateFileDropMetadataJob`**
(`src/libsync/updatefiledropmetadata.cpp` and `.h`). The job starts on its first scheduling; later calls change nothing.
It then looks up the encrypted folder's id, locks the folder, fetches its
metadata, moves the file drop into it, uploads it and unlocks the folder.
`FileDropJob.UpdateFileDropMetadataJob` (file `file_drop_job.dfy`) is a class
with the job's fields. Its methods are the slots; each returns the effects it
makes observable: the network request it starts, `folderUnlocked` and
`finished`. The network jobs themselves are not modelled. Each of their
replies is an input: a call of the slot connected to it.

The ghost field `pending` records which reply the job waits for, standing
for the connection to the network job it started. A reply slot requires its
reply to be the awaited one.

`FileDropModel` (file `file_drop_model.dfy`) gives the same protocol as
values: one function per slot, `Step` for one event, `Run` for a sequence of
events. Each class method is proved to make exactly the `FileDropModel`
transition for its slot. The lemmas over `Run` then cover every sequence of
replies. They show:
- the job emits `finished` at most once;
- it asks to unlock at most once;
- a failed folder-id lookup stalls it forever;
- a successful finish leaves the folder unlocked.

The invariant `Inv` holds in every reachable job. From it, the assertion
`ASSERT(!_isUnlockRunning)` in `unlockFolder` holds at every call. The
folder is also always locked there, so the "not locked" and "double call"
early exits are never taken once the job has been started by its own slots.

## Model

| member | source | states |
|---|---|---|
| `CAlloc.Calloc` | src/std/c_alloc.c:28-35 | NULL exactly when count or size is zero; otherwise a fresh block of `count * size` characters, all NUL |
| `CAlloc.Malloc` | src/std/c_alloc.c:37-44 | NULL exactly when size is zero; otherwise a fresh zero-filled block of `size` characters, via `c_calloc(1, size)` |
| `CAlloc.Realloc` | src/std/c_alloc.c:46-50 | a zero size gives NULL; otherwise a block of `size` characters, either the old block or a freshly allocated one, that starts with the old block's contents as far as both reach |
| `CAlloc.StrLen` | src/std/c_alloc.c:62 | `strlen`: the result indexes a NUL, and no NUL comes before it |
| `CAlloc.StrLenOfTerminated` | src/std/c_alloc.c:54-55 | a C string followed by NUL reads back through `strlen` as itself, whatever follows the terminator |
| `CAlloc.StrCpy` | src/std/c_alloc.c:55 | `strcpy` writes the string and then NUL at the start of the buffer and leaves the rest unchanged |
| `CAlloc.StrNCpy` | src/std/c_alloc.c:67 | `strncpy` writes exactly `n` characters: the string's, then NUL padding; the rest of the buffer is unchanged |
| `CAlloc.StrDup` | src/std/c_alloc.c:52-57 | a fresh buffer of `strlen(str) + 1` characters: `str`, then NUL, read back as a C string of length `strlen(str)`; the request is never zero-sized, so the NULL path of `c_malloc` is not taken |
| `CAlloc.CopyLength` | src/std/c_alloc.c:62-65 | the copy length is at most the string's length and at most `size`, and equals one of them: their minimum |
| `CAlloc.StrNDupAsWritten` | src/std/c_alloc.c:59-70 | `c_strndup` as written: the buffer has `min(strlen(str), size) + 1` characters and starts with that prefix of `str`, copied by `strncpy`; the terminator write at index `size` falls past the end exactly when `size > strlen(str)`; otherwise the buffer holds the first `size` characters followed by NUL |
| `CAlloc.TerminatorInBoundsIff` | src/std/c_alloc.c:66-68 | the write at index `size` is inside the `min(strlen(str), size) + 1` buffer exactly when `size <= strlen(str)` |
| `CAlloc.StrNDupOverrunWitness` | src/std/c_alloc.c:66-68 | for `"ab"` and size 3 the buffer has 3 characters, and index 3 is past its end |
| `CAlloc.StrNDup` | src/std/c_alloc.c:59-70 | `c_strndup` with the terminator at the copy's end: a fresh buffer of `min(strlen(str), size) + 1` characters holding that prefix of `str` and NUL, read back as a C string of exactly that length |
| `FileDropModel.Init` | src/libsync/updatefiledropmetadata.h:53-63 | a new job is not started, not locked, has no unlock running, no locking in progress, no metadata, an empty token and folder id, and satisfies the invariant |
| `FileDropJob.UpdateFileDropMetadataJob.constructor` | src/libsync/updatefiledropmetadata.cpp:30-34 | the constructed job stores the path and has the initial field values the header declares |
| `FileDropJob.UpdateFileDropMetadataJob.ScheduleSelfOrChild` | src/libsync/updatefiledropmetadata.cpp:56-68 | a finished job returns false and changes nothing; a job not yet started becomes running, asks for the folder listing and returns true; a running job returns true unchanged |
| `FileDropJob.UpdateFileDropMetadataJob.Start` | src/libsync/updatefiledropmetadata.cpp:36-54 | starts exactly the listing request for the job's path |
| `FileDropJob.UpdateFileDropMetadataJob.FolderEncryptedIdReceived` | src/libsync/updatefiledropmetadata.cpp:75-82 | the received folder id is passed on to the lock request |
| `FileDropJob.UpdateFileDropMetadataJob.TryLock` | src/libsync/updatefiledropmetadata.cpp:84-90 | starts exactly a lock request for the given id; no field changes |
| `FileDropJob.UpdateFileDropMetadataJob.FolderEncryptedIdError` | src/libsync/updatefiledropmetadata.cpp:160-164 | no field changes and nothing is emitted, in particular no `finished` |
| `FileDropJob.UpdateFileDropMetadataJob.FolderLockedSuccessfully` | src/libsync/updatefiledropmetadata.cpp:92-106 | sets locking-in-progress and locked, stores the returned token and folder id, and asks for that folder's metadata |
| `FileDropJob.UpdateFileDropMetadataJob.FolderLockedError` | src/libsync/updatefiledropmetadata.cpp:153-158 | finishes with `NormalError` and leaves every field unchanged |
| `FileDropJob.UpdateFileDropMetadataJob.FolderEncryptedMetadataError` | src/libsync/updatefiledropmetadata.cpp:108-117 | not terminal: continues down the metadata-received path with empty metadata and the same status code |
| `FileDropJob.UpdateFileDropMetadataJob.FolderEncryptedMetadataReceived` | src/libsync/updatefiledropmetadata.cpp:119-135 | stores the metadata; if the file drop cannot be moved, requests no update and asks to unlock at once; otherwise uploads the metadata under the lock's folder id and token |
| `FileDropJob.UpdateFileDropMetadataJob.UpdateMetadataSuccess` | src/libsync/updatefiledropmetadata.cpp:137-144 | leads to the unlock request |
| `FileDropJob.UpdateFileDropMetadataJob.UpdateMetadataError` | src/libsync/updatefiledropmetadata.cpp:146-151 | leads to the unlock request, as on success |
| `FileDropJob.UpdateFileDropMetadataJob.UnlockFolder` | src/libsync/updatefiledropmetadata.cpp:166-183 | requires that no unlock runs; an unlocked folder finishes with `Success` and no request; a locked one marks the unlock running and asks to unlock with its id and token |
| `FileDropJob.UpdateFileDropMetadataJob.UnlockSucceeded` | src/libsync/updatefiledropmetadata.cpp:185-194 | clears token, folder id, locked and unlock-running, emits `folderUnlocked(id, 200)` and then `finished(Success)` |
| `FileDropJob.UpdateFileDropMetadataJob.UnlockFailed` | src/libsync/updatefiledropmetadata.cpp:195-201 | clears only unlock-running; the folder stays locked with its token and id; emits `folderUnlocked(id, status)` and then `finished(NormalError)` |
| `FileDropModel.StepPreservesInv` | src/libsync/updatefiledropmetadata.cpp:92-201 | every slot keeps the invariant: an unlock runs exactly while its reply is awaited, the lock is held from locking to unlocking, and a recorded lock implies locking-in-progress |
| `FileDropModel.RunPreservesInv` | src/libsync/updatefiledropmetadata.cpp:92-201 | the invariant holds after any sequence of slots |
| `FileDropModel.UnlockCalledOnlyWhenLockedAndIdle` | src/libsync/updatefiledropmetadata.cpp:166-180 | whenever a slot reaches `unlockFolder`, no unlock runs and the folder is locked, so the call always issues the unlock request |
| `FileDropModel.QuiescentIsSilent` | src/libsync/updatefiledropmetadata.cpp:56-68 | a started job that waits for no reply never changes and never emits anything again |
| `FileDropModel.FinishedAtMostOnce` | src/libsync/updatefiledropmetadata.cpp:153-201 | on every run from a fresh job, `finished` is emitted at most once |
| `FileDropModel.AtMostOneUnlockRequest` | src/libsync/updatefiledropmetadata.cpp:166-183 | no double unlock: on every run from a fresh job, at most one unlock request is started |
| `FileDropModel.IdLookupFailureNeverFinishes` | src/libsync/updatefiledropmetadata.cpp:160-164 | after a failed folder-id lookup, whatever follows, the job has sent only the listing request and never emits `finished` |
| `FileDropModel.SuccessLeavesFolderUnlocked` | src/libsync/updatefiledropmetadata.cpp:166-194 | on every run from a fresh job, once `finished(Success)` is emitted the folder is no longer recorded as locked |
| `FileDropModel.PathNeverChanges` | src/libsync/updatefiledropmetadata.h:54 | no sequence of slots changes the path (in the Dafny class it is a `const` field) |

## Left out

- Out-of-memory is not modelled: the C library's `calloc` and `realloc` always succeed for a non-zero size. The overflow of `count * size` is not modelled either, since sizes are unbounded. So the case where `c_strdup` or `c_strndup` pass a NULL from `c_malloc` to `strcpy` or `strncpy` does not arise.
- CAlloc.Realloc: says nothing about the bytes past the old block, which the C library leaves indeterminate, nor, for an unchanged size, which of the two the result is: the old block or a freshly allocated one (the body always allocates; C's `realloc` may return the old pointer). A Dafny array cannot change its length, so when `size` differs from the old block's length the model always returns a new array; C's `realloc` may resize the block in place and return the same pointer. It does not model the freeing of the old block, the dangling pointer, or the implementation-defined result of a zero size beyond returning NULL.
- A NULL `str` passed to `c_strdup` or `c_strndup` is undefined behaviour in the source and is not modelled.
- Memory is `char`, not raw bytes; `void *` casts have no counterpart.
- The network jobs `LsColJob`, `LockEncryptFolderApiJob`, `GetMetadataApiJob`, `UpdateMetadataApiJob` and `UnlockEncryptFolderApiJob` are not modelled. Each reply is an input; each request is an output `Request`.
- `FolderMetadata` is not modelled: its encryption, its JSON handling and `moveFileDropToFiles`. The metadata is kept as its source (downloaded document or fresh empty one) and its status code. The move's outcome is a boolean input, and the uploaded document is that value.
- The listing lookup `job->_folderInfos.value(list.first())` in `slotFolderEncryptedIdReceived` is not modelled: the slot receives the resolved file id. An empty listing is not modelled.
- `_folderLockFirstTry.start()` (a timer) is not modelled. It is not declared in `updatefiledropmetadata.h`.
- `parallelism` always answers `WaitForFinished`. The propagator's scheduling policy is not part of this model.
- `PropagatorJob` (owncloudpropagator.h) is not part of this model. Its `_state` is taken to start at `NotYetStarted`. Nothing in `updatefiledropmetadata.cpp` sets it to `Finished`: emitting `finished` does not.
- The early return for a second `unlockFolder` call while an unlock runs (lines 175-178) is not a branch of the class method. That method requires the asserted condition. The pure `FileDropModel.RequestUnlock` keeps the branch, and the invariant shows that it is never reached.
- The ownership of the `FolderMetadata` object (allocated with `new`, never deleted) is not modelled.
- Logging and the Qt signal/slot wiring are not modelled. `emit` becomes an element of the returned effects, in emission order.

## Findings

| source | as written | input that shows it | evidently intended | confidence | as-written member | corrected member |
|---|---|---|---|---|---|---|
| src/std/c_alloc.c:66-68 | allocates `min(strlen(str), size) + 1` characters, then writes the terminator at `ret[size]` | `str = "ab"`, `size = 3`: a 3-character buffer, and the write goes to index 3 (`CAlloc.StrNDupOverrunWitness`) | write the terminator at `ret[len]`, the end of the copy | not executed; follows from the code for every `size > strlen(str)` | `CAlloc.StrNDupAsWritten` | `CAlloc.StrNDup` |

The defect is only the stray write past the buffer. `c_malloc` zero-fills,
so the buffer is NUL-terminated at `len` even as written.
