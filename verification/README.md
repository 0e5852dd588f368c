# s3-update-folder-owner, modelled in Dafny

The script `bin/s3-update-folder-owner.py` makes the bucket owner the owner of
every object under a key prefix. It lists the objects page by page. For each
object it then issues two remote calls from a thread pool: it puts the canned
ACL `bucket-owner-full-control`, then copies the object onto itself with
`MetadataDirective="REPLACE"`. Each thread keeps its own boto3 resource in a
dictionary keyed by thread identity.

This project models that decision logic as pure functions:

- `listing.dfy` (module `Listing`): the one-time normalisation of the prefix
  and the resume cursor (`start_after`). It also flattens the paginator's
  pages into one listing, both as a reference function and as a loop.
- `handle_cache.dfy` (module `HandleCache`): the `resources` dictionary as an
  immutable map from worker identity to handle. A construction counter serves
  as the fresh-handle oracle.
- `remediation.dfy` (module `Remediation`): one `process` call as a list of
  remote calls (an effect trace) plus an outcome. The store's answers are an
  input (`Store`: the keys whose ACL put or copy it refuses).
- `dispatch.dfy` (module `Dispatch`): `executor.map(process, objects())` as a
  sequential fold over the listing. The thread that runs each object is an
  input (`schedule`), so every assignment of threads to objects is covered.
  `UpdateFolderOwner` is `main` as a function.
- `wrappers.dfy` (module `Wrappers`): `Option`, for a page's optional `Contents`.

"No cursor given" is the empty string, as with Python's `start_after or prefix`
and the argparse default `''`.

A failed object is not logged. `process` has no handler, so the exception
from a refused call stays inside a future whose result is never read. The
model records each object's outcome (`Entitled`, `AclRefused`, `CopyRefused`)
and nothing else.

## Model

| member | source | states |
|---|---|---|
| Listing.StripLeadingDelimiter | bin/s3-update-folder-owner.py:57 | a prefix starting with `/` is the result with one `/` in front; any other prefix is returned unchanged; at most one character is removed |
| Listing.StripCharacterised | bin/s3-update-folder-owner.py:57 | stripping yields `q` exactly when the prefix is `"/" + q`, or is `q` itself and does not start with `/` (both directions) |
| Listing.StripAfterPrepend | bin/s3-update-folder-owner.py:57 | stripping undoes prepending one `/` to any string |
| Listing.NormaliseNotIdempotent | bin/s3-update-folder-owner.py:55-57 | `"//a"` normalises to `"/a"`, and that normalises again to `"a"`, so normalisation is not idempotent |
| Listing.RootPrefixBecomesEmpty | bin/s3-update-folder-owner.py:57-58 | prefix `"/"` becomes the empty prefix, which is no folder, so the cursor passes through unchanged |
| Listing.EffectiveStartAfter | bin/s3-update-folder-owner.py:58 | a caller's non-empty cursor is kept whatever the prefix is; with no cursor and a folder prefix, the prefix becomes the cursor; a non-folder prefix leaves the cursor unchanged |
| Listing.Normalise | bin/s3-update-folder-owner.py:55-58 | the prefix and cursor passed to the paginator (the bucket is passed unchanged): the prefix loses one leading `/`; the cursor rules above apply to the normalised prefix |
| Listing.CursorCharacterised | bin/s3-update-folder-owner.py:58 | the effective cursor is the prefix exactly when the caller passed the prefix, or passed no cursor with a folder prefix (both directions); otherwise it is the caller's cursor |
| Listing.CursorIdempotent | bin/s3-update-folder-owner.py:58 | resuming with the effective cursor yields that same cursor again |
| Listing.CursorIsCallerOrPrefix | bin/s3-update-folder-owner.py:58 | the effective cursor is the caller's cursor, or else the normalised folder prefix when no cursor was given |
| Listing.Contents | bin/s3-update-folder-owner.py:60 | a page without `Contents` yields no objects; otherwise its `Contents` |
| Listing.Flatten | bin/s3-update-folder-owner.py:59-61 | the first page's objects open the listing; pages all without objects give an empty listing; every listed object comes from some page |
| Listing.FlattenAppend | bin/s3-update-folder-owner.py:59-61 | the listing of two runs of pages is the first run's listing followed by the second's, so page order is kept |
| Listing.EmptyPageContributesNothing | bin/s3-update-folder-owner.py:60 | inserting a page without `Contents` anywhere leaves the listing unchanged |
| Listing.FlattenMembership | bin/s3-update-folder-owner.py:59-61 | an object is listed exactly when some page's contents hold it (both directions) |
| Listing.ListObjects | bin/s3-update-folder-owner.py:59-61 | the generator's nested loops yield exactly the in-order concatenation of the pages' contents |
| HandleCache.GetOrCreate | bin/s3-update-folder-owner.py:76-81 | a stored handle is returned and the cache is unchanged; otherwise a handle distinct from every stored one is built and stored; afterwards the worker has the returned handle; other workers' entries are untouched; validity is preserved |
| HandleCache.LookupAll | bin/s3-update-folder-owner.py:76-81 | after a sequence of lookups every worker that asked has a handle, earlier handles are unchanged, and at most one handle was built per lookup |
| HandleCache.LookupAllGrows | bin/s3-update-folder-owner.py:76-81 | after any sequence of lookups, the cached workers are the earlier ones plus those that asked, and earlier handles are unchanged |
| HandleCache.LookupAllValid | bin/s3-update-folder-owner.py:76-81 | lookups never make two workers share a handle, and there is one handle per construction |
| HandleCache.OneHandlePerWorker | bin/s3-update-folder-owner.py:35 | from the empty dictionary, the handles built equal the number of distinct workers that asked, and are never more than the lookups |
| HandleCache.HandleIsStable | bin/s3-update-folder-owner.py:77-78 | once a worker has a handle, any later lookup by it returns that handle and changes nothing |
| Remediation.CopySource | bin/s3-update-folder-owner.py:96 | the bucket name, one `/`, then the key |
| Remediation.CopySourceNamesOneObject | bin/s3-update-folder-owner.py:96 | for bucket names without `/`, equal copy sources `bucket/key` mean the same bucket and the same key |
| Remediation.Remediate | bin/s3-update-folder-owner.py:83-97 | first the ACL put with `bucket-owner-full-control` through the worker's handle; the self-copy with source `bucket/key` and `REPLACE` follows exactly when the ACL put is accepted; the object ends entitled exactly when the store accepts both calls, and ends `AclRefused` exactly when its ACL put is refused |
| Remediation.RemediateAccepted | bin/s3-update-folder-owner.py:83-97 | when the store accepts the object, exactly the two calls are issued, ACL first, and the object ends entitled |
| Remediation.AclBeforeCopyAppend | bin/s3-update-folder-owner.py:83-97 | two traces in which every copy directly follows its ACL put keep that order when concatenated |
| Dispatch.Run | bin/s3-update-folder-owner.py:109-110 | one step per listed object, and step i concerns object i |
| Dispatch.RunSplit | bin/s3-update-folder-owner.py:109-110 | dispatching a listing is dispatching its first part and then the rest from the cache the first part left |
| Dispatch.RunSplitTrace | bin/s3-update-folder-owner.py:109-110 | the trace of a listing is the trace of its first part followed by the trace of the rest |
| Dispatch.RunUsesWorkerHandles | bin/s3-update-folder-owner.py:76-86 | object i is processed with the handle of the worker that ran it, and the final cache is what the workers' lookups leave |
| Dispatch.RunOutcomes | bin/s3-update-folder-owner.py:83-97 | an object ends entitled exactly when the store accepts it, and its ACL put is refused exactly when the store refuses that key; other objects do not matter |
| Dispatch.RunAclBeforeCopy | bin/s3-update-folder-owner.py:84-97 | in a run's whole trace, every copy directly follows the ACL put on the same bucket and key |
| Dispatch.EachObjectOnce | bin/s3-update-folder-owner.py:109-110 | the ACL puts name exactly the listed keys, once each, in listing order; the copies name exactly the keys whose ACL put was accepted |
| Dispatch.TraceOfPairs | bin/s3-update-folder-owner.py:109-110 | when each step issued two calls, the trace is those pairs laid end to end |
| Dispatch.RunAccepted | bin/s3-update-folder-owner.py:83-110 | when the store accepts every object, the trace has two calls per object in listing order: ACL put via the worker's handle, then the self-copy; every object ends entitled |
| Dispatch.RunHandles | bin/s3-update-folder-owner.py:109 | from the empty dictionary, a run builds one handle per distinct worker; that is no more than the pool's workers or the objects |
| Dispatch.UpdateFolderOwner | bin/s3-update-folder-owner.py:38-110 | the listing is requested for the normalised prefix and cursor; the objects are the flattened pages; each is dispatched once, and step i names object i and ends entitled exactly when the store accepts that object |
| Dispatch.UpdateFolderOwnerTrace | bin/s3-update-folder-owner.py:35-110 | the run works on the bucket named on the command line and starts from the empty `resources` dictionary: object i is processed in `args.bucketName` with its worker's handle, and the final cache is the workers' lookups from empty; each object on each page gets one ACL put in page order; copies only follow their ACL put; an empty listing issues no remote call and builds no handle |

## Left out

- The boto3 client, resource, paginator, `put` and `copy_object` calls are remote calls. They appear only as effects in a trace and as opaque handles. The store's answers are the `Store` input.
- The paginator's pages are an input to the model. The store's listing semantics are not modelled: the prefix filter, the strictly-after `StartAfter` and the key order.
- An error while fetching a listing page is not modelled, because the pages are given.
- Whether listing with the normalised prefix returns the same objects as with the original depends on the store, which is not modelled.
- Thread-pool concurrency, `--num-workers` and `threading.get_ident` are not modelled. Worker identities are plain numbers, and the pool's choice of thread per object is the `schedule` input. Dispatch is sequential in listing order. Remote calls of different objects may really interleave, but within one object the ACL put always precedes the copy.
- `executor.map` submits every object before any result is read, and results are never read. Exceptions therefore vanish with their futures. This is Python runtime behaviour; the model keeps only each object's outcome.
- argparse, `--debug`, boto3 stream logging and every log message are I/O and configuration, so they are left out.
- The `nonlocal` rebinding of `prefix` is left out. `objects` is called once, so normalisation happens once; `NormaliseNotIdempotent` shows what a second call would do.
- setup.py is packaging metadata only.
