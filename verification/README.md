# The commit, push and relay paths of the container runtime service

The service runs next to containerd on a node. On request it turns a running container into an image
(commit), sends that image to a registry (push), and connects a client's WebSocket to a container's
standard streams (attach and exec). This project models those three paths in Dafny, step by step with
every failure the code can meet, and proves what they promise.

## How the model is set up

- **containerd is an explicit state** (`Containerd.World`: tasks, leases and what they hold, snapshots,
  content with labels, image records). `Containerd.Server.Rpc` is every call. Before each call the garbage
  collector may run and pick any set of digests; of those it removes what no lease, image record or
  `containerd.io/gc.ref.content` label reaches. Each call then ends undisturbed, is refused without effect,
  or takes effect and loses its answer. A schedule fixes all of these choices, and every theorem is for every
  schedule. The registry (`Push.Registry`) is treated in the same way.
- **Imperative code stays imperative.** `Server`, `Lease`, `ImageProgess`, `Registry`, `Response` and `Stream`
  are classes; the loops of the source are loops with invariants, each proved against a specification function
  or predicate whose own properties are proved as lemmas.
- **Cooperative tasks are interleavings of their steps between awaits** (`Handoff.Next`, `Relay.Next`); a
  theorem about a run quantifies over every sequence of moves, cancellation included.
- **Code outside the repository is a contract.** `Digests.Lib` holds SHA-256, `json`, `str.lower` and
  containerd's diffs as arbitrary functions. What is assumed of them is `Lib.Valid`: printing and parsing JSON
  are inverse on objects with distinct keys, and applying `diff(l, r)` to `l` gives `r`. SHA-256 is assumed
  to be nothing at all: where it matters, a collision is exhibited or excluded by name. `Contracts` builds a
  printer, a parser and a diff that meet all this, so the assumptions do not contradict each other.
- **Success is specified as well as failure.** When no call fails on its way, a commit succeeds under guards that
  are named (`Protocol.Unhindered`), even while collections go on, if what it reads of its parent image stays
  (`Protocol.Poised`); without collections the guards are exact. A push has its guards too (`Push.Pushable`).
  `Samples` gives a world that meets the guards of a commit and one that does not.
- **The classes follow the runs.** `Handoff.LayerPush` around an `ImageProgess`, and `Relay.Stream` with its two
  tasks, can be taken through any interleaving (`Play`) and end in the state the theorems about runs speak of.

Modules, in the order they build on each other: `Wrappers`, `Python` (slices), `Rechunker`, `Handoff`, `Json`,
`Digests`, `Containerd`, `Manifests`, `Images`, `Snapshots`, `Commit`, `Protocol`, `Push`, `EndToEnd`,
`ResponseStream`, `Relay`; and `Contracts` and `Samples` beside them.

## What comes out

- A commit that succeeds stores an image whose layers, applied in manifest order to nothing, give the container's
  file system; reading it back and pushing it puts exactly the recorded bytes under the tag. It can be pushed at
  any later time, whatever is collected before and meanwhile, as long as no call fails.
- Whatever becomes of a commit, every moment of it is safe: the image records are as before, or one names the new
  image and all of its parts are stored; once put, that record stays; and what the lease holds is stored for
  as long as the lease is there. So a commit that reports an error has either changed no record, or has recorded
  a complete image; and then the record was put and the answer to that lost, or the answer to giving the lease
  back or to resuming the task was an error.
- A commit in which nothing goes wrong succeeds if and only if its task can be paused or left alone, its image has
  a configuration, its snapshots can be walked, and its config and manifest are not stored yet. The store refuses
  what it has, so the same container cannot be committed twice at one reading of the clock.
- Restoration is exact: a running task ends running unless the answer to Pause is lost after Pause took effect
  (the code then thinks nothing was paused) or Resume does not take effect.
- So is the lease: the leases end as they were unless the answer to Create is lost after it took effect (nobody
  then knows the lease to delete) or Delete does not take effect.
- A walk that fails leaves at most one key behind, the view of one of the container's snapshots. Every later walk
  that has to mount that snapshot through a view fails until someone removes the key; without failures the walk
  succeeds if and only if no such key is in the way.
- Chunks of a layer upload are the canonical fixed-size split if and only if the buffer never holds more than
  one chunk, and progress adds up to the layer size if and only if no response meets a buffer already over one
  chunk. With larger responses no byte is lost or reordered, and progress only falls short.
- The first "Pushing" message always reports 0 bytes. "Pushed" means that the registry accepted the announced
  digest and length, and so holds the layer.
- A client that can be written to always hears of a failure: the last chunk it receives is an error if and only if
  committing or pushing failed, other than by a cancellation.
- What is said about a layer is true: "Layer already exists" if and only if the registry had it when it was asked.
- `zip` over diff ids and layers would drop the tail of the longer list; for a committed image the lists are
  aligned and nothing is dropped.
- The chain digest does not separate lists of different lengths: the digest of two layers is also the digest of
  the one-element list that holds their link.
- Rewriting an error-channel message twice would turn every failure into `exit_code` 0.
- A relay task that fails of its own, without having been cancelled, fails in silence. `copy` leaves no task
  behind, with two exceptions: closing the client's side raises, and then nothing is cancelled; or `copy` is
  cancelled while it waits, and the first task answers its own cancellation with another exception.

## Model

| member | source | states |
|---|---|---|
| Python.CutAnywhere | platform_container_runtime/containerd_client.py:795-797 | the two slices at any bound put together give the data back; a negative bound counts from the end, and bounds out of range are clamped |
| Rechunker.ReadLayerChunked | platform_container_runtime/containerd_client.py:778-814 | the buffer loop, for any responses and any positive chunk size, hands over exactly the content and never counts more progress than its length |
| Rechunker.FeedIs | platform_container_runtime/containerd_client.py:790-809 | one response, byte for byte: below the chunk size it is kept, at it the buffer is handed over, above it the buffer is filled up and the rest kept; a buffer of more than a chunk is handed over with all of the response but as many last bytes as it has too many |
| Rechunker.Conservation | platform_container_runtime/containerd_client.py:782-814 | from any buffer, the chunks concatenated are the buffer followed by the responses, for responses of any size |
| Rechunker.NeverOverstates | platform_container_runtime/containerd_client.py:785-814 | at every moment of every run the progress counter is at most the number of bytes already handed over |
| Rechunker.HandedIsPrefix | platform_container_runtime/containerd_client.py:785-814 | what has been handed over at any moment of a run is a prefix of the content |
| Rechunker.CanonicalIffFits | platform_container_runtime/containerd_client.py:785-814 | the non-empty chunks are the fixed-size split of the content if and only if the buffer never holds more than one chunk |
| Rechunker.ExactIffFitsOnArrival | platform_container_runtime/containerd_client.py:785-814 | the progress steps add up to the content length if and only if no response meets a buffer of more than one chunk |
| Rechunker.SmallResponsesAreCanonical | platform_container_runtime/containerd_client.py:785-814 | responses of at most the chunk size give the canonical split and exact progress, wherever the response boundaries are; if none is empty, the chunks are that split, with no empty chunk among them |
| Rechunker.NoEmptyChunks | platform_container_runtime/containerd_client.py:785-814 | from any buffer, non-empty responses of any size give non-empty chunks |
| Handoff.ImageProgess.Step | platform_container_runtime/containerd_client.py:307-310 | advances the counter and wakes the iteration unless nothing was added |
| Handoff.ImageProgess.Stop | platform_container_runtime/containerd_client.py:312-316 | stops once and wakes the iteration; a second stop changes nothing |
| Handoff.ImageProgess.Resume | platform_container_runtime/containerd_client.py:291-301 | the iteration from one suspension to the next is the transition the interleaving theorems are about |
| Handoff.ResumedIs | platform_container_runtime/containerd_client.py:291-301 | when the iteration leaves, waits and reports: after a value it leaves if the total is reached and waits without a signal; woken, it takes the signal away and leaves if stopped; what it reports is the counter |
| Handoff.SignalIs | platform_container_runtime/containerd_client.py:307-316 | the event is set by a non-zero step and by the first stop, and by nothing else; a step adds to the counter |
| Handoff.Reachable | platform_container_runtime/containerd_client.py:727-776 | every interleaving of uploader, reporter, failure and abandonment keeps the invariant tying counter, event, flag and emitted values together |
| Handoff.NoLostWakeup | platform_container_runtime/containerd_client.py:291-316 | a reporter blocked on a clear event waits for an upload that has not ended and has already reported the counter's value |
| Handoff.EndsOnceUploadEnds | platform_container_runtime/containerd_client.py:739-753 | once the upload has ended, two resumptions finish the generator, with "Pushed" if and only if the upload succeeded and its exception otherwise |
| Handoff.Messages | platform_container_runtime/containerd_client.py:739-753 | "Pushing" values start at 0 and strictly increase; "Pushed" only follows a successful upload; an abandoned generator has cancelled its task |
| Handoff.ProgressIsHonest | platform_container_runtime/containerd_client.py:291-310 | fed by the rechunker, for any announced size: reported values never exceed the bytes handed over, the early exit happens only after the announced size was handed over, and so, unless less than the content was announced, after every byte was |
| Handoff.PushedIsDelivered | platform_container_runtime/containerd_client.py:739-776 | "Pushed" is emitted only if the registry accepted what it was handed, which is the beginning of the content, and all of it when the registry insists on its length |
| Handoff.LayerPush.Play | platform_container_runtime/containerd_client.py:727-751 | generator and upload task around one progress object, played through any interleaving, end in the state of that run |
| Json.LookupSet | platform_container_runtime/containerd_client.py:447 | assigning a key changes what that key reads as and nothing else |
| Json.SetSet | platform_container_runtime/containerd_client.py:350 | assigning the same key twice equals assigning the last value, with the key in its first place |
| Json.FieldIs | platform_container_runtime/containerd_client.py:1055-1060 | the value under two spellings of a key is that of the first unless it is missing or null, and else that of the second; the error names both and is raised exactly when neither has one |
| Digests.ParseToPrimitive | platform_container_runtime/containerd_client.py:94-103 | a descriptor written into a manifest has exactly the keys "mediaType", "digest" and "size" with its values, and parses back to itself |
| Digests.DescriptorIs | platform_container_runtime/containerd_client.py:88-91 | the descriptor of a document has the hash and the length of its printed form |
| Digests.ChainIsChainId | platform_container_runtime/containerd_client.py:1069-1075 | the head-first recursion computes the ChainID of the OCI Image Specification, section "Layer ChainID", for every non-empty list: the ChainID of all layers but the last, a space and the last layer, hashed |
| Digests.ChainIsInjective | platform_container_runtime/containerd_client.py:1069-1075 | two equally long lists of space-free ids with one chain digest are equal, or two colliding hash inputs are returned |
| Digests.DifferentLengthsCollide | platform_container_runtime/containerd_client.py:1069-1075 | the equal length is needed: a two-element and a one-element list with one chain digest |
| Contracts.Consistent | platform_container_runtime/containerd_client.py:91 | for every hash there are a JSON printer and parser, an encoding and a diff that meet all assumptions made of them |
| Containerd.Server.Rpc | platform_container_runtime/containerd_client.py:112-136 | a call runs after an arbitrary collection and is served, refused, or served with its answer lost; the store stays sound |
| Containerd.CalledIsValid | platform_container_runtime/containerd_client.py:150-151 | under every schedule content stays addressed by its digest and everything a lease holds stays stored |
| Containerd.PlainKeeps | platform_container_runtime/containerd_client.py:150-151 | every call made under a lease keeps the lease, what it holds and the bytes of it, whatever is collected before the call |
| Containerd.HeldSurvives | platform_container_runtime/containerd_client.py:150-151 | a collection leaves what a lease holds exactly as it was |
| Containerd.CollectKeepsLive | platform_container_runtime/containerd_client.py:150-151 | a collection keeps every stored digest that roots reach through any number of labels, and they reach the same digests afterwards |
| Manifests.ChooseIsFirst | platform_container_runtime/containerd_client.py:393-404 | the scan takes the first entry of the platform, raises what an unreadable entry before it raises, and raises the platform error exactly when all entries are for other platforms |
| Manifests.EntryMatchesIs | platform_container_runtime/containerd_client.py:394-400 | an entry is taken exactly if its platform's os and architecture, in lower case, are the ones asked for, passed over exactly if one of them differs, and unreadable otherwise; stated by its fields, in either spelling |
| Manifests.ChooseIs | platform_container_runtime/containerd_client.py:393-404 | the scan gives a digest if and only if that is the "digest" of an entry whose os and architecture are the ones asked for, all entries before it having a readable platform that differs; and the platform error if and only if all entries differ so |
| Manifests.ExamineIs | platform_container_runtime/containerd_client.py:373-408 | by the media type, literally: the two manifest types are returned, the two index types are searched for the next digest, and any other type is the media type error |
| Manifests.MembersAre | platform_container_runtime/containerd_client.py:328-329 | a manifest's config and a descriptor's digest are what is under these keys, in either spelling |
| Manifests.ResolveIsWalkEnd | platform_container_runtime/containerd_client.py:357-408 | resolution is the end of one walk that repeats no digest, visits at most as many as are stored, and whose last blob determines manifest or error |
| Manifests.ReadImageIs | platform_container_runtime/containerd_client.py:331-353 | an image reads as the manifest that its digest resolves to, with "config" being the stored document that the manifest names there and every other key as it was; it reads so whenever all of that is there |
| Manifests.WriteReadPush | platform_container_runtime/containerd_client.py:331-353 | reading back what was stored gives the image again, and pushing that regenerates the very same config and manifest, for every image document however its keys are spelled |
| Manifests.DecimalIsInjective | platform_container_runtime/containerd_client.py:469 | different layer numbers have different decimal spellings |
| Manifests.DecimalIs | platform_container_runtime/containerd_client.py:469 | the decimal spelling consists of digits, without leading zeros, and denotes the number |
| Manifests.LayerKeysDiffer | platform_container_runtime/containerd_client.py:466-469 | no two layer label keys are equal, none equals the config's, and all are content references |
| Manifests.GcLabels | platform_container_runtime/containerd_client.py:466-469 | the labels have exactly one entry per layer plus one for the config, with their digests in order, or the error of the first unreadable layer |
| Manifests.LabellingIs | platform_container_runtime/containerd_client.py:466-469 | the labels, literally: "containerd.io/gc.ref.content.config" and, for layer i, "containerd.io/gc.ref.content.l.i", and no more |
| Manifests.LabellingRefs | platform_container_runtime/containerd_client.py:466-469 | a manifest blob with these labels refers to its config and to every layer |
| Images.FindEntry | platform_container_runtime/containerd_client.py:393-404 | the loop over an index's entries ends as the scan described by ChooseIs |
| Images.ReadManifest | platform_container_runtime/containerd_client.py:357-408 | the loop returns the resolution of the store it started from, or the code of its last call, and the former for sure if every digest on the way stays; it makes at most one call more than there are stored digests |
| Images.ReadImageManifest | platform_container_runtime/containerd_client.py:331-353 | the manifest with the config document in place of its descriptor, or the failed call's code, while collections go on; the former for sure if the digests on the way and the config's stay |
| Images.ReadByName | platform_container_runtime/containerd_client.py:592-611 | reading an image by name gives what the record and the store determine at the start, and fails with a call's code when there is no record |
| Images.PutBlob | platform_container_runtime/containerd_client.py:471-487 | a write that answers has stored the bytes and labels under the lease, and the offset and digest assertions never fire; when nothing goes wrong it succeeds if and only if the digest is not stored yet, and else answers that it exists |
| Images.WriteDocuments | platform_container_runtime/containerd_client.py:431-488 | after success both documents are stored and held, the config with exactly the labels it was given, the manifest with labels that name config and layers; failure is a failed call or missing data in the document; when nothing goes wrong it succeeds if and only if the document has the data and neither document is stored yet |
| Images.WriteManifest | platform_container_runtime/containerd_client.py:457-488 | the manifest is stored and held with exactly its labels, or a call failed, or a layer cannot be read |
| Images.PutRecord | platform_container_runtime/containerd_client.py:634-649 | one update call, and after it one create call if and only if the update was answered unknown or not found; the last answer counts; on every exit at most this record has changed and nothing of what the lease holds, at any moment; after success it has |
| Images.WriteImage | platform_container_runtime/containerd_client.py:613-649 | on every exit the records are as before, or the record names the stored and held manifest and the config has its labels; after success it does |
| Images.ResolveShrinks | platform_container_runtime/containerd_client.py:357-408 | while content is being collected, resolution gives the same answer as before or a missing blob, never another manifest |
| Images.ImageOutlasts | platform_container_runtime/containerd_client.py:331-353 | an image whose digests stay reads the same from what is left after collections, and stays |
| Snapshots.GetCommittedSnapshotMounts | platform_container_runtime/containerd_client.py:262-281 | the view is removed again on success; on failure at most that view is left over and every other snapshot is as before; without failures it succeeds if and only if the snapshot is committed and the view's key is free |
| Snapshots.GetDiff | platform_container_runtime/containerd_client.py:207-233 | on success the layer from parent to snapshot is stored and held, its diff id is that of the uncompressed layer, and the snapshots are as before |
| Snapshots.DiffOfIs | platform_container_runtime/containerd_client.py:207-233 | applying the layer to what is below the snapshot gives its files; the diff id hashes the layer before compression, the descriptor has docker's gzip layer type and the hash and length of the compressed layer; no parent key at the root |
| Snapshots.GetSnapshotDiffs | platform_container_runtime/containerd_client.py:949-967 | the walk ends on every acyclic chain and returns the diffs of the whole lineage, root first; a failing walk leaves at most the view of one snapshot of the lineage; without failures it succeeds if and only if every snapshot on it is there, every ancestor is committed and no view key is in the way |
| Snapshots.LeftoverBlocks | platform_container_runtime/containerd_client.py:262-281 | a view that is left over, under the snapshot's key followed by "-parent-view", is in the way of every walk that has to mount its snapshot through a view |
| Snapshots.LineageIsChain | platform_container_runtime/containerd_client.py:949-967 | a finished walk lists each snapshot once, the root first, each one's parent being its predecessor |
| Snapshots.ChainReplays | platform_container_runtime/containerd_client.py:207-233 | applying the layers of a chain in order to the empty file system gives the last snapshot's files |
| Commit.CommitDocumentsAre | platform_container_runtime/containerd_client.py:969-993 | writing a commit's manifest writes exactly these documents, and the layers found in them are those of the diffs, in order |
| Commit.ReadParentConfig | platform_container_runtime/containerd_client.py:913-919 | the configuration inherited is the one the container's image record leads to before the call, whatever is collected meanwhile; a missing record is a failed call |
| Commit.InheritedIs | platform_container_runtime/containerd_client.py:982 | what is inherited is under "config" of the document under the image's "config", in either spelling |
| Commit.StoreImage | platform_container_runtime/containerd_client.py:928-944 | at every moment of writing the new image the records are safe and the lease keeps what it held; on every exit the records are as before or the image is recorded, stored and held, its config with exactly one label, "containerd.io/gc.ref.snapshot." and the snapshotter, whose value is the ChainID of all layers; when nothing goes wrong it succeeds if and only if its documents are new to the store |
| Commit.BuildImage | platform_container_runtime/containerd_client.py:913-944 | the same for the whole body of a commit: on every exit the records are as before, or the image of the whole lineage is recorded, stored and held, and on an error then an answer to the record was lost; other failures are failed calls or what the container's image lacks; when nothing goes wrong it succeeds if and only if nothing is in the way, and under collections if besides its parent image stays |
| Commit.CollectGuards | platform_container_runtime/containerd_client.py:466-469 | a collection that picks anything it likes leaves config, manifest and layers of a recorded image untouched |
| Commit.RecordedForever | platform_container_runtime/containerd_client.py:613-648 | a recorded image survives any number of collections without any lease |
| Commit.SafeParts | platform_container_runtime/containerd_client.py:903-947 | in a safe run, a part that the lease held is stored as long as the lease is there, and every part is stored from the moment the image is recorded to the end |
| Protocol.Pause | platform_container_runtime/containerd_client.py:880-893 | asks for the status, leaves created, paused and stopped tasks alone, and otherwise pauses; says so truthfully unless the answer was lost |
| Protocol.Resume | platform_container_runtime/containerd_client.py:896-901 | one Resume call, and the task runs exactly if it took effect |
| Protocol.Lease.Enter | platform_container_runtime/containerd_client.py:159-167 | one Create call; on success the lease id is the one that was granted |
| Protocol.Lease.Exit | platform_container_runtime/containerd_client.py:169-174 | one Delete call for that lease |
| Protocol.LeaseIsSafe | platform_container_runtime/containerd_client.py:910-944 | whatever the body of a commit did, every state from before taking the lease to after giving it back is safe |
| Protocol.CommitUnderLease | platform_container_runtime/containerd_client.py:910-944 | a granted lease is deleted exactly once whatever happened inside, and the leases left are stated; every state is safe on every exit; on success the image is committed and no part of it was ever lost; when nothing goes wrong it succeeds if and only if nothing is in the way, and under collections if it is poised |
| Protocol.CommitContainer | platform_container_runtime/containerd_client.py:904-947 | for every schedule and every outcome: the trace of task and lease calls, the task restored, the leases and the view left over, every state safe, and the records as before or the image committed; on success it is; every error is a failed call's or the parent image's, and with changed records an answer to the record was lost or putting back failed; when nothing goes wrong it succeeds if and only if it is unhindered, and under collections if it is poised |
| Protocol.ResumeAtLast | platform_container_runtime/containerd_client.py:945-947 | resumes a paused task after success and failure alike; a failing Resume replaces the result and takes back nothing: every state stays safe, and a committed image stays committed |
| Protocol.RunningAgainUnless | platform_container_runtime/containerd_client.py:904-947 | a running task ends running if and only if it was not the case that Pause took effect and its answer was lost or Resume had no effect |
| Protocol.LeaseIsGivenBackUnless | platform_container_runtime/containerd_client.py:159-174 | the leases end as they were if and only if it was not the case that Create took effect and its answer was lost or Delete had no effect |
| Protocol.IdleIsLeftAlone | platform_container_runtime/containerd_client.py:885-887 | a created, paused or stopped task is never paused or resumed, and no task changes; a task found in any other state is paused, and resumed last if that was answered |
| Protocol.CommitReplays | platform_container_runtime/containerd_client.py:208-233 | applying the committed image's stored layers in manifest order to nothing gives the container's file system, unless a layer's hash collides |
| Push.Registry.Send | platform_container_runtime/registry_client.py:121-168 | a request takes effect or not; an accepted blob has the announced digest and length; the registry stays content addressed |
| Push.ListsAre | platform_container_runtime/containerd_client.py:576-584 | the layers are the array under "layers", the diff ids that under "diff_ids" of "rootfs" of the config, in either spelling |
| Push.PushLayer | platform_container_runtime/containerd_client.py:690-776 | on success the registry holds the layer, byte for byte the stored blob if it was new, whatever the response boundaries and however task and generator take turns; if the registry had it, one check is all that is sent and "Layer already exists" is said, and if not, check, start and upload are sent and "Pushing" values from 0 up within the size, exactly those that the course of the upload makes the progress iteration report, and "Pushed" are said, and never the one for the other; a failure says the beginning of that and is a failed call, a request not answered well, an upload that broke off, or a consumer that closed the generator; it succeeds when the layer is available and stays, and the registry works |
| Push.Transfer | platform_container_runtime/containerd_client.py:725-776 | the same for the upload task and the generator around it, with uploads that break off anywhere and generators that are closed anywhere, their task cancelled: the registry then has nothing more, or, if the whole body was out, the layer |
| Push.PushManifest | platform_container_runtime/containerd_client.py:521-554 | on success exactly three requests are sent: start, the config with its digest and length, the manifest under the tag; the manifest is put only when the config is in the registry; the tag changes only to this manifest |
| Push.PushLayers | platform_container_runtime/containerd_client.py:663-667 | every pair of diff id and layer up to the shorter list is handled once, in order, and all these layers end in the registry; a layer is reported as there if and only if the registry had it at first or it is one of those before; a failure stops in the middle of one report, for a stated reason |
| Push.PushImage | platform_container_runtime/containerd_client.py:652-687 | the version is asked for first, and a registry of another version gets nothing else; the manifest is put only when config and all layers of the loop are in the registry; new blobs come from the store or are the config; on success the tag holds the manifest and the messages are complete, in order and true of what the registry had; on failure the tag is unchanged unless only the answer was lost, and the reason is the image, the registry or a failed call; nothing in the way, it succeeds |
| Push.PushParts | platform_container_runtime/containerd_client.py:663-687 | once version and lists are known: layers first, manifest last, the closing messages with its digest and size; the outcome is one of the specified ends |
| Push.PushByName | platform_container_runtime/containerd_client.py:1039-1052 | on every exit nothing was sent because reading the image failed, by a failed call or by what is stored, or what was sent is an orderly push of the image the local record led to at the start, its tag put or untouched, its messages in order and its failure explained; a read fails as image-not-found if and only if a call was answered unknown or not found; it succeeds when that image can be read and pushed, stays, and no call fails |
| EndToEnd.ReadsBack | platform_container_runtime/containerd_client.py:331-353 | reading a recorded commit by name gives exactly the document that was written |
| EndToEnd.InheritedWellKeyed | platform_container_runtime/containerd_client.py:982 | the configuration a commit inherits was parsed, hence can be printed and parsed back |
| EndToEnd.CommitConfigIs | platform_container_runtime/containerd_client.py:979-993 | a commit's config has exactly six keys: the container's architecture and os, the inherited config, the layers, an empty author and the time |
| EndToEnd.RootFsIs | platform_container_runtime/containerd_client.py:987-990 | "rootfs" has the type "layers" and the diff ids of all layers, in order |
| EndToEnd.CommitManifestIs | platform_container_runtime/containerd_client.py:969-977 | a commit's manifest has schema version 2, docker's manifest type, the descriptor of its config by hash and length, and the descriptors of all layers, in order |
| EndToEnd.ListsAreAligned | platform_container_runtime/containerd_client.py:969-993 | layers and diff ids of a committed image are equally long and aligned, so `zip` drops nothing |
| EndToEnd.NeededIsAll | platform_container_runtime/containerd_client.py:663 | for a committed image, what a manifest is not put without is the config and every single layer |
| EndToEnd.PushedAsCommitted | platform_container_runtime/containerd_client.py:521-554 | after a successful push the tag holds the bytes commit stored, with the digest and size of the local record's target, and config and all layers are there |
| EndToEnd.CommittedIsPushable | platform_container_runtime/containerd_client.py:1039-1052 | at any time after a commit, whatever was collected since and is collected meanwhile, nothing is in the way of pushing its image by name, unless a call fails or a layer's hash collides |
| EndToEnd.RecordedStays | platform_container_runtime/containerd_client.py:466-484 | everything that is read of a recorded commit stays under all collections |
| EndToEnd.ChainLabelStays | platform_container_runtime/containerd_client.py:928-943 | after a commit and any number of collections the stored config has exactly one label, the ChainID of all layers for the container's snapshotter |
| EndToEnd.RegistryReplays | platform_container_runtime/containerd_client.py:652-687 | applying the registry's layers in order to nothing gives the committed container's file system, unless a hash collides |
| Samples.StoredAlready | platform_container_runtime/containerd_client.py:430-454 | a commit whose config or manifest is stored already is not ready |
| Samples.NotTwice | platform_container_runtime/containerd_client.py:904-947 | after a commit, the same container is not ready to be committed again at the same reading of the clock, under any name, that of its own image included, unless hashes collide |
| Samples.SampleCanBeCommitted | platform_container_runtime/containerd_client.py:904-947 | a world with a running container in which a commit is unhindered |
| Samples.SampleIsStoredAlready | platform_container_runtime/containerd_client.py:471-487 | the same world with the new config stored already, in which it is not |
| Samples.SamplesExist | platform_container_runtime/containerd_client.py:471-487 | there is a library without hash collisions for the two worlds, so that they exist |
| ResponseStream.RuntimeCommit | platform_container_runtime/runtime_client.py:65-97 | silent and raising where the image does not parse, there is no backend or the container cannot be had, each with its own exception; else the start comes first, and the end is the commit's own: finished if and only if it succeeds |
| ResponseStream.RuntimePush | platform_container_runtime/runtime_client.py:100-125 | without an error among the progress items all of them and then the feed's own failure, if any; otherwise the items up to and including the first error, and nothing after it; image-not-found where the image is not there |
| ResponseStream.CommitAndPush | platform_container_runtime/api.py:167-185 | what is delivered is started, finished and push progress in this order; the assertion never fires; container-not-found never comes after the response is prepared; for a client that can be written to, what is delivered and raised in every case of the request |
| ResponseStream.HandleCommit | platform_container_runtime/api.py:164-199 | every stream a client can receive, whatever fails, follows the grammar with at most one error, which is last; an unprepared response means that nothing was written and the exception propagates; when a chunk cannot be written, an error is tried as the last one. For a client that can be written to: the last chunk is an error if and only if the commit raised, or the push was asked for and its image was not to be had, its feed raised or an item carries an error, cancellation excepted; otherwise every item of the feed was delivered; and the request is answered unless it was cancelled |
| Relay.ParseErrorChannel | platform_container_runtime/service.py:83-116 | the classification of an error-channel message, including what it raises on payloads of other shapes, is the specified one |
| Relay.ParseFailure | platform_container_runtime/service.py:97-116 | the loop over the causes computes the specified exit code, or the error of the first cause that cannot be read |
| Relay.LastCauseWins | platform_container_runtime/service.py:97-103 | an exit code comes out if and only if every cause can be read, and it is that of the last "ExitCode" cause, or 1 if there is none |
| Relay.VerdictIs | platform_container_runtime/service.py:100-103 | a cause states a code exactly if its "reason" is "ExitCode", namely its "message" as a number, and 1 if there is none; no other cause states any |
| Relay.CausesAre | platform_container_runtime/service.py:100 | the causes are what a loop over "causes" of "details" visits, and none where either is missing |
| Relay.FailureStatus | platform_container_runtime/service.py:92-116 | the rewritten failure carries the last "ExitCode" cause's value or 1, and the message unless it is falsy; it is lost if and only if a cause cannot be read |
| Relay.StatusIs | platform_container_runtime/service.py:89-95 | a payload that is no JSON gives exit code 1 and its text as the message; a missing status, or one that reads "success" in lower case, gives exit code 0 |
| Relay.FalsyIs | platform_container_runtime/service.py:105-110 | the falsy messages are null, false, 0, the empty string, the empty list and the empty object |
| Relay.ReaderParsesStatus | platform_container_runtime/service.py:66-70 | the receiver of a rewritten message parses exactly the computed status behind the channel byte |
| Relay.RewritingTwiceForgets | platform_container_runtime/service.py:92-93 | rewriting a rewritten message always gives exit code 0 |
| Relay.Stream.ProxyWs | platform_container_runtime/service.py:51-81 | a relay task from one await to the next, its `finally` included, is the transition that ReceivingIs, ResumedIs and the interleaving theorems are about |
| Relay.Stream.Copy | platform_container_runtime/service.py:35-55 | `copy` from one await to the next is the transition the interleaving theorems are about |
| Relay.Stream.Play | platform_container_runtime/service.py:35-81 | a stream played through any interleaving ends in the state of that run |
| Relay.Reachable | platform_container_runtime/service.py:35-81 | every interleaving of both tasks and `copy`, with any cancellation and any failing await, keeps the relay invariant |
| Relay.ForwardsInOrder | platform_container_runtime/service.py:57-81 | in every run, what each peer was sent is in order all binary messages read from the other but possibly the last: a message whose first byte is not 3 byte for byte, and one whose first byte is 3 as that byte and its printed status; the flag is set if and only if a task that ran has ended |
| Relay.ReceivingIs | platform_container_runtime/service.py:57-77 | what one message does: an ordinary one is on its way as it is, an error-channel one as byte 3 and its status; an error of the connection is passed over; an empty message, one of another kind and a status that cannot be computed end the task, and so does any message once the flag is set |
| Relay.ResumedIs | platform_container_runtime/service.py:56-81 | all other resumptions: what is being sent is sent once, the end of the messages and any exception end the task, and one cancelled before its first step never runs |
| Relay.NothingAfterClosing | platform_container_runtime/service.py:58-60 | however a run goes on after the flag is set, nothing received later is forwarded, and each task receives at most one more message |
| Relay.NoTaskOutlives | platform_container_runtime/service.py:45-55 | both tasks are done when `copy` is gone, however it ends, unless closing the client's side raised, or `copy` was cancelled while it waited and the first task, cancelled in turn, failed with another error |
| Relay.WhatCopyRaises | platform_container_runtime/service.py:38-55 | what `copy` raises comes from leaving the connection, from its own cancellation, from closing the client's side, or from a task that it had cancelled; when it raises nothing, both tasks are done |
| Relay.RaisesLast | platform_container_runtime/service.py:38-55 | of several exceptions the last one is raised: that of leaving the connection, else that of closing the client's side, else the cancellation |
| Relay.OutlivesFailedClose | platform_container_runtime/service.py:45-55 | the first exception can happen: a run that the sockets allow, in which closing raises and `copy` leaves two tasks that are neither done nor cancelled |
| Relay.OutlivesFailedTask | platform_container_runtime/service.py:45-55 | so can the second, if an await answers a cancellation with another exception: `copy` is cancelled, the first task fails so, and the second is left neither done nor cancelled |
| Relay.FailureIsSilent | platform_container_runtime/service.py:43-55 | the failure of a task that ended without having been cancelled never reaches the caller, at whatever point of the run it ended |
| Relay.WindsDown | platform_container_runtime/service.py:57-81 | once the flag is set, any task ends within two resumptions |
| Relay.CopyEnds | platform_container_runtime/service.py:35-55 | once a task has ended while `copy` waits, `copy` is gone after four resumptions of its own and two of the other task, if closing does not fail |

## Left out

- The gRPC stubs, sockets, TLS, logging, tracing and the wiring of clients and applications.
- URLs, headers and authentication of the registry client; its calls are the operations of `Push.Registry`.
- The CRI and Kubernetes clients, configuration, attach, exec and kill validation, the liveness endpoints.
- Finding the container by id: a container's fields are given, and looking it up can fail.
- The internals of SHA-256, json, `str.lower`, diffs and their application: contracts or arbitrary functions.
- Floating point numbers in JSON: numbers are integers.
- The expiry of the lease: it is one hour, and a commit is assumed to be faster.
- The clock: the creation time of a commit is a parameter, and that of an image record is not kept.
- Other clients of containerd: between two calls only the collector changes the state.
- The collection of snapshots, and with it the snapshot label of the config blob, which is written but keeps nothing alive.
- Image name normalisation: commit and push are given the same normalised name with a tag.
- Dictionaries updated in place: documents are values, so aliasing between a manifest and its config is not modelled.
- The Docker side of commit and push beyond the chunks it contributes to the response.
- The validation of the commit request's payload, which happens before anything is written.
- ReadBlob: the responses of a manifest or config read are taken as joined; only the layer upload sees their boundaries.
- Transfer: an upload that breaks off leaves the registry as it was; that a registry answers before it has read the whole body is not modelled.
- PushImage: a push that its consumer closes between two uploads just leaves the rest undone; only closing during an upload is modelled.
- GetParent: takes the lease only to state that it is kept; the call itself does not name it.
- CommitContainer: takes the acyclicity of indexes and of snapshot parents as given; a cyclic store, which no content-addressed store holds, would keep the loop going.
- WriteAll: writes out a generator that has been run ahead; that an abandoned generator does not run on, so that a failed first write prevents the commit, is not modelled.
- OutlivesFailedTask: assumes that an await of a relay task can answer a cancellation with another exception; the code of the task does not make it so.
- OutlivesFailedClose: takes a socket as closed once its closing was called, whether or not that raised; what the WebSocket library does with a task left waiting on it is not modelled.
- ErrorStatus: a failing parse of the payload is one case, whatever `json.loads` raised.
- ProxyWs: a message is read and answered in order; the buffering inside the WebSocket library is part of what resumes the task.
