# A verified model of the Posemesh nodes

This project models the nodes of the libp2p experiment: the data node that merges uploaded
partitions and pushes them to subscribers, the discovery nodes that replicate portals and
domains, the receiving app, and the two membership loops (Go and Rust). Everything the nodes
exchange goes through a byte-level model of the FlatBuffers buffers they build and read.

How it is layered:

- **Bytes.** `LittleEndian`, `FlatBuffers` (reading tables, and building back to front as
  functions on buffers), `FlatBufferBuilder` (the mutable builder, each call tied to those
  functions), `TableWriter`. The layout follows the FlatBuffers Internals document, sections
  "Structs", "Tables", "Unions, Enums and Scalars" and "Strings and Vectors".
- **Messages.** `DomainDataWire`, `DomainDataWriters`, `DomainWire`, `PortalWire`,
  `NodeInfoWire`, `RequestWire`: what the repository's writers build, in their call order and slot numbers,
  and what its accessors read. `WireLayout`: the same frames byte by byte, as a reader of the
  published format finds them. `FrameViews`, `FrameShape` and `PartitionMerge`: a bitmap merged
  inside the buffer its message came in.
- **The data node.** `Bitmaps`, `DirectoryKeys`, `Framing`, `Subscribers`, `PartitionStore`,
  `DataNode` (`ReceiveDomainData` with `classifyDomainData` as its callback, on directories, byte
  arrays and the registry in place), `Download` (the download handler), `Patterns` and
  `RequestMatching` (which directories a request is about).
- **Protocols.** `SnapshotProtocol` (subscribing while uploads go on), `Refinement` (the methods
  of the data node are steps of that protocol, so its results hold for files and stream
  contents), `DownloadRun` (a whole request as a run of steps), `NodeRuns` (a new node under any
  schedule of uploads, requests, handler steps and departures), `AppView`, `EndToEnd`,
  `NodeView` and `AppDownload` (from uploads and files to rows on a screen), `PortalReplication`,
  `DomainReplication`, `PublishGate`, `Neighbours`. Runs are sequences of steps; results are
  about every run.

Regular-expression matching, key derivation, key and JSON encoding are functions passed in,
with the laws of keys and JSON stated as a predicate (`DomainReplication.Lawful`); of the matcher
nothing is assumed, except in `RequestMatching` and `AppDownload`, where `Patterns.LikeRegexp` says
what the patterns of requests with plain names match (`SearchLikeRegexp` shows that a matcher can do
so). The portal results are stated for every faithful codec, and
`PortalReplication.WireCodecFaithful` shows that the repository's own is one. Random names,
UUIDs, drawn keys, results of file and network calls and mDNS reports are parameters or steps.
A directory is a map from names to entries, listed in any order.

Findings, each stated as a lemma next to the positive result it limits:

- `SnapshotProtocol.MissedExactlyWhenOvertaken`: a subscriber is left with an old frame exactly
  when the last upload to a directory was not pushed to it or fell between the moment its file was
  opened and the moment it was copied; `StaleCopyHappens` is such a run. With atomic copies and a
  pattern that matches the path of the directory as well as its name, no update is missed.
- `SnapshotProtocol.AnchoredGetsCopyOnly`: a pattern that matches the name but not the path, which
  an anchor in the requested name can do, gets one copy and no push; `AnchoredMisses` is such a run.
- `RequestMatching.NamelessRequest`: the search for a type is not anchored at the end, so a request for
  partitions also gets a directory of poses named `0_Partition` (`TypeInName`).
- `RequestMatching.AnchoredRequestMisses` and `ForeignUploadArrives`: both of the above for real
  requests, patterns and paths: a name with `^` in front, and one name in two domains.
- `SnapshotProtocol.SkippedHoldsPushes`: the handler passes a directory over when an upload replaced
  the file it had listed; a subscriber whose pattern matches the path has been pushed what is stored,
  any other gets nothing at all for it. `SkipHappens` is such a run.
- `DataNode.Node.ReceiveDomainData`: one stream that cannot be written to, registered under a pattern
  that matches, makes every upload to that directory end the uploader's connection with an error,
  after the upload was stored.
- `SnapshotProtocol.OtherKindsMissed`: messages that are not partitions are never pushed, so a
  subscriber sees one of all uploads to such a key if it was listed and copied, and otherwise none.
- `SnapshotProtocol.OtherDomainsArePushed`: pushing matches the whole path, so a subscriber gets
  the uploads to every other domain whose path fits its pattern.
- `PortalWire.PortalRoundTrip`: a portal size of negative zero comes back as zero.
- `DirectoryKeys.DirPathsEqual`: the domain ids `""` and `"."` share a directory; otherwise
  distinct keys without slashes never do. `DirPathsMeet` and `RootsMeet` say exactly when keys and
  requests with slashes or ".." in them lead to one directory; `SlashMoves` is such a family.
- `Framing.CleanEndIff`: a stream that stops after a 4-byte header ends without an error.
- `PublishGate.ExplicitMayLag`: one expired address drops the whole peer from the explicit set.
- `DomainReplication.RestartRecovery`: a restart keeps what others announced, not what the node
  itself created.

In the source, `main` of the data node registers neither `classifyDomainData` nor the download
handler; their composition with `ReceiveDomainData` is modelled as their types and paths intend,
with the download handler given the directory that holds the domain directories.

## Model

| member | source | states |
|---|---|---|
| FlatBuffers.TableBuilt | Libposemesh/DomainData.go:101-124 | every slot of a finished table leads to its field, an unset slot to none, and earlier contents stay |
| FlatBuffers.ByteFieldRead | Libposemesh/DomainData.go:56-78 | a string field reads back as the string its slot refers to |
| FlatBuffers.VectorFieldRead | Libposemesh/Partition.go:53-59 | a vector field is found with its length and first element |
| FlatBuffers.ScalarFieldRead | Libposemesh/DomainData.go:44-50 | a scalar field reads back as what was written |
| FlatBuffers.FrameBuilt | Libposemesh/DomainData.go:24-33 | a size-prefixed frame announces its length and its root is found from the frame and from its body |
| FlatBuffers.FramePrefix | Libposemesh/DomainData.go:31-33 | the first four bytes of a finished frame are its length, least significant byte first |
| FlatBufferBuilder.Builder.EndObject | Libposemesh/DomainData.go:122-124 | the builder leaves exactly the table that the slots written so far describe |
| FlatBufferBuilder.Builder.FinishSizePrefixed | Libposemesh/DomainData.go:31-33 | the finished bytes are the aligned, size-prefixed frame |
| DomainDataWriters.WritePartition | Libposemesh/Partition.go:70-81 | the three calls build the partition table around a bitmap |
| DomainDataWriters.WriteDomainData | Libposemesh/DomainData.go:101-124 | the calls in either writer's order build the same table |
| DomainDataWriters.EncodeMerged | example/data_node/main.go:126-160 | the merged frame decodes to the given id, name, version and bitmap |
| DomainDataWriters.EncodeUpload | example/app/main.go:51-67 | the uploaded frame decodes to id, name, empty version and the bits of the content |
| DomainDataWire.FrameRoundTrip | example/data_node/main.go:126-160 | for all inputs both readers get back id, name, version, union type and bits; elided fields read as defaults |
| LittleEndian.Decode4 | utils/domain_data.go:86 | four bytes are read with the first one least significant |
| LittleEndian.EncodeDigit | Libposemesh/DomainData.go:105-124 | byte i of an encoded number is its i-th digit to the base 256 |
| WireLayout.TableBytes | Libposemesh/DomainData.go:101-124 | the front of every new table in bytes: vtable size, table size, entries and the distance back |
| WireLayout.FrameBytes | Libposemesh/DomainData.go:44-124 | both writers' frames in the bytes of the format: every field behind its own vtable entry, the deprecated one unset |
| WireLayout.PortalBytes | Libposemesh/Portal.go:44-86 | both portal frames in the bytes of the format |
| WireLayout.DomainBytes | Libposemesh/Domain.go:44-139 | the domain frame in the bytes of the format, with the reader references in order |
| WireLayout.RequestBytes | Libposemesh/DownloadDomainDataReq.go:44-82 | the app's request in the bytes of the format: the domain id and nothing else |
| WireLayout.NodeInfoBytes | Libposemesh/NodeInfo.go:71-83 | which bytes of the packed block hold which field |
| RequestWire.RequestRoundTrip | example/app/main.go:225-229 | the app's request reads back as its domain, no name and type NONE |
| RequestWire.CreateRequest | example/app/main.go:225-230 | the calls of the app build that request |
| DomainDataWire.DeprecatedSlotIgnored | Libposemesh/DomainData.go:44-124 | the writers leave slot 1 unset, and whatever is put there changes nothing that is read |
| FrameViews.FrameLikeBody | example/data_node/main.go:108-116 | a stored frame and the received body read as the same message, for every readable body |
| PartitionMerge.PartitionGetters | Libposemesh/Partition.go:44-59 | length and elements of the bitmap are those of the decoded message |
| PartitionMerge.MutateData | Libposemesh/Partition.go:61-68 | exactly one byte changes, and only if the field is present |
| PartitionMerge.MergePartitions | example/data_node/main.go:181-189 | in place, the bitmap becomes the OR when lengths agree and stays otherwise, nothing else in the buffer changes, also when both partitions are one object or lie side by side in one buffer |
| PartitionMerge.FrameIsolated | example/data_node/main.go:99-124 | in every frame the repository writes, overwriting the bitmap changes the bits read and nothing else |
| FrameShape.FrameOverwritten | Libposemesh/Partition.go:61-68 | a frame with other bitmap bytes written over its own is the frame of those bytes |
| Bitmaps.MergeAllBits | example/data_node/main.go:99-124 | a bit is set after merging a list of files exactly when it was set in the upload or in a file of the same length |
| Bitmaps.MergeAllOrderIrrelevant | example/data_node/main.go:90-124 | order and repetition of the listed files do not matter |
| Bitmaps.SuffixLaw | example/data_node/main.go:89-189 | after any uploads one bitmap is stored, the OR of the longest suffix of uploads as long as the last |
| Bitmaps.Convergence | example/data_node/main.go:181-189 | stores whose last equal-length stretches contain the same bitmaps are equal |
| Bitmaps.ConvergenceOfEqualLengths | example/data_node/main.go:181-189 | equal-length uploads with the same set of bitmaps, in any order and repetition, end equal |
| Bitmaps.StoreMonotone | example/data_node/main.go:181-189 | no stored bit clears while the length stays; a change of length replaces everything |
| DirectoryKeys.TypeNamesDistinct | Libposemesh/AnyDomainData.go:30-35 | distinct type bytes, known or not, have distinct names |
| DirectoryKeys.TypeNamesAre | Libposemesh/AnyDomainData.go:9-35 | the printed names of the known types and of an unknown one |
| DirectoryKeys.PartitionSegment | example/data_node/main.go:72 | a partition's directory is named name_Partition |
| DirectoryKeys.DirPathShape | utils/domain_data.go:96 | what path.Join makes of a key, for ids and names without a slash |
| DirectoryKeys.RootShape | example/data_node/main.go:207-208 | what path.Join makes of the requested domain id |
| DirectoryKeys.CleanOnto | utils/domain_data.go:96 | cleaning a path after a prefix is cleaning it on its own and then going there from the prefix |
| DirectoryKeys.DirPathsMeet | utils/domain_data.go:96 | for all ids and names, two keys share a directory exactly when their cleaned paths are equal or one climbs further and comes down again through the base path |
| DirectoryKeys.RootsMeet | example/data_node/main.go:207-208 | the same condition for a requested id to name the directory of another |
| DirectoryKeys.SlashMoves | example/data_node/main.go:72 | a slash can move between id and name without changing the directory |
| Download.FirstFile | example/data_node/main.go:233-240 | the file taken is one of the directory |
| Download.OpenFile | example/data_node/main.go:241-245 | the file of that name if it is still there, else nothing |
| DirectoryKeys.DirPathsEqual | example/data_node/main.go:72 | two keys share a directory exactly when they are equal or their domain ids are the two that path.Join drops |
| DirectoryKeys.DirPathInjective | utils/domain_data.go:96 | plain keys with underscores anywhere have distinct directories |
| Framing.Reader.ReadFull | utils/domain_data.go:78-94 | n bytes, EOF or unexpected EOF, depending on the remaining bytes only |
| Framing.Reader.NextFrame | utils/domain_data.go:78-94 | the next frame or the way reading ends, independent of chunking |
| Framing.ParseConcat | utils/domain_data.go:76-116 | the frames a sender writes are the frames received, in order |
| Framing.FirstFrameBytes | utils/domain_data.go:78-94 | the first frame of a stream from its bytes, for every header |
| Framing.ParsedPrefix | utils/domain_data.go:86-111 | the frames seen, concatenated, are the stream up to its unframed rest |
| Framing.CleanEndIff | utils/domain_data.go:76-94 | reading ends without error exactly on whole frames, optionally followed by a bare non-zero header |
| Framing.CutIff | utils/domain_data.go:83-94 | which of the two errors a cut stream gives |
| DataNode.ResultByLeftover | utils/domain_data.go:79-94 | which result each kind of unframed rest leads to |
| Subscribers.DomainDataSubscribers.AddSubscriber | utils/domain_data.go:43-47 | the stream is appended to its pattern's slice, all else is unchanged |
| Subscribers.DomainDataSubscribers.RemoveSubscriber | utils/domain_data.go:48-57 | only the first occurrence goes, by shifting the backing array, and order is kept |
| Subscribers.DomainDataSubscribers.ShiftDown | utils/domain_data.go:53 | the in-place deletion from a slice |
| Subscribers.DomainDataSubscribers.FindSubscribers | utils/domain_data.go:58-68 | a fresh slice with the streams of every matching pattern, each pattern once |
| Subscribers.RegistryRefinesPairs | utils/domain_data.go:38-57 | after any run the registry counts each (pattern, stream) pair as a multiset does |
| Subscribers.OrderIrrelevant | utils/domain_data.go:58-68 | the multiset found does not depend on map iteration order |
| Subscribers.FoundStreamsAreKept | utils/domain_data.go:43-68 | a result already returned survives any sequence of later additions and in-place removals |
| PartitionStore.MergeOfListing | example/data_node/main.go:90-124 | merging all listed files gives the same bits for every order of the listing |
| PartitionStore.UploadSettles | example/data_node/main.go:89-166 | a raw upload merged into a settled directory leaves it settled with the next stored bitmap |
| PartitionStore.IngestIsRun | example/data_node/main.go:71-87 | each directory holds the run of its own uploads after what it held before |
| PartitionStore.StoreSuffixLaw | utils/domain_data.go:96-114 | the suffix law for every directory under any mix of uploads to any keys |
| PartitionStore.PushDelivers | example/data_node/main.go:167-176 | each open stream gets the frame once per matching registration, closed ones nothing; only the entry named like the directory loses streams |
| PartitionStore.PushForgets | example/data_node/main.go:167-171 | exactly how many registrations of a closed stream the loop removes from the entry named like the directory |
| PartitionStore.SplitPathText | example/data_node/main.go:167 | the text a push is matched against, cut at the slashes, is the path |
| PartitionStore.DirTextInjective | example/data_node/main.go:167-169 | different plain keys have different texts |
| PartitionStore.DirTextIs | example/data_node/main.go:72 | that text spelled out: base path, domaindata, domain and last segment |
| PartitionStore.PushKeepsOpen | example/data_node/main.go:167-171 | no registration of an open stream is lost in the loop |
| PartitionStore.PushStops | example/data_node/main.go:172-175 | a failing stream ends the loop: those before it are served, those after it not |
| DataNode.ConservedStep | example/data_node/main.go:99-124 | merging a file and deleting it keeps the OR of accumulator and remaining files of its length |
| DataNode.Node.MergeFile | example/data_node/main.go:103-123 | one round of the merge loop, or an error for a file that is no partition |
| DataNode.Node.MergeFiles | example/data_node/main.go:99-124 | conservation through the whole loop, and success exactly when every file is a partition |
| DataNode.Node.WriteMerged | example/data_node/main.go:125-177 | one new file with the merged frame, which is then pushed |
| DataNode.Node.PushFrame | example/data_node/main.go:167-176 | registry and streams end as the push loop over the streams found makes them |
| DataNode.Node.ProcessPartition | example/data_node/main.go:89-179 | all outcomes: empty directory, bad file, merged and pushed; other directories are unchanged |
| DataNode.Node.Classify | example/data_node/main.go:71-87 | partitions are processed, other messages stay as received |
| DataNode.Node.SaveRaw | utils/domain_data.go:97-111 | the raw frame is one new file of its directory |
| DataNode.Node.TakeIn | utils/domain_data.go:95-114 | one clean message moves the store one step and touches one directory, and ends in an error exactly when it would be pushed to a stream that cannot be written to |
| DataNode.PushBlocked | example/data_node/main.go:167-176 | a push neither adds nor removes streams that cannot be written to, so it changes nothing about which directories they block |
| DataNode.Node.ReceiveDomainData | utils/domain_data.go:76-116 | result, raw frames written, stored bitmaps, saved messages and untouched directories, as functions of the byte stream; a failing subscriber ends the loop exactly after the first message pushed to it, which is still stored |
| DataNode.UploadIsClean | example/app/main.go:51-67 | every frame the app uploads meets what the receive loop asks of a message, if the merged message still fits |
| Download.CopyOne | example/data_node/main.go:233-250 | one file of the directory is appended to the stream, if there is any and the stream can be written to |
| Download.CopyOut | example/data_node/main.go:231-268 | one file of every non-empty matching directory is copied, each once; a closed or failing stream gets nothing and the loop returns at the first copy |
| Download.OnDownloadRequest | example/data_node/main.go:206-268 | the stream is registered under the request's pattern and sent exactly those files, or the handler returns early |
| RequestMatching.PatternsAre | example/data_node/main.go:210-219 | the pattern of a request with and without a name and a type, literally |
| RequestMatching.NamelessRequest | example/data_node/main.go:232 | without name and type a request matches every directory; with a type, exactly those of it and those with its suffix in the name |
| RequestMatching.NamedRequest | example/data_node/main.go:232 | with a plain name, exactly the directories in whose name it occurs before the separator |
| RequestMatching.WantsDomain | example/data_node/main.go:226-232 | a request without name and type wants the whole domain |
| RequestMatching.WantsType | example/data_node/main.go:226-232 | which directories of the domain a request for a type wants |
| RequestMatching.PathToo | utils/domain_data.go:58-68 | whatever finds a directory by its name finds its path |
| RequestMatching.AnchoredRequestMisses | example/data_node/main.go:219-232 | a request for a name with an anchor is not told of later uploads, on every node started as the source starts it |
| RequestMatching.ForeignUploadArrives | example/data_node/main.go:167-176 | a request for a name in one domain is pushed an upload of that name in another |
| Patterns.SearchLikeRegexp | utils/domain_data.go:33-36 | searching for the pieces of a pattern in order does what is asked of the matcher |
| Download.CopyShowsStored | example/data_node/main.go:241-246 | what is copied from a settled directory decodes to its stored bitmap |
| SnapshotProtocol.MissedExactlyWhenOvertaken | example/data_node/main.go:221-268 | in every run, for any matcher, a copied directory is up to date at a live subscriber if and only if its last upload was pushed to it and did not fall between open and copy, or was made before the file was opened |
| SnapshotProtocol.NoMissedUpdate | example/data_node/main.go:221-268 | with atomic copies and a pattern that matches the path of the directory, it is still pending or its last frame is the stored one, also when created after the listing |
| SnapshotProtocol.AtomicReaches | example/data_node/main.go:160-176 | with atomic copies no upload passes by a live session whose pattern matches the path |
| SnapshotProtocol.FramesReceived | example/data_node/main.go:221-268 | the exact number of frames a session has got for any key: one per push, and one if it was listed and copied, not passed over |
| SnapshotProtocol.SkippedHoldsPushes | example/data_node/main.go:241-245 | when the listed file is gone, a session whose pattern matches the path still holds the stored item, and any other holds nothing for the key |
| SnapshotProtocol.OtherNeverSkipped | example/data_node/main.go:241-245 | a directory that holds no partitions is never passed over |
| SnapshotProtocol.SkipHappens | example/data_node/main.go:241-245 | for every key and pattern that matches its name, a run that passes it over |
| SnapshotProtocol.AnchoredGetsCopyOnly | example/data_node/main.go:219-232 | a pattern that matches the name but not the path gets the copy, if the directory was not passed over, which is up to date exactly until the next upload |
| SnapshotProtocol.AnchoredMisses | example/data_node/main.go:219-232 | for every such pattern, an atomic run that leaves an out-of-date last frame |
| SnapshotProtocol.StoredIsRun | example/data_node/main.go:139-166 | the stored bitmap is the run of the uploads made so far |
| SnapshotProtocol.SubscriberSeesSuffixOr | example/data_node/main.go:160-176 | the subscriber's last frame decodes to the OR of the longest equal-length suffix of uploads |
| SnapshotProtocol.NothingInvented | example/data_node/main.go:231-250 | only files that were stored are sent, and only from directories whose name or path matches |
| SnapshotProtocol.OtherFilesPile | utils/domain_data.go:97-111 | every upload that is no partition stays a file of its own |
| SnapshotProtocol.OtherKindsMissed | example/data_node/main.go:79-86 | of all uploads to a key that is no partition a session gets one exactly if the key was listed and its copy is done |
| SnapshotProtocol.OtherDomainsArePushed | example/data_node/main.go:167-176 | over a whole run a session gets from a domain its request does not lead to exactly the uploads made to matching paths while it was live |
| SnapshotProtocol.StaleCopyHappens | example/data_node/main.go:241-246 | for every key and matching pattern, a run that leaves an out-of-date last frame |
| SnapshotProtocol.TextEndsInName | utils/domain_data.go:33-36 | the path a push is matched against ends in the directory name the listing is matched against, for every clean base path |
| Refinement.Create | example/data_node/main.go:69 | a new node stands for the protocol's start |
| Refinement.Upload | utils/domain_data.go:95-114 | taking in any clean message on the real directories, registry and streams is the protocol's upload step |
| Refinement.Register | example/data_node/main.go:221 | subscribing a new stream is the protocol's register step |
| Refinement.Listing | example/data_node/main.go:226-232 | the directories the handler looks at are those of the keys the protocol lists |
| Refinement.List | example/data_node/main.go:226-232 | listing the domain is the protocol's list step |
| Refinement.Choose | example/data_node/main.go:233-240 | listing a directory and taking its first file is the protocol's choose step |
| Refinement.OpenChosen | example/data_node/main.go:241-245 | opening the listed file is the protocol's open step if it is there and its skip step otherwise |
| Refinement.CopyOpened | example/data_node/main.go:246-250 | copying a file opened before, whatever was uploaded meanwhile, is the protocol's copy step |
| Refinement.Finish | example/data_node/main.go:270-275 | waiting after the last copy is the protocol's finish step |
| Refinement.Copy | example/data_node/main.go:233-250 | copying one directory is the protocol's snapshot step, with some stored file |
| Refinement.PeerLeaves | example/data_node/main.go:168-171 | a closed connection is the protocol's close step |
| Refinement.ListsOwn | example/data_node/main.go:207-208 | a requested id without slashes leads to its own domain only |
| Refinement.SubscriberUpToDate | example/data_node/main.go:221-268 | on the node's own data: unless the last upload was missed, the last frame written for a copied directory decodes to the bitmap stored in it |
| Refinement.NothingMissed | example/data_node/main.go:160-176 | atomic copies and a pattern that matches the path are enough for that |
| DownloadRun.ExecThen | example/data_node/main.go:191-277 | continuing a run step by step is the longer run |
| DownloadRun.SnapshotAll | example/data_node/main.go:231-268 | the copies of all picked files are as many snapshot steps |
| DownloadRun.Request | example/data_node/main.go:206-276 | an uninterrupted request is the steps register, list, one snapshot per directory and finish |
| AppView.NamesParseBack | utils/domain_data.go:118-123 | the names the sender draws parse back to their row numbers |
| AppView.ShownByName | example/app/main.go:202-216 | rows 0 to 4 are shown, other numbers crash, and a name that is no number is row 0 |
| AppView.OthersRejected | example/app/main.go:203-207 | the callback fails exactly for messages of another type or without data |
| AppView.ShowParts | example/app/main.go:201-222 | the first message that is not shown ends the loop, with the rows as they were |
| AppView.Visual.AddRow | example/app/main.go:87-91 | exactly one row is replaced |
| AppView.PixelsOf | example/app/main.go:208-215 | the row is the decoded bitmap |
| AppView.Show | example/app/main.go:201-218 | shown, rejected or panicked, by union type and row number |
| AppView.ShowDownload | example/app/main.go:201-222 | rows and result depend on the bytes of the stream only |
| EndToEnd.StreamDecodes | utils/domain_data.go:76-95 | however the stream is cut up, the app decodes the items sent, in order |
| EndToEnd.RowsShowLast | example/app/main.go:87-91 | every row shows the last item sent for it |
| EndToEnd.RowsMatchItems | example/app/main.go:201-218 | showing the decoded messages leaves the row of a copied, watched key equal to the protocol's stored bitmap |
| EndToEnd.RowsMatchStore | example/app/main.go:201-218 | the same from the bytes on the wire, in whatever chunks they arrive |
| NodeView.FramesShow | utils/domain_data.go:76-95 | the bytes written to a stream, in any chunks, decode to the items the session was sent |
| NodeRuns.ChosenStays | example/data_node/main.go:231-245 | a listed file outlives an upload unless it was a partition that was merged away |
| NodeRuns.Next | example/data_node/main.go:221-276 | the next thing a download handler does, wherever it is, is one protocol step |
| NodeRuns.DoReceive | utils/domain_data.go:95-114 | an upload in the middle of requests is one step, and the handlers' variables still fit |
| NodeRuns.DoConnect | example/data_node/main.go:206-221 | a new stream is registered under its request and is one step |
| NodeRuns.DoAsk | example/data_node/main.go:206-276 | an uninterrupted request on a new stream continues the run |
| NodeRuns.DoProceed | example/data_node/main.go:221-276 | a handler goes on, or is as good as returned when its peer has left |
| NodeRuns.DoLeave | example/data_node/main.go:168-171 | a departure continues the run |
| NodeRuns.Serve | example/data_node/main.go:69-277 | from a new node, any uploads, requests, handler steps and departures in any order are a run of the protocol, with exactly the uploads received |
| NodeRuns.StoredAfterServing | example/data_node/main.go:89-189 | after any schedule a partition directory exists exactly for keys received and holds the OR of the longest equal-length suffix received |
| NodeRuns.RowsAfterServing | example/app/main.go:201-218 | after any schedule, a subscriber done with a directory that did not miss the last upload shows that OR |
| NodeRuns.RowsWhenUninterrupted | example/app/main.go:201-218 | with uninterrupted requests every live subscriber whose pattern matches name and path shows it |
| NodeRuns.Attend | example/data_node/main.go:221-276 | left to itself, a handler goes through its directories and then waits |
| AppDownload.AppAsksForAll | example/app/main.go:225-230 | the app's request asks for any name and any type, by the pattern .*_.* |
| AppDownload.AppSeesDomain | example/app/main.go:201-230 | an app that asked with its own request and has not left shows, for every key of the domain, the OR of the longest equal-length suffix uploaded |
| NodeView.RowsMatchNode | example/app/main.go:201-218 | from files to screen: decoding the bytes written to a subscriber leaves the row of a copied, watched key equal to the bitmap stored in its directory |
| EndToEnd.RowsNeverClear | example/data_node/main.go:160-176 | while a key's uploads keep their length, no bit in its row ever clears |
| DomainWire.DomainRoundTrip | example/app/main.go:257-278 | id, name, writer and every reader come back, for every number of readers; absent fields read as empty |
| DomainWire.CreateReaderStrings | example/app/main.go:262-265 | one string per data node, in order |
| DomainWire.WriteReaders | example/app/main.go:266-270 | prepending references from last to first builds the vector in order |
| DomainWire.CreateDomain | example/app/main.go:257-278 | the frame decodes with the first data node as writer and all of them as readers |
| PortalWire.PortalRoundTrip | Libposemesh/Portal.go:44-86 | both writers are undone by the accessors; equal unless the size is negative zero |
| PortalWire.PublishPortal | example/discovery_node/main.go:172-185 | the published frame decodes to the portal |
| PortalWire.CreatePortal | example/app/main.go:298-307 | the created frame decodes to the portal |
| NodeInfoWire.PackedReads | Libposemesh/NodeInfo.go:22-66 | the seven getters read back all fields of the packed block, negative numbers included |
| NodeInfoWire.CreateNodeInfo | Libposemesh/NodeInfo.go:71-83 | from any builder state, an 8-aligned 32-byte block; earlier contents unchanged |
| NodeInfoWire.Mutate | Libposemesh/NodeInfo.go:25-69 | each mutator changes its own field and no other |
| PortalReplication.WireCodecFaithful | Libposemesh/Portal.go:44-86 | the repository's two writers and its accessors are a codec for which the replication results hold |
| PortalReplication.DiscoveryNode.OnCreatePortal | example/discovery_node/main.go:38-58 | the portal is stored and its frame, which decodes to it, handed on |
| PortalReplication.HeldIffKnown | example/discovery_node/main.go:38-58 | a node holds an id exactly when it created it or was told of it by another node since its last restart |
| PortalReplication.CreatedIsHeld | example/discovery_node/main.go:51-55 | the creator holds the portal, and the others can be told of it if it was published |
| PortalReplication.RepublishedIsTold | example/discovery_node/main.go:187-193 | so can they after it is published again |
| PortalReplication.FilesAreSaved | example/discovery_node/main.go:221-233 | files are exactly what was saved on delivery, the last message about each id |
| PortalReplication.DiscoveryNode.OnPortalMessage | example/discovery_node/main.go:213-235 | a message from another node counts only for an id not held yet; saving may fail |
| PortalReplication.PortalAgreement | example/discovery_node/main.go:211-237 | any two nodes holding an id hold the portal it was created with |
| PortalReplication.FilesMatchMemory | example/discovery_node/main.go:223-233 | a saved file decodes to what any node has in memory under its name |
| PortalReplication.NeverLost | example/discovery_node/main.go:52 | between restarts an entry never goes and never changes |
| PortalReplication.DeliveredIsHeld | example/discovery_node/main.go:218-222 | one delivery is enough |
| DomainReplication.DiscoveryNode.InitPeerIdentity | node/peer.go:11-57 | the key on disk, or a new one that is then on disk |
| DomainReplication.DiscoveryNode.OnCreateDomain | example/discovery_node/main.go:108-125 | the domain made of a request; it is listed only if it could be published |
| DomainReplication.MadeOfRequest | utils/domain_cluster.go:17-37 | the domain made is the request with the id and secret of the node's key for its name |
| DomainReplication.ListedExactly | example/discovery_node/main.go:108-119 | in every run a node lists exactly what it created and published since its last restart and what it had received before that |
| DomainReplication.CreatedIsListed | example/discovery_node/main.go:115-119 | a creation is listed if it was published; a failed one leaves the list alone |
| DomainReplication.PublishedReachesOthers | example/discovery_node/main.go:239-265 | a published domain can reach any other node, which lists it after a restart |
| DomainReplication.RestartPublishes | example/discovery_node/main.go:104-105 | at startup a node publishes what it has on disk |
| DomainReplication.InvitedIff | utils/domain_cluster.go:40-56 | invited are the writer and the others of a domain, as far as they were reached |
| DomainReplication.MembersHaveJoined | utils/domain_cluster.go:61-106 | a member lists what it joined last under each id and has its secret and record on disk under its name |
| DomainReplication.DiscoveryNode.OnDomainMessage | example/discovery_node/main.go:246-263 | a valid message from another node becomes the meta file of its id, nothing else |
| DomainReplication.DiscoveryNode.LoadDomains | example/discovery_node/main.go:86-107 | the loop over the directories in any order; those with a secret only add nothing |
| DomainReplication.LoadOrderIrrelevant | example/discovery_node/main.go:92-107 | loading gives one list for every order of the directories |
| DomainReplication.MemberNode.OnJoin | utils/domain_cluster.go:61-125 | secret, list and meta file of a joined domain, and the empty secret file a bad secret leaves |
| DomainReplication.DomainIdentity | utils/domain_cluster.go:17-58 | in every reachable state every copy of a domain has its id derived from the secret it carries and sits under its own id |
| DomainReplication.SameNameSameDomain | node/peer.go:11-57 | creating a name again on a node gives the same id and secret, across restarts and failures |
| DomainReplication.DistinctNamesDistinctIds | utils/domain_cluster.go:23-36 | different names, or one name on two nodes, never share an id |
| DomainReplication.RestartRecovery | example/discovery_node/main.go:86-107 | after a restart the list is exactly the ids received from others, each with its last received record |
| PublishGate.EventLoop.OnEvent | rust-libp2p/src/lib.rs:159-213 | one round of the loop, and whether an announcement went out |
| PublishGate.EventLoop.Handle | rust-libp2p/src/lib.rs:158-214 | the loop over any events, and at which of them it announced |
| PublishGate.CountRightIffHonest | rust-libp2p/src/lib.rs:179-192 | the count equals the live pairs at every event boundary if and only if mDNS is honest |
| PublishGate.ExplicitIffLastSeen | rust-libp2p/src/lib.rs:182-189 | a peer is explicit exactly when the last event naming it was a discovery |
| PublishGate.CountCoversExplicit | rust-libp2p/src/lib.rs:179-192 | the count is at least the number of explicit peers |
| PublishGate.ExplicitMayLag | rust-libp2p/src/lib.rs:186-191 | an honest run with a live pair and no explicit peer |
| PublishGate.PublishedIffSent | rust-libp2p/src/lib.rs:161-177 | the gate is shut exactly when an announcement went out |
| PublishGate.SentOnce | rust-libp2p/src/lib.rs:161-177 | at most one announcement, on the first accepted tick with a positive count |
| PublishGate.NodesHoldLastHeard | rust-libp2p/src/lib.rs:193-206 | the map holds the last valid announcement of each id |
| Neighbours.Node.AddNode | node/libp2p.go:71-78 | an entry already there is kept |
| Neighbours.Node.OnEvent | node/libp2p.go:268-326 | one round of the leave loop or the receive loop |
| Neighbours.Node.FindNodes | node/libp2p.go:80-92 | each id as often as the type occurs among its types |
| Neighbours.TableIsFirstSinceLeft | node/libp2p.go:268-326 | a peer is in the table exactly when announced since it last left, with the first such announcement; the node itself never is |
| Neighbours.IdsStayOwn | node/libp2p.go:71-78 | every entry is under its own id |

## Left out

- Vtable sharing and buffer growth of the FlatBuffers library: its source is not part of this model, so every table has a vtable of its own.
- Positions in a buffer are unbounded integers; the wrap-around of 32-bit positions in buffers no writer produces is not modelled.
- FlatBuffers.TableBuilt: a table whose fields span 64 KiB or more is excluded, as the 16-bit vtable entries require; no table of this repository comes near.
- Malformed buffers, and partition messages without union data: well-formedness is a precondition (`DataNode.CleanUpload`).
- DataNode.Node.ReceiveDomainData: stated for clean uploads; what a bad file does is stated for `ProcessPartition`, and who got a frame that a failing stream stopped for `PartitionStore.PushStops`.
- Refinement.Upload: the protocol has no failing streams, so the node refines it while writes to open streams succeed.
- NodeRuns.DoProceed: what a handler reads for a peer that has left is not followed; it can write nothing.
- Crashes and I/O errors inside `processPartition`, which deletes its inputs before it writes the merged file.
- Concurrent uploads to one directory and interleaved bytes of stream writes; one upload at a time is a step.
- Download.OnDownloadRequest: key directories hold files only; the re-read of the copied file for a log line is dropped.
- Removing closed subscribers for good: the push loop passes the directory path where the registry is keyed by pattern, so only an entry of that very name is removed, as `PartitionStore.PushDelivers` says.
- Short reads in handlers that read a request with a single call; requests arrive whole.
- EndToEnd.RowsMatchStore: assumes one row number per key among the frames sent, names that parse to a row, and partitions only; other frames end the app's loop as `AppView.Show` says.
- NodeView.RowsMatchNode: the same assumption, made of the frames written to the stream.
- RequestMatching.NamedRequest: names with characters that mean something in a regular expression, other than an anchor in front; for them and for unknown types, whose printed name has parentheses, only the results that hold for every matcher are stated.
- PartitionMerge.MergePartitions: two tables of one buffer whose bitmaps overlap; no caller has them.
- A request for the domain ids "", "." or ".." makes the code list directories that hold no messages themselves; the model has entries for key directories only.
- A base path is a list of segments relative to the working directory, as the node is started; absolute paths are not represented.
- The files that the app's own receive loop writes.
- PortalReplication.PortalAgreement: assumes fresh ids per creation, as UUIDs give, and identifies float32 values with their bit patterns.
- Domain names that are paths, a member that creates a domain of a name it has joined, the empty marker file beside a peer key, and the topic a member joins.
- The 32-bit width of the Rust peer counter.
- Poses, ping, hole punching, jobs, configuration, the HTTP and React code, the app's domain lookup and the remaining generated tables: plumbing or easy repeats.
- libp2p itself: streams, gossip and mDNS are environments that deliver bytes, messages and events.
