# Verification of assisted-events-streams

The program reads events about OpenShift clusters, hosts and infra-envs from
Kafka, keeps a snapshot of the latest states in Redis, and stores every cluster
event in OpenSearch, enriched with the snapshot. An on-prem variant first turns
uploaded archives into such a stream. This project models three parts of it and
proves what they do.

* **The JSON edit engine and the enrichment pipeline.** `JsonValues` has JSON
  values, an abstract text codec and get/set/delete. `JsonEdit` follows the
  loops of `Transform`, `Rename` and `Delete`, with their swallowed and carried
  errors, their re-reading of text and the unchecked list assertion, and proves
  them equal to pure functions. `JsonEditMeaning` says what those functions do
  in terms of what is read before and after, `JsonEditLaws` and `JsonFrames`
  prove order independence and frames, `MapToList` the list transformations and
  their round trip, `DefaultFields` the path tables, `Anonymize` the two-phase
  pseudonyms. `Pipeline`, `ListingEffects` and
  `EventEnricher` put the six passes together, `EnrichedRecords` states the
  result field by field in terms of the records an event is made from, with host
  and infra-env still joined. `ListingOrders` compares two runs with different
  iteration orders.
* **The message lifecycle.** `SnapshotRepository` is the Redis store, a flat
  keyspace of hashes with one deadline each; `SnapshotExpiry` says what is
  readable when. `Projection` is the dispatcher with its ack table,
  `AckAccounting` the consumer, the bulk workers and the committer as an
  interleaved state machine, `Rewind` the snapshot under Kafka rewinds,
  `EnrichmentInputs` the link from the stored invariant to the join.
  `EventExtractor` is the on-prem extractor on its bounded channel, `Hydrator`
  its goroutine pipeline as a state machine, `ArchiveReplay` the composition of
  extractor, snapshot and enricher.
* **The host summary.** `HostsSummary` counts labels and normalises them to
  shares; floating point is modelled as reals.

## Reading the model

*Map iteration.* Go visits maps in arbitrary order. A loop over a map either
takes any remaining key at each turn, or follows a sequence that `Enumerates`
the keys; theorems quantify over all of them. `Setup` collects the choices of
one run of the pipeline, where a choice may differ between any two places, and
the listing tables of the enricher.

*Text.* `Codec` holds `parse`, `render` and the MD5 digest as unknown
functions. `Lawful` is all that is assumed: printing is undone by parsing, the
empty text is no JSON, a string is shorter than its JSON text, a digest has 32
digits. Numbers are opaque.

*Concurrency.* One step of a state machine is one atomic action of one
goroutine; a theorem about `Run` holds for every interleaving of any length.

*Failures.* Which commands, downloads, reads and bulk items succeed is decided
by parameters (`Env`, `Write`, steps), so the theorems cover every combination
unless they say otherwise.

## Results worth knowing

The proofs follow the code, also where it may surprise:

* The error variable that `Transform` carries from path to path is never
  observable: it can only suppress writing null over null.
* A user name is replaced by its digest exactly if neither is JSON text. A name
  such as `42` or `true` is not hashed; it reaches the event as user id
  (`JsonTextIsNotHashed`). An all-digit digest would turn into a number.
* Renaming a simple path to a target with `[*]` loses the value: the target is
  not set, without an error, and the source is deleted. No table does it.
* Listing an object and reading the list back loses exactly the `id` fields of
  the objects in it.
* Without any infra-env the summary says the architecture is heterogeneous: the
  flag is false only if some host has an infra-env.
* Undecodable messages and malformed cluster events are acked once, malformed
  state events twice, events of excluded users never.
* The extractor cannot return if an archive emits more events than the event
  channel holds. Its message is then never acked (`stuck` in `Hydrator`);
  failed downloads and undecodable payloads are never acked either
  (`dropped`). Failed Kafka writes are only logged: the message is acked all
  the same.

## Model

| member | source | states |
|---|---|---|
| `JsonValues.UnpackKeepsStructure` | pkg/jsonedit/transform.go:27-33 | only strings and null change when they are re-read from their own text: null becomes the empty string, JSON text what it denotes |
| `JsonValues.SetIsUpdate` | pkg/jsonedit/transform.go:43 | setting a location that exists never fails and changes that location only |
| `JsonValues.RemoveIsUpdate` | pkg/jsonedit/delete.go:22 | deleting a key is a local change of the enclosing object |
| `JsonValues.SetIsRead` | pkg/jsonedit/rename.go:90 | setting fails exactly if a list stands in front of the last key; otherwise the value can be read back, also where the location did not exist |
| `JsonValues.RemovedIsGone` | pkg/jsonedit/delete.go:22 | what was deleted cannot be read any more |
| `JsonValues.GetUpdated` | pkg/jsonedit/transform.go:20-47 | what is read back at an edited location is the edited value, and nothing is created |
| `JsonValues.GetElsewhere` | pkg/jsonedit/transform.go:20-47 | an edit is not seen at any location that diverges from it |
| `JsonValues.UpdatesCommute` | pkg/jsonedit/transform.go:15-48 | edits at diverging locations commute on every document |
| `JsonValues.SetsCommute` | pkg/jsonedit/rename.go:90 | setting at diverging locations commutes, missing parents and replaced scalars included, and neither makes the other fail |
| `JsonValues.SetRemoveCommute` | pkg/jsonedit/rename.go:90-95 | the same for setting and deleting |
| `JsonEdit.TransformPlain` | pkg/jsonedit/transform.go:20-47 | one simple path: whatever error an earlier path left behind, the outcome is the edit of that value alone, so the carried error is never observable |
| `JsonEdit.TransformChildren` | pkg/jsonedit/transform.go:61-85 | the closure for `[*]` maps every element in place; none is ever dropped by its `continue`s |
| `JsonEdit.TransformFromComplexPath` | pkg/jsonedit/transform.go:53-87 | a `[*]` path edits the list under its parent element by element; a parent that is no list, null or missing is left alone |
| `JsonEdit.Transform` | pkg/jsonedit/transform.go:13-50 | the loop with its carried error equals the fold of the one-path function over the paths |
| `JsonEdit.DeleteFromComplexPath` | pkg/jsonedit/delete.go:32-65 | `[*]` deletion removes the child from every element and keeps length and order |
| `JsonEdit.Delete` | pkg/jsonedit/delete.go:12-29 | fails if and only if some path is unsupported, and has then applied exactly the paths before the first such one |
| `JsonEdit.DeletedBefore` | pkg/jsonedit/delete.go:14-20 | the paths deleted are those in front of the first unsupported one, and all if there is none |
| `JsonEdit.Rename` | pkg/jsonedit/rename.go:13-102 | for every map and visiting order: panics exactly when the unchecked list assertion meets JSON that is no list at its turn, otherwise yields the fold of single renames |
| `JsonEditMeaning.TransformedValue` | pkg/jsonedit/transform.go:20-47 | read back after a simple path: null and values whose transformation fails stay, any other is the transformation of what its text denotes |
| `JsonEditMeaning.RenameMoves` | pkg/jsonedit/rename.go:78-99 | with diverging ends the re-read value is at the target and gone from the source, unless there is none or a list is in the way, which changes nothing |
| `JsonEditMeaning.UnevenRename` | pkg/jsonedit/rename.go:15-31 | a simple source with a `[*]` target is lost and all apart from it kept; a `[*]` source without a matching target changes nothing |
| `JsonEditMeaning.RenamePanicsExactly` | pkg/jsonedit/rename.go:32-46 | a rename inside a list panics exactly if the parent is a boolean, a number, an object, or JSON text of anything but a list |
| `JsonEditMeaning.TextIsEditedAsList` | pkg/jsonedit/transform.go:29-47 | a list held as text is decoded and then edited like a list, by all three operations |
| `JsonEditMeaning.NoListIsLeftAlone` | pkg/jsonedit/transform.go:62-65 | a parent that is no list and no text of one is left alone |
| `JsonEditLaws.MissingPathsAreIgnored` | pkg/jsonedit/rename.go:32-35 | missing and unsupported paths leave the document alone in all three operations, and their rename never panics |
| `JsonEditLaws.TransformPathsCommute` | pkg/jsonedit/transform.go:15-48 | transforming two independent paths commutes on every document, also under one shared list |
| `JsonEditLaws.TransformOrderIndependent` | pkg/jsonedit/transform.go:15-48 | pairwise independent paths may be visited in any order |
| `JsonEditLaws.RenameIsRelabel` | pkg/jsonedit/rename.go:78-99 | re-read, set, delete between siblings is one relabelling inside the enclosing object, and a target that cannot be set changes nothing |
| `JsonEditLaws.PanicUnaffected` | pkg/jsonedit/rename.go:32-46 | whether one rename panics does not depend on whether an independent one came first |
| `JsonEditLaws.RenamePathsCommute` | pkg/jsonedit/rename.go:13-102 | two independent renames, whatever their ends, commute on every document; so do they with their panics, either order panicking if and only if the other does |
| `JsonEditLaws.RenameOrderIndependent` | pkg/jsonedit/rename.go:14 | for pairwise independent renames every iteration order of the map gives the same document, or every one panics |
| `JsonEditLaws.PlainRenamesCommute` | pkg/jsonedit/rename.go:78-99 | two simple renames with diverging ends commute, whichever of them find no source or cannot set their target |
| `JsonFrames.TransformFrame` | pkg/jsonedit/transform.go:13-87 | transforming a path keeps every value, at any depth, that is apart from it |
| `JsonFrames.DeleteFrame` | pkg/jsonedit/delete.go:12-65 | the same for deletion |
| `JsonFrames.RenameFrame` | pkg/jsonedit/rename.go:13-102 | the same for renaming, with respect to source and target |
| `JsonFrames.TransformActsOnList` | pkg/jsonedit/transform.go:61-85 | on a list, null or nothing, a `[*]` path is an element-wise map that keeps length and order |
| `JsonFrames.DeleteActsOnList` | pkg/jsonedit/delete.go:38-63 | the same for deletion |
| `JsonFrames.RenameActsOnList` | pkg/jsonedit/rename.go:44-70 | the same for renaming |
| `JsonFrames.PassActsOnList` | pkg/jsonedit/transform.go:15-48 | a whole pass rewrites each element by a pass over that element alone |
| `MapToList.UnpackTwice` | internal/projection/process/transform.go:10-15 | unpacking is idempotent on a value if and only if what it leaves is not text that can be read again |
| `MapToList.MapToKeyedList` | internal/projection/process/transform.go:37-54 | the keyed loop lists one item per entry in iteration order; an empty object becomes null |
| `MapToList.MapToList` | internal/projection/process/transform.go:19-29 | the drop-key loop lists the values in iteration order; an empty object becomes null |
| `MapToList.ListersList` | internal/projection/process/transform.go:18-56 | both transformations fail exactly on what is no object; an object becomes null if empty, otherwise one item per entry: its object with the key as `id`, a key and value pair, or the bare value |
| `MapToList.ListRoundTrip` | internal/projection/process/transform.go:36-56 | for every iteration order the list is as long as the object, and decoding it gives back the object up to the `id`s of its objects |
| `MapToList.ListRoundTripExact` | internal/projection/process/transform.go:44-52 | decoding gives back the object itself if and only if no object in it has an `id` of its own |
| `MapToList.DroppedKeepsValues` | internal/projection/process/transform.go:24-28 | dropping keys keeps every value with its multiplicity, whatever the order |
| `MapToList.ListingTwice` | internal/projection/process/transform.go:18-56 | a second listing pass changes nothing, even with another iteration order |
| `DefaultFields.AnonymizeTableIsIndependent` | internal/projection/process/default_fields.go:42-49 | the four anonymised fields and their targets are pairwise independent sibling renames |
| `Anonymize.AnonymizeJson` | internal/projection/process/anonymize.go:12-31 | hash phase and rename phase over two unrelated iteration orders compute the specified document or panic |
| `Anonymize.AnonymizeOrderIndependent` | internal/projection/process/anonymize.go:12-31 | for every document and every independent table, all iteration orders of both phases agree, panics included |
| `Anonymize.PseudonymIsDigest` | internal/projection/process/anonymize.go:17-30 | a user name becomes its own digest if and only if the digest is no JSON text and the name is none either (or denotes a string with that digest) |
| `Anonymize.JsonTextIsNotHashed` | internal/projection/process/anonymize.go:17-25 | a name that is JSON text of a value that is neither a string nor null is not hashed: that value becomes the user id |
| `Anonymize.PseudonymOfOthers` | internal/projection/process/anonymize.go:17-25 | null becomes the empty string; any other value that is no string is kept |
| `Pipeline.RenameNeverPanics` | pkg/jsonedit/rename.go:46 | on a document of the enricher's shape no rename pass over the table panics |
| `Pipeline.AnonymizedObjectForm` | internal/projection/process/anonymize.go:17-30 | inside one object: the name is gone, the id is the pseudonym of the name, every other field is kept |
| `Pipeline.EditedForm` | internal/projection/process/event_enricher.go:49-68 | every run finishes without panic, keeps number and order of hosts and infra-envs, and rewrites each by one function of it alone |
| `Pipeline.EditedOrderIndependent` | internal/projection/process/event_enricher.go:61 | the iteration orders of anonymising do not affect the edited document |
| `Pipeline.EditedFrame` | internal/projection/process/event_enricher.go:49-68 | every value apart from the tables is unchanged by the five editing passes |
| `Pipeline.DefaultTablesAreValid` | internal/projection/process/default_fields.go:3-31 | the default tables hold no path twice and none that a later pass is about, so all theorems apply to them |
| `ListingEffects.ListedHostField` | internal/projection/process/event_enricher.go:49-60 | for all tables: what the three listing passes make of any field of a host |
| `ListingEffects.ListedHosts` | internal/projection/process/event_enricher.go:49-60 | listing rewrites the hosts one by one, in place |
| `ListingEffects.ListedClusterField` | internal/projection/process/event_enricher.go:49-60 | for all tables: what they make of any field of the cluster but its hosts |
| `ListingEffects.DefaultHostValue` | internal/projection/process/default_fields.go:3-31 | with the default tables eight fields of a host are unpacked, two of which become lists of items; all others are kept |
| `ListingEffects.DefaultClusterValue` | internal/projection/process/default_fields.go:3-31 | the feature usage becomes the list of its values, the majority groups a list of items, the validations are unpacked; all other fields are kept |
| `ListingOrders.ListedValuesAlike` | internal/projection/process/transform.go:18-56 | what listing makes of a value is the same in every run, up to the order of the elements if it becomes a list |
| `EventEnricher.GetHostsWithEmbeddedInfraEnv` | internal/projection/process/event_enricher.go:185-196 | in place: panics exactly when a host and an infra-env have ids that are both objects or both lists, otherwise every host is joined |
| `EventEnricher.EmbeddedIsTheLast` | internal/projection/process/event_enricher.go:185-196 | the last infra-env whose id equals the host's `infra_env_id` is embedded and nothing else changes; a missing id counts as null |
| `EventEnricher.UnreferredIsUnchanged` | internal/projection/process/event_enricher.go:185-196 | a host that refers to no infra-env is unchanged |
| `EventEnricher.EmbeddedIsTheMatch` | internal/projection/process/event_enricher.go:185-196 | with unique string ids the embedded infra-env is the one whose id the host names |
| `EventEnricher.EmbeddedKeeps` | internal/projection/process/event_enricher.go:185-196 | nothing but `infra_env` changes in a host |
| `EventEnricher.JoinPermuted` | internal/projection/process/event_enricher.go:185-196 | with unique string ids the joined hosts are the same up to order, however hosts and infra-envs are ordered |
| `EventEnricher.BaseEventIsShaped` | internal/projection/process/event_enricher.go:114-122 | in every base event the hosts are a list or null and the infra-envs a list or absent |
| `EventEnricher.BaseEventFields` | internal/projection/process/event_enricher.go:113-122 | the base event keeps every field of the cluster but `hosts`, and every other field of the event |
| `EventEnricher.GetBaseEnrichedEvent` | internal/projection/process/event_enricher.go:91-124 | the base document holds the joined hosts and the infra-envs; it panics exactly if the join does or the cluster is a nil map |
| `EventEnricher.EditJson` | internal/projection/process/event_enricher.go:49-68 | the five passes in their order produce the edited document, without panic |
| `EventEnricher.GetHostsFromEvent` | internal/projection/process/hosts_summary.go:9-21 | the hosts that are objects, in order |
| `EventEnricher.OthersAreSkipped` | internal/projection/process/hosts_summary.go:13-17 | what is no object in the list of hosts is skipped; `ObjectsAreKept` says that all else stays |
| `EventEnricher.GetTransformedEvent` | internal/projection/process/event_enricher.go:42-75 | the enriched event is the edited document plus a summary of its own hosts, and holds that summary: flag, count, iso type and every share |
| `EventEnricher.SummaryIsHeld` | internal/projection/process/event_enricher.go:77-88 | what can be read from the event at every key of the summary, as numbers of the hosts: heterogeneity, count, a most frequent type, the quotient for every label, nothing else |
| `EventEnricher.GetEnrichedEvent` | internal/projection/process/event_enricher.go:33-39 | from snapshot records to enriched event: it panics exactly on a nil cluster or uncomparable ids, and otherwise holds the summary of its hosts |
| `EventEnricher.EnrichedFrame` | internal/projection/process/event_enricher.go:42-88 | values apart from the tables and `host_summary` are those of the base event |
| `EventEnricher.EnrichedTopLevel` | internal/projection/process/event_enricher.go:42-88 | every field of the event but cluster, infra-envs and summary is that of the base event |
| `EventEnricher.EnrichedCluster` | internal/projection/process/event_enricher.go:61-68 | the cluster's pull secret, public key and user name are gone; its user id is the pseudonym of the name |
| `EventEnricher.EnrichedClusterField` | internal/projection/process/event_enricher.go:49-68 | every other field of the cluster is listed and otherwise unchanged |
| `EventEnricher.EnrichedHosts` | internal/projection/process/event_enricher.go:49-68 | number and order of hosts are kept and every field of every host is accounted for: name to pseudonym, embedded infra-env edited, all else listed |
| `EventEnricher.EnrichedInfraEnvs` | internal/projection/process/event_enricher.go:61-68 | number and order of infra-envs are kept; name to pseudonym, ssh key gone, every other field kept |
| `ListingOrders.EventsAgree` | internal/projection/process/event_enricher.go:42-75 | whatever orders Go chooses in listing and anonymising, two events made of one base event agree on every field, but for the order of elements in the fields that become lists |
| `EventEnricher.JoinPreserved` | internal/projection/process/event_enricher.go:42-75 | every host that matched in the join embeds, after all passes, exactly the top-level entry whose id it names |
| `EnrichedRecords.RecordsAreEnriched` | internal/projection/process/event_enricher.go:33-88 | every field of an enriched event in terms of the records it was made from: those of the event, the cluster, each host and each infra-env, and the join; the hosts summarised are exactly these |
| `EnrichmentInputs.InfraEnvsAreUnique` | internal/repository/redis/snapshot_repository.go:120-136 | infra-envs read from a reachable store have pairwise different string ids and belong to the cluster, in every order and after every failure |
| `EnrichmentInputs.JoinIsDeterministic` | internal/projection/process/event_enricher.go:185-196 | in a reachable store the join never panics and its hosts are the same up to order for every order of the reads |
| `EnrichmentInputs.EnrichFromStore` | internal/projection/enriched_event_projection.go:126-155 | whatever a reachable store holds and whichever reads fail, enriching never panics, and every field of the event is that of the stored cluster and of the records read, as in `RecordsAreEnriched`, with the summary of its hosts |
| `HostsSummary.UpdateInfraEnvStats` | internal/projection/process/hosts_summary.go:41-51 | each statistic counts its normalised label, if the infra-env has a string there, and no other |
| `HostsSummary.LabelIsNormalizedString` | internal/projection/process/hosts_summary.go:23-47 | a host has a label exactly if its embedded infra-env is an object with a string there; every dot becomes an underscore and all else is kept |
| `HostsSummary.NormalizeInfraEnvStats` | internal/projection/process/hosts_summary.go:31-39 | each count is divided by the total; something is divided by zero exactly if the total is zero and something was counted |
| `HostsSummary.GetHighestKeyValue` | internal/projection/process/hosts_summary.go:88-99 | for any map and iteration order the maximum, or zero if nothing is positive; a key that attains it, a fixed one if the maximum is strict |
| `HostsSummary.CountHost` | internal/projection/process/hosts_summary.go:64-70 | one turn of the counting loop bumps the labels of that host and nothing else |
| `HostsSummary.CountHosts` | internal/projection/process/hosts_summary.go:53-70 | host count, number of infra-envs and label counts are those of the list of hosts |
| `HostsSummary.AddHostsSummary` | internal/projection/process/hosts_summary.go:53-86 | the summary satisfies its declarative specification: shares, counts, flag and iso type |
| `HostsSummary.SharesArePositive` | internal/projection/process/hosts_summary.go:31-39 | every share lies in (0, 1] |
| `HostsSummary.SharesSum` | internal/projection/process/hosts_summary.go:31-39 | shares sum to at most one, and to one if and only if some host has an infra-env and all that have one have a string there |
| `HostsSummary.HighestShareDecides` | internal/projection/process/hosts_summary.go:77-80 | the flag is false if and only if some host has an infra-env and all share one normalised architecture |
| `HostsSummary.HighestShareIsMostFrequent` | internal/projection/process/hosts_summary.go:74-75 | the iso type is a most frequent `type` label, and empty only without any |
| `HostsSummary.SummaryPermuted` | internal/projection/process/hosts_summary.go:53-86 | a summary of some hosts is one of the same hosts in any other order: counts, shares, flag and iso type |
| `HostsSummary.DistributionIsUnique` | internal/projection/process/hosts_summary.go:31-51 | the shares of a statistic are determined by the hosts up to order, also where normalising merges labels |
| `SnapshotRepository.KeysAreSeparate` | internal/repository/redis/snapshot_repository.go:68-78 | the keys are those of the program, injective and with disjoint ranges |
| `SnapshotRepository.SnapshotRepository.HSet` | internal/repository/redis/snapshot_repository.go:45-66 | HSET then EXPIRE on the keyspace: nothing changes if the first fails, and the old deadline stays if the second does |
| `SnapshotRepository.SnapshotRepository.SetCluster` | internal/repository/redis/snapshot_repository.go:80-82 | the cluster is readable at once; hosts and infra-envs of all clusters are untouched at all times |
| `SnapshotRepository.SnapshotRepository.SetHost` | internal/repository/redis/snapshot_repository.go:84-86 | the same for a host: clusters, infra-envs and hosts of other clusters are untouched |
| `SnapshotRepository.SnapshotRepository.SetInfraEnv` | internal/repository/redis/snapshot_repository.go:88-90 | the same for an infra-env |
| `SnapshotRepository.SnapshotRepository.GetCluster` | internal/repository/redis/snapshot_repository.go:92-100 | a missing cluster or a failing read yields an empty one without error, null a nil map, anything else that is no object an empty one with an error |
| `SnapshotRepository.ReadAll` | internal/repository/redis/snapshot_repository.go:102-136 | the records of the fields in arbitrary order, each once; up to the first undecodable one on an error |
| `SnapshotRepository.ObjectsAreRead` | internal/repository/redis/snapshot_repository.go:102-136 | if only objects are stored, a working read gives every one of them once and nothing else |
| `SnapshotExpiry.DeadlineIsLastWrite` | internal/repository/redis/snapshot_repository.go:45-66 | the deadline of a hash is the last write to any of its fields plus the expiration |
| `SnapshotExpiry.ReadableExactly` | internal/repository/redis/snapshot_repository.go:45-118 | a field is readable if and only if its hash was kept alive ever since its last write, and then holds that write |
| `SnapshotExpiry.UnwrittenUnreadable` | internal/repository/redis/snapshot_repository.go:45-118 | a field never written is never readable |
| `SnapshotExpiry.ReadableForExpiration` | internal/repository/redis/snapshot_repository.go:45-118 | every field is readable for at least the expiration after its last write |
| `Projection.SnapshotKeepsInvariant` | internal/projection/enriched_event_projection.go:164-210 | every message keeps the invariant that each payload names the key and field it is stored under |
| `Projection.StoredPayloadsAreObjects` | internal/repository/redis/snapshot_repository.go:92-136 | in a reachable store only objects are decoded: no map read back is nil |
| `Projection.StatesAreFiled` | internal/projection/enriched_event_projection.go:164-210 | by event name and ids: host states and no others go to the hosts of their cluster, and so on; a state is malformed exactly if an id it needs is no string |
| `Projection.EventsAreFiled` | internal/projection/enriched_event_projection.go:164-210 | a well-formed state is readable at once under its id in the map of its kind and cluster; all other clusters, hosts and infra-envs stay as they are at all times |
| `Projection.HandleIsTable` | internal/projection/enriched_event_projection.go:70-162 | acks, enqueueing and errors by event name and payload: which messages are acked how often, which are stored, which end the consumer |
| `Projection.SkippedIsExcluded` | internal/projection/enriched_event_projection.go:212-224 | an event is skipped exactly if the cluster it names was read and its `user_name` is a string of the excluded list |
| `Projection.EnrichedEventsProjection.ProcessClusterEvent` | internal/projection/enriched_event_projection.go:116-162 | an event that names a cluster of no excluded user adds exactly one item, with its offset and what the snapshot holds for the cluster, or is fatal if that fails; any other adds nothing |
| `Projection.EnrichedEventsProjection.ProcessState` | internal/projection/enriched_event_projection.go:164-210 | the three state handlers file the payload by kind, cluster and id, leave everything else alone, and report events without the ids as malformed |
| `Projection.EnrichedEventsProjection.ProcessEvent` | internal/projection/enriched_event_projection.go:84-110 | number of acks, bulk item, snapshot and error for every event name; malformed state events are acked twice |
| `Projection.EnrichedEventsProjection.ProcessMessage` | internal/projection/enriched_event_projection.go:70-82 | the same for every message, decodable or not, keeping the store invariant |
| `Rewind.RewindsConverge` | internal/projection/enriched_event_projection.go:164-210 | in every run with any number of rewinds, whenever the position is the highest ever reached the snapshot is that of one straight pass |
| `Rewind.UnwrittenHoldsLastWrite` | internal/projection/enriched_event_projection.go:164-210 | at any other point, a cell not due to be rewritten holds its last write before the position |
| `Rewind.StraightPassIsLastWrite` | internal/projection/enriched_event_projection.go:164-210 | a straight pass leaves the last payload in every cell and nothing in the others |
| `Rewind.StoreIsStraightPass` | internal/repository/redis/snapshot_repository.go:45-118 | the keyspace with its hashes and deadlines refines the cell-by-cell straight pass as long as nothing expires |
| `Rewind.SnapshotsConverge` | internal/repository/redis/snapshot_repository.go:45-118 | the same convergence for the real keyspace with its hashes and deadlines, stepped by the projection, as long as nothing fails or expires |
| `AckAccounting.AcksAreExact` | internal/projection/enriched_event_projection.go:70-162 | over every interleaving, each fetched message has exactly the acks it is owed: undecodable 1, event without cluster 1, skipped event 0, stored event 1 once indexed, state 1, malformed state 2, unknown name 0 |
| `AckAccounting.OnlyFetchedIsCommitted` | pkg/stream/reader.go:109-148 | only fetched messages are committed, and none more often than it is owed |
| `AckAccounting.SettledCommits` | pkg/stream/reader.go:137-148 | when no ack is under way, the commits of every message are exactly those it is owed |
| `AckAccounting.WantedAreEnqueued` | internal/projection/enriched_event_projection.go:116-162 | the deliveries handed to the bulk indexer are exactly the events that name a cluster, are not skipped and can be enqueued |
| `AckAccounting.FailureIsLast` | pkg/stream/reader.go:109-135 | an unknown name, a failed write and a failed enqueue stop the consumer: such a delivery is the last one, and only it or a quit ends the loop |
| `AckAccounting.CommitsFollowSends` | pkg/stream/reader.go:137-148 | acks are committed in the order in which they were sent |
| `AckAccounting.StoppedFetchesNothing` | pkg/stream/reader.go:126-130 | after an error the consumer never fetches again |
| `AckAccounting.BulkDoneKeepsInvariant` | internal/repository/opensearch/enriched_event_repository.go:56-78 | an item's callback acks its own message, only on success |
| `EventExtractor.TransformResourcesToEvents` | internal/onprem/event_extractor.go:230-272 | one file is sent up to its first resource without string cluster id; it is stuck exactly when that does not fit |
| `EventExtractor.ExtractEventsForEventType` | internal/onprem/event_extractor.go:197-217 | all files of one kind, in order |
| `EventExtractor.ExtractAllEvents` | internal/onprem/event_extractor.go:141-173 | all kinds in order; the channel is closed exactly if everything fitted |
| `EventExtractor.ExtractEvents` | internal/onprem/event_extractor.go:50-70 | with a temp dir it returns if and only if the archive fits the event channel, which then holds exactly what is emitted; otherwise it is stuck with a full channel |
| `EventExtractor.EmittedIsEmission` | internal/onprem/event_extractor.go:141-272 | what an archive emits, file by file: host states from the host files, and so on; one event per resource up to the first without a string id, with the resource as payload (a cluster is marked as on-prem and loses its hosts) |
| `ArchiveReplay.StatesBeforeEvents` | internal/onprem/event_extractor.go:141-173 | an archive emits all its states before all its events |
| `ArchiveReplay.EmittedIsMarked` | internal/onprem/event_extractor.go:240-245 | every emitted cluster state is marked as on-prem and has no hosts |
| `ArchiveReplay.EventsSeeFinalStates` | internal/onprem/event_extractor.go:141-173 | replaying one archive, the snapshot an event is enriched from holds the final state of the whole archive in every cell |
| `ArchiveReplay.FinalStatesAreFiled` | internal/projection/enriched_event_projection.go:164-210 | the final payload of a cell is that of the last host state (infra-env, cluster state) emitted with these ids |
| `ArchiveReplay.EnrichedWithFinalStates` | internal/projection/enriched_event_projection.go:142-155 | the hosts and infra-envs read for an event are the last states emitted for every distinct id of its cluster, each once |
| `ArchiveReplay.EnrichedWithFinalCluster` | internal/projection/enriched_event_projection.go:126-131 | the cluster read for an event is the final one, marked as on-prem, without hosts; empty if there is none |
| `Hydrator.ShouldProcess` | internal/onprem/hydrate.go:174-182 | accepts exactly the messages with the service header |
| `Hydrator.ExtractEvents` | internal/onprem/hydrate.go:105-119 | the extraction goroutine acks if and only if the extractor returns, after writing the whole archive; otherwise it writes nothing |
| `Hydrator.ReceiveStep` | internal/onprem/hydrate.go:142-165 | a message without the service header is acked, an undecodable one dropped, any other queued for download |
| `Hydrator.ExtractStep` | internal/onprem/hydrate.go:105-119 | with a temp dir an archive is written if what its files yield fits the event channel, and stuck otherwise; without one it is dropped |
| `Hydrator.ChannelsAreBounded` | internal/onprem/hydrate.go:82-172 | in every reachable state no channel holds more than its buffer |
| `Hydrator.StoppedTakesNothing` | internal/onprem/hydrate.go:82-98 | once the listener has stopped, nothing leaves the download and untar channels |
| `Hydrator.InOneStage` | internal/onprem/hydrate.go:82-172 | in every reachable state every received message is in exactly one stage |
| `Hydrator.AckedIsReceived` | internal/onprem/hydrate.go:105-119 | each message is acked at most once, accepted ones only if decodable |
| `Hydrator.WritesArePrefix` | internal/onprem/hydrate.go:105-128 | the writer's calls for a message are a prefix of what some archive emits, the whole of it once acked, none if dropped or stuck; stuck exactly if that does not fit the event channel |
| `Hydrator.NoDeadlock` | internal/onprem/hydrate.go:82-98 | while the listener runs, some goroutine can proceed if and only if the state is not settled, for all buffer sizes |
| `Hydrator.SettledMessages` | internal/onprem/hydrate.go:82-172 | in a settled state every message is committed, dropped or stuck on an archive that does not fit the event channel; an accepted one is committed if and only if its archive was written |

## Left out

* Path strings: paths are given parsed (`Plain`, `Each`, `Unsupported`). Numeric keys, wildcards, escapes and modifiers of gjson and sjson are not used by the tables and not modelled, nor is gjson's search for the first brace when the document itself is no object or list.
* A simple path renamed to one with `[*]` is modelled for documents whose keys do not themselves look like the bracketed key; sjson would take it as a wildcard and could match such a key.
* Order independence of renaming is proved for pairwise independent paths; where one path is a prefix of another only the contract of `Rename` speaks.
* Decoding the edited document into the Go struct of an enriched event and encoding it again: modelled as the identity. The fields of the Go struct other than cluster and infra-envs are the `rest` of the base event.
* EventEnricher.GetBaseEnrichedEvent: the fields taken from the event payload, its properties, versions, release tag and the generated id are the unspecified `rest`, as their lookups would only add easy members.
* HostsSummary.NormalizeInfraEnvStats: infinities and NaN are not represented; the out-parameter `finite` says that there are none.
* SnapshotRepository.ReadAll: a stored null is read as an empty record of a host or infra-env, where Go has a nil map; `Projection.StoredPayloadsAreObjects` shows that none is stored.
* Go's aliasing of maps: hosts, infra-envs and resources are values in the model. An infra-env embedded in two hosts is one Go map; nothing edits it before it is encoded.
* Floating point: shares are reals, so rounding in the division and in the comparison with one is not modelled.
* JSON text syntax, MD5 and UUID internals.
* HTTP download, tar and gzip reading, globbing, temporary files, configuration, logging and client construction. An archive is the list of resources of each file; two uploads with the same base name share a downloaded file, so what an extraction yields is left open.
* Kafka, OpenSearch and Redis internals. At-least-once delivery is not claimed: acks are sent out of order, and what the broker makes of a committed offset is outside the code.
* The index name of a stored event, the notification code, the configuration repository, mocks and deployment files.
* AckAccounting.AcksAreExact: whether the event of a delivery is skipped is a free choice there; `EnrichedEventsProjection.ProcessClusterEvent` says when it is.
* Rewind.RewindsConverge: it and `SnapshotsConverge` assume that writes succeed and nothing expires, as failed or expired writes would be lost for good. Messages the projection stops at are passed over as without effect on the snapshot.
* ArchiveReplay.EnrichedWithFinalStates: assumes the same, and that the stream is one archive; with several, a later archive may overwrite states.
* EventExtractor.ExtractEvents: a send that blocks is modelled by returning `Stuck`, since no reader has the channel before the method returns.
* Hydrator.NoDeadlock: a channel without buffer is given one slot, which only adds behaviour for the safety theorems.
* In the class `EnrichedEventsProjection` the ack channel is the log of sends; its capacity is modelled in `AckAccounting`.
