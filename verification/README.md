# kontainer-engine: what its state machines keep

This project models the parts of kontainer-engine in which state outlives a call, and proves what
every run of them keeps.

- **Cluster lifecycle** (`Lifecycle`, `Cluster`, `Outcomes`, `Runs`, `Attempts`,
  `Recovery`, `StoreDiscipline`, `Scenarios`). One call of
  create, update, service-account generation, backup restore or removal is a sequence of store reads,
  store writes and driver calls. `Lifecycle` says which ones, as a function from a journal of past
  interactions to a longer journal, the handle and the error returned; the stored records are a
  function of the journal, and a process that stops between two interactions leaves a prefix of it.
  Drivers, configuration getters and stores answer anything at any time (`Env`): a write can be lost,
  or take effect and still report an error. `Cluster.Cluster` is the handle itself, an object whose
  methods rewrite its fields step by step; each is proved to do exactly what `Lifecycle` says.
  `Outcomes` then tells every operation over its interactions alone: which follows which at which
  moment, what is in it, and what comes back.
  `PersistStatus` gets the cluster by value, so the handle's own status goes stale, as in the code.
- **Driver options** (`DriverOptions`, `OptionOrder`, `OptionMaps`, `Labels`). Nested JSON objects,
  visited in any order, are flattened into four typed maps, overwriting or filling gaps, and merged
  with cluster metadata.
- **Azure driver state** (`AksState`, `AksIdentity`). What the saved state is written under and read
  back from, and what that means for a cluster over whole runs.
- **Log streams** (`LogStream`). Any number of writers, closers, creators and lookups and one reader
  per stream, interleaved one shared access at a time.
- **On-disk store** (`KubeConfig`, `CliStore`, `DiskHistory`, `StoreIndex`, `FileWrite`). Kubeconfig,
  credential and record files, played write by write under the journals of the lifecycle.
- **RPC and retries** (`Rpc`, `Retries`).

`Base` holds shared vocabulary. `dafny verify dfyconfig.toml` checks everything.

## Where the code is not what one might expect

Each of these is proved by the lemmas named.

- An update through the Azure driver leaves an empty status in the record, so that the next create
  calls `Driver.Create` again (`AksIdentity.UpdateForgetsStatus`, on a concrete run
  `Scenarios.CreatedTwice`; for any driver, exactly when the last `PostCheck` reply carries no settled
  status: `Recovery.UpdateThenCreate`).
- `types/types.go:35` says that a retried create is given the cluster's information after a failed *or
  interrupted* create. The code gives it if and only if the status it goes by is `Error`
  (`cluster/cluster.go:185-189`), whatever handle, store and failures (`Attempts.CreateAsks`); after an
  interrupted create it gives nothing (`Attempts.InterruptedCreateIsForgotten`, on a concrete run
  `Scenarios.InterruptedCreate`). The model follows the code.
- The error of reading the record is ignored in `createInner` (`cluster/cluster.go:183`), so a create
  that cannot read the record of an established cluster creates it again
  (`Attempts.UnreadRecordIsCreatedAgain`, exact condition), forgets earlier attempts
  (`Attempts.FailedCreateRemembers`, exact condition) and loses the place of an Azure cluster
  (`AksIdentity.PlaceIsFixed`, exact condition). `Runs.CreatedOnce` and
  `Attempts.FailedCreatesRemember` assume that present records can be read.
- A handle with a root certificate and an empty status is written over the record before the record is
  read (`cluster/cluster.go:88-90`): the create then ends as if the cluster were there
  (`Recovery.RecoverLoaded`), and an Azure cluster loses its place when such a handle holds another
  one and the write takes effect (`AksIdentity.CreateMoves`; where records can be read, only then:
  `AksIdentity.SpoiltWhenRead`).
- The test at `cluster/cluster.go:104` never decides anything when reached from `createInner`
  (`Attempts.PostCheckTestNeverDecides`).
- An object that repeats a key at two levels gives options that depend on the visit order of a Go map
  (`OptionMaps.RepeatedKeyDependsOnVisit`; exact conditions in `OptionOrder.FillOrderFree`,
  `OptionOrder.FlattenOrderFree`, `OptionMaps.UpdateOptionsOrderFree` and `OptionMaps.ConfigOrderFree`).
- Labels and tags whose key or value holds `=` are dropped on the way back, and no others
  (`Labels.LabelRoundTrip`).
- Storing a known name does not refresh its kubeconfig entries (`KubeConfig.KnownNameNotRefreshed`;
  when the entries are the cluster's own: `KubeConfig.StoredEntryIsOwn`, exact condition).
- Two equal credentials share one key of a map literal (`store/clistore.go:73-77`), so that a store
  leaves all three credential files exactly when the three credentials differ
  (`CliStore.AllPemsKept`, `CliStore.FirstStoreLeavesAll`).
- If the rename at the end of a file replacement fails and the temporary file is then removed, both
  versions of the file are lost (`FileWrite.ReplacementIsWhole`, exact condition).
- A record whose name starts with a dot is found by `Get` and not by the index
  (`StoreIndex.IndexAgrees`, exact condition).

## Model
| member | source | states |
|---|---|---|
| DriverOptions.FlattenDuality | cluster/cluster.go:386-442 | For every nested object, visit and existing options: filling gaps equals flattening into empty options in the order reversed at every level, laid under the existing options; so no option already present changes |
| DriverOptions.MirrorLeaves | service/service.go:98-141 | Reversing a visit at every nesting level meets the same typed options in exactly the reverse order |
| DriverOptions.FillIsOverwriteBeneath | cluster/cluster.go:386-442 | First-wins filling of a list of options is last-wins assignment of its reverse, under what was there |
| DriverOptions.OverwriteOnto | service/service.go:98-141 | Flattening onto options is flattening onto none, seen over them |
| OptionOrder.FillOrderFree | cluster/cluster.go:386-442 | The options filled from an object are the same for all visits of it (nested objects included, list entries up to order) if and only if equal keys of one type that the options leave open carry equal values |
| OptionOrder.SameLeaves | cluster/cluster.go:386-442 | Two visits of one nested object meet the same typed options, up to the order of label entries |
| OptionOrder.FillMeets | cluster/cluster.go:386-442 | Filling keeps every present option, takes every key met, and adds nothing that was not met |
| OptionMaps.OptionMaps.Flatten | service/service.go:98-141 | The recursive in-place loop leaves last-wins assignment of all options met, on top of the old maps |
| DriverOptions.FlattenOne | service/service.go:98-141 | Flattening one more field, by its type: a number truncated, a string, a boolean, the strings of an array when there are any, a list, the entries of the labels object, any other object flattened in turn, and nothing for null and other types |
| DriverOptions.FillField | cluster/cluster.go:386-442 | The same for filling, each value only where its type has none under the key |
| DriverOptions.TextsComeWhole | service/service.go:109-121 | An array of strings becomes the list of all of them, in order |
| DriverOptions.TextsConcat | cluster/cluster.go:403-417 | What an array becomes is what its parts become, in order |
| DriverOptions.ArrayBecomesList | service/service.go:109-121 | An object with one non-empty array of strings, flattened or filled into empty options, gives exactly that list |
| DriverOptions.TruncateTowardZero | service/service.go:101-102 | The conversion of a number rounds toward zero |
| OptionMaps.OptionMaps.FlattenIfNotExist | cluster/cluster.go:386-442 | The recursive in-place loop leaves first-wins filling of all options met, old options untouched |
| OptionMaps.OptionMaps.OverlayMetadata | cluster/cluster.go:118-121 | Whatever order the metadata map is visited in, its entries end up over the configuration |
| OptionMaps.OptionMaps.MergeMetadata | cluster/cluster.go:225-236 | Whatever order the metadata map is visited in, and so wherever the saved state is filled in between its entries, the result is the same: entries first, then the configuration, then the state |
| OptionMaps.MergedStep | cluster/cluster.go:225-236 | Visiting one more metadata entry after any others gives the options of the larger set, whichever of the two it is |
| OptionMaps.FillThenPut | cluster/cluster.go:225-236 | An entry assigned after the saved state was filled in ends up as if assigned before |
| OptionMaps.UpdatePriorities | cluster/cluster.go:219-236 | In update options metadata wins, then the cluster name, then the configuration, then the first occurrence in the saved state, type by type |
| OptionMaps.UpdateOptionsOrderFree | cluster/backup.go:36-61 | Update and backup options are the same for every visit of the saved state if and only if its repeated keys of one type agree or are given by metadata, name or configuration |
| OptionMaps.RepeatedKeyDependsOnVisit | cluster/cluster.go:386-442 | One saved state, two visits, two node counts |
| OptionMaps.GetConfig | service/service.go:56-95 | An error exactly when the specification does not convert; otherwise the flattened specification, in which "name" is the cluster's name and "displayName" the display name, or the name when that is empty |
| OptionMaps.ConfigOrderFree | service/service.go:56-95 | The configuration is the same for every visit of the specification if and only if its repeated keys of one type agree, the two names aside |
| OptionOrder.FlattenOrderFree | service/service.go:98-141 | Flattening, under any options that win anyway, is the same for all visits (list entries up to order) if and only if equal keys of one type that those options leave open carry equal values |
| Labels.LabelRoundTrip | drivers/aks/aks_driver.go:450-457 | A map turned into "k=v" entries in any order and split back is its part without "=" in key or value; it is the same map if and only if no key or value holds "=" |
| Labels.SplitEntry | drivers/gke/gke_driver.go:462-468 | An entry splits into exactly two parts if and only if neither side holds "=", and then into these sides |
| Labels.LastEntryWins | drivers/aks/aks_driver.go:452-457 | One more entry counts if and only if it splits in two, and then wins over earlier ones of its key |
| Labels.ReadLabels | drivers/gke/gke_driver.go:462-468 | The loop builds the map of all two-part entries, later ones winning |
| Cluster.Cluster.Create | cluster/cluster.go:87-101 | Journal, handle fields and error are those of Lifecycle.Create |
| Cluster.Cluster.CreateInner | cluster/cluster.go:181-201 | Journal, handle fields and error are those of Lifecycle.CreateInner |
| Cluster.Cluster.CreateWithDriver | cluster/cluster.go:103-133 | Journal, handle fields and error are those of Lifecycle.CreateWithDriver |
| Cluster.Cluster.PostCheck | cluster/cluster.go:135-150 | Journal, handle fields and error are those of Lifecycle.PostCheck |
| Cluster.Cluster.GenerateServiceAccount | cluster/cluster.go:152-171 | Journal, handle fields and error are those of Lifecycle.GenerateServiceAccount |
| Cluster.Cluster.Update | cluster/cluster.go:204-251 | Journal, handle fields and error are those of Lifecycle.Update |
| Cluster.Cluster.ETCDRestore | cluster/backup.go:18-34 | Journal, handle fields and error are those of Lifecycle.EtcdRestore |
| Cluster.Cluster.DriverOptions | cluster/backup.go:36-61 | The option building shared by update and backup gives the prioritised options of the configuration, name, metadata and saved state |
| Cluster.Cluster.Remove | cluster/cluster.go:300-317 | Journal, handle fields and error are those of Lifecycle.Remove |
| Cluster.Cluster.Restore | cluster/cluster.go:349-357 | The handle takes over all fields of a readable record, and none otherwise |
| Cluster.Cluster.TransformClusterInfo | cluster/cluster.go:269-281 | Followed by toInfo it gives the information back, field by field |
| Outcomes.CreateIs | cluster/cluster.go:87-201 | Every create, interaction by interaction: an Init write first when the handle shows an interrupted create; a read; then, by what was read, ErrClusterExists with a Running write, or Pre-Creating, configuration, Creating, Driver.Create with the metadata over the configuration, Post-Checking, PostCheck with what the driver gave, the store of its reply and Running; and any failure on the way ends it with an Error write and comes back |
| Outcomes.DriverErrorComesBack | cluster/cluster.go:127-132 | An error of Driver.Create is what the create returns; the next and last interaction writes status Error over the information given beside the error, or what was gone by when none was given |
| Outcomes.CreateReturnsNilExactly | cluster/cluster.go:91-100 | A create returns nil if and only if what it goes by is not settled, its writes and configuration succeed, and neither driver call errs |
| Outcomes.UpdateIs | cluster/cluster.go:204-251 | Every update, interaction by interaction, for each status of the record and each failure |
| Outcomes.UpdateAsks | cluster/cluster.go:209-217 | On a record with status Error an update calls Driver.Create, told the whole record, if and only if the way to it is clear; on Pre-Creating or Creating it only reads and refuses; on any other it never creates, and calls Driver.Update if and only if the configuration and the status write succeed |
| Outcomes.EtcdRestoreIs | cluster/backup.go:18-34 | Every restore of a backup: the driver gets the snapshot asked for, the record and the prioritised options, and its reply is checked and stored |
| Outcomes.GenerateIs | cluster/cluster.go:152-171 | Every service-account generation: Updating is written over the record, the record is checked and the reply stored; errors come back |
| Outcomes.RemoveIs | cluster/cluster.go:300-317 | Every removal: the driver is asked, with the recorded information, if and only if the record can be read; the record is erased if and only if the driver then lets go or the removal is forced; the error comes back otherwise; and the records lose exactly this one, when that write takes effect |
| Outcomes.RemoveReturnsNilExactly | cluster/cluster.go:300-305 | A removal returns nil if and only if the record was erased and the store said so, or the read says it is not found |
| Runs.StopsAnywhere | cluster/cluster.go:87-317 | A process can stop after any number of the interactions of a call |
| Runs.CreatedOnce | cluster/cluster.go:87-251 | Once recorded as Running, Updating, Post-Checking or Init, no run of the operations on any handles, with any driver failures, lost writes and stops between interactions, calls Driver.Create for the cluster before it is removed, and its record keeps such a status at every moment; given that present records can be read and that drivers keep these statuses |
| Runs.RunHarmless | cluster/backup.go:18-34 | In such a run no single interaction creates, unsettles or erases the record |
| Runs.CreateHarmless | cluster/cluster.go:181-194 | A create of an established cluster ends with ErrClusterExists and writes only settled statuses, even with a handle that shows an interrupted create |
| Recovery.CreateReturnsNil | cluster/cluster.go:87-101 | When create returns nil the record is the last PostCheck reply with status Running, and before that last write it was the reply itself |
| Recovery.CreatedForGood | cluster/cluster.go:87-251 | After a create that returned nil, no run without a removal calls Driver.Create for the cluster again, and its status stays settled at every moment |
| Recovery.StoppedCreateRecovers | cluster/cluster.go:135-150 | Stopped between the store and the last status write, with an empty status and a root certificate, a new create on the loaded record calls no driver operation and leaves the record an undisturbed create would have left |
| Recovery.RecoverLoaded | cluster/cluster.go:87-101 | A create on a handle that shows an interrupted create ends with ErrClusterExists, no driver operation, and the handle's fields recorded as Running |
| Attempts.CreateAsks | cluster/cluster.go:181-201 | For every handle, store and world a create calls Driver.Create if and only if the status it goes by (the record's when it can be read just then, else the handle's) is not settled and the two status writes and the configuration before the call succeed; the call is told of an earlier attempt if and only if that status is Error, and then all of it |
| Attempts.CreateCallsDriver | cluster/cluster.go:87-133 | When no write and no configuration fails, that is: for a handle that shows an interrupted create if and only if the record cannot be read back, for any other if and only if the status gone by is not settled |
| Attempts.UnreadRecordIsCreatedAgain | cluster/cluster.go:183-194 | A create of an established cluster with a new handle calls Driver.Create if and only if the record cannot be read just then and nothing before the call fails |
| Attempts.InterruptedCreateIsForgotten | cluster/cluster.go:185-189 | On a readable record that says Pre-Creating or Creating, Driver.Create is told of no earlier attempt, and is called unless something before it fails |
| Attempts.PriorIsGivenAfterFailure | cluster/cluster.go:185-189 | On a readable record, and a handle that shows no interrupted create, Driver.Create is told of an earlier attempt if and only if the recorded status is Error, and then the whole record |
| Attempts.PostCheckTestNeverDecides | cluster/cluster.go:103-106 | createInner does exactly the same without the status test at the head of create |
| Recovery.UpdateThenCreate | cluster/cluster.go:204-251 | After a successful update the record is the last PostCheck reply, and a new create calls Driver.Create if and only if that reply has no settled status |
| Attempts.FailedCreateRemembers | cluster/cluster.go:91-99 | After a failed create with a new or loaded handle the record is, up to status Error, the last information Driver.Create ever gave, if and only if the record could be read, or the handle held that information, or this create was given some |
| Attempts.FailedCreatesRemember | cluster/cluster.go:127-132 | When present records can be read, the record stays that through any number of failed creates, each with a new or a loaded handle |
| Attempts.CreateGivesPrior | cluster/cluster.go:183-189 | The next create gives Driver.Create exactly that information with status Error, and none when there is no record |
| Attempts.NextCreateIsGivenTheLast | cmd/create.go:121-149 | From an unknown name, after any number of failed creates, the next Driver.Create gets the last information given, with status Error |
| StoreDiscipline.RunDisciplined | cluster/cluster.go:135-171 | In every run, stopped anywhere, a cluster is stored whole only where a record of it is already present |
| StoreDiscipline.PerformDisciplined | cluster/cluster.go:87-251 | Every operation keeps that order of writes |
| AksState.StateRoundTrip | drivers/aks/aks_driver.go:410-468 | Marshalling a state, filling empty options from any visit of it and reading them back gives the same state, agent DNS prefix aside, if and only if its non-zero numbers survive float64 and no tag holds "=" |
| AksState.AnyOrderVisits | drivers/aks/aks_driver.go:37-138 | Every reordering of the fields marshalled for a state, in struct order and with omitempty, is a visit in the sense of the round trip |
| AksState.TextComesBack | drivers/aks/aks_driver.go:413-465 | Every text field but the agent DNS prefix comes back, empty ones included |
| AksState.TextAliasesAreOwn | drivers/aks/aks_driver.go:37-138 | No option name of a text field is the JSON key of another one, and its own key is among its names |
| AksState.NumberComesBack | drivers/aks/aks_driver.go:427-430 | A number comes back as the truncation of its float64 |
| AksState.TagsComeBack | drivers/aks/aks_driver.go:450-457 | Exactly the tags without "=" come back |
| AksState.TextByPriority | drivers/options/options.go:21-27 | An option under a text field's command-line name decides the field, whatever stands under its JSON key; the key decides without it; and the agent DNS prefix is never read |
| AksState.SshKeyByPriority | drivers/aks/aks_driver.go:437 | So it is for the ssh key, which has two older names after that |
| AksState.NumbersByPriority | drivers/aks/aks_driver.go:427-430 | The same for the numbers, name by name |
| AksState.FlagsByPriority | drivers/aks/aks_driver.go:422-423 | The same for the flags |
| AksState.GivenVersionWins | cluster/cluster.go:219-236 | In an update a Kubernetes version given by the configuration wins over the saved one |
| AksState.FirstOnly | drivers/options/options.go:5-51 | A lookup among several names gives the value of the only one present, and the zero value when none is |
| AksIdentity.PlaceIsFixed | drivers/aks/aks_driver.go:1084-1086 | Once a record holds a resource group and location, and until a removal, the record holds them at every moment of a run if and only if no create on a handle that holds another place gets it written over the record; and then every create and update that reaches the driver works on them whatever its configuration, with any failures, lost writes, unreadable records and stops |
| AksIdentity.CreateMoves | cluster/cluster.go:87-110 | After exactly the interactions counted by FirstMove such a create has moved the record away, and not before: with its Init write when the handle shows an interrupted create, or with its first status write that takes effect when the record cannot be read |
| AksIdentity.SpoiltWhenRead | cluster/cluster.go:88-90 | Where present records can be read, the only create that does so is one whose handle shows an interrupted create and whose first write takes effect |
| AksIdentity.PinnedOptions | cluster/cluster.go:118-121 | The place the driver reads from create and update options is the one in the metadata, whatever the configuration and the saved state say |
| AksIdentity.CreateOrUpdatePins | drivers/aks/aks_driver.go:632-642 | The information returned records the place that was worked on, with an empty status |
| AksIdentity.DriverReplies | drivers/aks/aks_driver.go:632-660 | Invalid options give an error alone; else exactly the saved state and the place come back with an empty status, beside whatever error follows; an update drops them beside an error |
| AksIdentity.UpdateForgetsStatus | drivers/aks/aks_driver.go:886-889 | After a successful update the record has an empty status, and a new create calls Driver.Create again |
| Scenarios.CreatedTwice | drivers/aks/aks_driver.go:886-889 | In a concrete world where nothing fails, create, update and create with the Azure driver make Driver.Create run twice, without a removal |
| Scenarios.FirstCreate | cluster/cluster.go:87-101 | In that world a first create returns nil, and shows an interrupted create one write before its end: the premises of the results above can be met |
| Scenarios.InterruptedCreate | types/types.go:34-35 | In that world a create stopped right before Driver.Create leaves status Creating, and the next one calls Driver.Create and tells it nothing |
| LogStream.StreamsAreSafe | logstream/logstream.go:60-109 | In every interleaving: no send on and no second close of a closed channel, at most 100 buffered events, the events received are a prefix of those sent in lock order and the rest is buffered, identifiers are never reused, and the registry maps an identifier to its own stream |
| LogStream.NextKeeps | logstream/logstream.go:79-109 | Each step of any thread or reader keeps what all threads rely on: mutex ownership, the closed flag trailing the channel only inside the mutex, and the registry |
| LogStream.ClosedStreamIsNotFound | logstream/logstream.go:36-40 | In every state after a close has taken its entry out, no registry entry and no lookup finds the stream |
| LogStream.LookupReturnsOwnStream | logstream/logstream.go:36-51 | A lookup that finds a stream finds the one with the identifier asked for |
| LogStream.RunRemembers | logstream/logstream.go:42-58 | Streams are never forgotten, keep their identifiers, and once out of the registry stay out |
| LogStream.WritesAreSent | logstream/logstream.go:79-89 | In every run, what was sent on a stream, followed by the event its mutex holder has still to send, is exactly the events of the writes that got the mutex while the channel was open, in that order |
| LogStream.WriteIsSent | logstream/logstream.go:79-89 | Between the test and the unlock of one write, sent grows by exactly its event when the channel was open, and stays when it was closed |
| LogStream.NothingIsLost | logstream/logstream.go:60-89 | While nobody holds the mutex, the admitted events are the received ones followed by the buffered ones |
| LogStream.EventArrives | logstream/logstream.go:42-97 | In a concrete run a stream is made, a write sends its event and the reader receives it |
| LogStream.LookupFindsOpen | logstream/logstream.go:36-51 | A lookup finds a stream if and only if it was entered and no call of Close has taken it out |
| LogStream.CloseCloses | logstream/logstream.go:99-105 | When a close gives the mutex back the stream and its channel are closed |
| LogStream.SomeoneCanStep | logstream/logstream.go:79-109 | While any call is pending some thread or some reader can step |
| KubeConfig.KubeConfig.StoreConfig | store/clistore.go:127-240 | An entry of the cluster is appended to each list that lacks its name; nothing else changes but version and kind |
| KubeConfig.KubeConfig.DeleteConfigByName | store/clistore.go:242-264 | Exactly the entries of the name leave all three lists |
| KubeConfig.ListsStayAligned | store/clistore.go:154-226 | Over any run of stores and removals from an empty file the three lists have one name sequence without duplicates, and each context refers to its own name |
| KubeConfig.StoreThenRemove | store/clistore.go:242-264 | Removing a newly stored name gives the three lists back |
| KubeConfig.StoreRemoveCommute | store/clistore.go:242-264 | Storing one name and removing another commute |
| KubeConfig.RemovesCommute | store/clistore.go:242-264 | Two removals commute |
| KubeConfig.StoresCommute | store/clistore.go:154-226 | Two stores of different names leave the same entries in either order, and the same lists if and only if one of the names was known |
| KubeConfig.NewNameIsAdded | store/clistore.go:127-226 | A new name adds one entry at the end of each list: the endpoint with one https prefix and the root certificate; user name and password when both are there, else the token; and a context of that name; the current context stays |
| KubeConfig.KnownNameNotRefreshed | store/clistore.go:169-178 | Storing a known name changes no list |
| KubeConfig.StoredEntryIsOwn | store/clistore.go:166-203 | After a store the kubeconfig holds the cluster's own server and certificate, and its own credentials, if and only if the name was new or they were there already |
| CliStore.Disk.Store | store/clistore.go:66-91 | The files left are those of the kubeconfig, credential and record writes up to the first that fails, for any visit of the credential map; nil exactly when all went through, and then the kubeconfig has the cluster's entries, the directory holds the record, every credential the map kept, decoded, and its other files as they were, and other directories are untouched |
| CliStore.CredentialsInTheirFiles | store/clistore.go:73-85 | After a finished store cert.pem holds the decoded client certificate, key.pem the key unless it equals the certificate, ca.pem the root certificate unless it equals either, and config.json the record |
| CliStore.AllPemsKept | store/clistore.go:73-77 | The map literal names all three credential files if and only if the three credentials differ |
| CliStore.FirstStoreLeavesAll | store/clistore.go:73-85 | So does a finished first store of a cluster leave all three files |
| CliStore.Disk.Remove | store/clistore.go:35-48 | The kubeconfig is written before the directory goes, up to the first failure; nil exactly when both went through, and then both are gone and nothing else |
| CliStore.Disk.PersistStatus | store/clistore.go:93-101 | The record file alone is written, with the new status |
| DiskHistory.DiskRefinesRecords | store/clistore.go:35-101 | After any history of operations, each with any number of its file writes done, the record files on disk are the records of the abstract store, one per name and under its name |
| DiskHistory.KubeconfigIsBacked | store/clistore.go:66-101 | In every run of the cluster operations from an empty home, stopped between any two file writes, every name in the kubeconfig has a record file |
| DiskHistory.HistoryGoesOn | store/clistore.go:35-48 | A disk history goes on with an interaction if and only if the interaction does not call effective a write that the disk cannot complete, such as a removal without a kubeconfig |
| DiskHistory.StepBacked | store/clistore.go:35-48 | Every prefix of the writes of one operation keeps the kubeconfig backed, when a cluster stored whole already has a record |
| StoreIndex.GetAllClusterFromStore | store/filestore.go:15-46 | The nested scan finds the records of all visible directories, or stops at the first that does not decode |
| StoreIndex.ScanFailsExactly | store/filestore.go:31-39 | The scan fails if and only if a visible directory holds a file that looks like a record and does not decode |
| StoreIndex.IndexAgrees | store/filestore.go:15-46 | After any history the scan, in any listing order, maps a name to a record if and only if Get finds it and it is not hidden, with the same record; and Get finds exactly the stored records |
| FileWrite.FileSystem.WriteToFile | utils/utils.go:14-42 | The files after each system call are those of the trace, whichever calls fail |
| FileWrite.ReplacementIsWhole | utils/utils.go:14-42 | On an existing target, after every call the target is the whole old content, or absent with the whole new content in the temporary file, or the whole new content, if and only if it is not the case that the rename fails and the temporary file is then removed, which loses both |
| FileWrite.NilMeansReplaced | utils/utils.go:26-41 | A nil return means the new content, no temporary file and nothing else touched |
| FileWrite.NilExactly | utils/utils.go:14-42 | Nil is returned if and only if the directory is made and a target found missing is written, or, on a target that is there, the temporary file is made, written and closed, the target removed and the rename done |
| FileWrite.OthersUntouched | utils/utils.go:14-42 | No call touches any other file |
| Rpc.CreateCrosses | types/rpc_client.go:35-45 | The caller gets the driver's outcome (the same information, an error exactly when there was one, printing the same) if and only if: with information, the error prints something or there is none and the error field was empty; without, the error is a plain one with a message or a status the client leaves alone |
| Rpc.FailedCreateKeepsInfo | types/rpc_server.go:41-48 | Information beside a non-empty plain error arrives, with the same error |
| Rpc.RemoteCreate | types/rpc_server.go:41-48 | The server writing into the driver's own message, the transport and the client reassigning its error give the caller the driver's outcome if and only if it crosses |
| Rpc.ClientCreate | types/rpc_client.go:132-139 | The error reassigned in steps is the transport's, unwrapped, or else the one hidden in the message |
| Retries.CheckDriverIsUp | service/service.go:205-218 | For all replies: at most 7 checks and 91 seconds, success if and only if one of the first 7 checks succeeds |
| Retries.DeleteWhenIdle | drivers/gke/gke_driver.go:921-935 | For all replies: at most 11 delete calls and 506 seconds, accepted if and only if an attempt is accepted after only busy ones; another refusal stops at once |
| Retries.SquaresClosedForm | drivers/gke/gke_driver.go:925-926 | The waiting time after n attempts is n(n+1)(2n+1)/6 |

## Left out
- Cloud SDK calls of the drivers, Kubernetes clients, tokens and templates: a driver is its replies.
- JSON, YAML, base64 and PEM libraries: a record, kubeconfig or state decodes to what was encoded; base64 decoding is a parameter that can fail.
- gRPC transport and generated code: a message or a status arrives unchanged; the reply without information and without error becomes a transport error.
- The `cmd` package, process start, ports, environment variables, `SetEnv` and the current context of the kubeconfig (which can name a removed cluster).
- Operations that only forward to the driver (versions, sizes, capabilities, backup save and snapshot removal, legacy service accounts).
- Nil information with a nil error from `Update`, `PostCheck` or `ETCDRestore`, which would panic.
- Error texts of the lifecycle; failures are distinguished only where the code distinguishes them.
- Several processes on one home at the same time: the store has no locking and promises nothing there.
- CliStore.Disk.Store: a single file write and the removal of a directory are atomic here; FileWrite looks inside a write, but a lost kubeconfig after a failed rename is not played through the store.
- Reads of the disk that fail in the on-disk store (they may fail in the lifecycle), and cluster names that are not a single path component.
- AksState.StateRoundTrip: float64 is a parameter; conversion of numbers beyond int64 is not modelled, and JSON numbers are reals.
- The Azure provisioning loop and validation: parameters; its retries of a failed provisioning never happen in the code (`drivers/aks/aks_driver.go:873-894`) and are not claimed.
- AksState: the straight-line field assignments of `getStateFromOptions` are one value; only its tag loop is a loop here.
- LogStream: a state machine over values, one shared access per step, because Dafny methods do not interleave; `Debugf`, message formatting and wrap-around of the identifier counter are not modelled.
- Fairness: that some thread can step is proved, not that each one eventually does.
- Preferences and other kubeconfig fields that no operation changes.
