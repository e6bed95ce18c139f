# eaas-server core, modelled in Dafny

This project models the session and resource bookkeeping of the eaas-server
(Emulation-as-a-Service) backend and proves properties of it:

- **Component sessions** in the Components frontend (`Components`, `TaskStacks`,
  `SessionLease`):
  - the LIFO stack of cleanup tasks and its drain;
  - the session object with its keepalive and start timestamps and its release-once flag;
  - the id → session registry with register, unregister, keepalive, hasComponentSession and release;
  - session creation, which pushes the session's own unregister task last;
  - the self-rescheduling cleanup trigger. Its lease decision (keep with an optional
    "will expire" notification and a next delay, or release) is a pure function of the
    clock, which is passed in.
- **License seats** (`Licenses`): one seat counter per software id. It is created on
  first use, incremented on allocate and rolled back past the maximum. It is
  decremented on release.
- **Emulator registry lookup** (`EmulatorRegistry`): an exact name/version match, with
  a fallback through the index's aliases ("latest" for a null version).
- **Snapshots** (`Snapshots`):
  - add-if-absent of software ids;
  - removal of the `emucon-rootfs` binding data;
  - `copyBinding`: copies the matching resources, and the drive data found by a drive-index search;
  - the request checks and image-type choice of createEnvironment, saveUserSession and
    createObjectEnvironment.
- **Container data** (`ContainerData`):
  - the file name taken from a multipart `Content-Disposition` header, with Java's
    `split`, `trim` and `replaceAll` modelled exactly (`JavaLang`);
  - the part-count checks of the upload endpoint and `partToString`;
  - the source-name check and the validation prefix of the container import task.
- **The runc container bean** (`Runc`): the lazily drawn Xpra port and the ordered
  argument list that `prepare()` builds for `emucon-cgen`.
- **NBD TCP connections** (`TcpConnections`): a connection handle attached to, or
  detached from, its managed proxy.
- **Plain state holders** (`Sessions`, `NodeAllocation`, `ContainerEnvironments`): their
  setters change only their own field. `setArgs`/`setEnv` keep the old list on null and
  otherwise take a fresh copy.

Foreign calls are parameters that carry their answer:
- the clock;
- the component proxy's keepalive;
- the port range;
- binding resolution;
- the config generator's exit status;
- URL parsing and file existence;
- the DockerHub tool chain;
- the image archive's import.

Exceptions are `Err`/`Fail` values carrying the message the code raises. Unchecked
Java exceptions carry the exception's class name.

The code around `TaskStack.execute()` intends every task to run: `release()` announces
"Run all tasks in reverse order" (Components.java:1500), and `Task.run` catches and logs
each task's failure so that the next one can follow (Components.java:1424-1435). The loop
itself (Components.java:1394-1401) does not do that: once `result` is false,
`result && this.pop().run()` no longer pops, and the loop never ends. The model states the
loop as written (`TaskStacks.ExecuteAsWritten`) and records this under Findings; the
sessions use the corrected drain (`TaskStacks.TaskStack.Execute`), which runs every task.

## Model

Source paths are relative to the repository root.

| member | source | states |
|---|---|---|
| TaskStacks.PushAllReverses | src/emil/src/main/java/de/bwl/bwfla/emil/Components.java:1379-1382 | Pushing tasks one by one (ArrayDeque.push) leaves them on the stack in reverse order, above what was already there. |
| TaskStacks.TaskStack.constructor | src/emil/src/main/java/de/bwl/bwfla/emil/Components.java:1370-1372 | A new task stack is empty. |
| TaskStacks.TaskStack.Push | src/emil/src/main/java/de/bwl/bwfla/emil/Components.java:1379-1382 | The pushed task becomes the head of the deque; nothing else changes. |
| TaskStacks.TaskStack.Pop | src/emil/src/main/java/de/bwl/bwfla/emil/Components.java:1384-1387 | Removes and returns the head, the most recently pushed task; an empty deque gives no task (the exception). |
| TaskStacks.TaskStack.Execute | src/emil/src/main/java/de/bwl/bwfla/emil/Components.java:1394-1401 | Corrected drain: every task runs, the most recently pushed first; the stack ends empty; the result is true iff no task threw. |
| TaskStacks.Run | src/emil/src/main/java/de/bwl/bwfla/emil/Components.java:1424-1435 | A task reports failure exactly when its runnable throws; the registry's own unregister task never fails. |
| TaskStacks.StepAsWritten | src/emil/src/main/java/de/bwl/bwfla/emil/Components.java:1394-1401 | One iteration of the loop as written: while `result` is true it pops the head, runs it and takes its outcome as the new `result`; once `result` is false it changes nothing. |
| TaskStacks.ExecuteAsWritten | src/emil/src/main/java/de/bwl/bwfla/emil/Components.java:1394-1401 | Any number of iterations of the loop as written only moves tasks from the stack to the ran list in stack order (nothing is lost or reordered), never grows the stack and never turns a false `result` true. |
| TaskStacks.AsWrittenSpinsAfterFailure | src/emil/src/main/java/de/bwl/bwfla/emil/Components.java:1396-1399 | Once `result` is false with tasks left, no number of iterations of the loop as written changes its state. |
| TaskStacks.ExecuteAsWrittenNeverDrains | src/emil/src/main/java/de/bwl/bwfla/emil/Components.java:1394-1401 | Counterexample: a succeeding task pushed, then a throwing one; the loop as written runs the thrower and then never empties the stack. |
| TaskStacks.AsWrittenAgreesWhenAllSucceed | src/emil/src/main/java/de/bwl/bwfla/emil/Components.java:1394-1401 | When no task throws, the loop as written runs every task in stack order and returns true, as the corrected drain does. |
| Components.RanUnregisterRemoves | src/emil/src/main/java/de/bwl/bwfla/emil/Components.java:303-305 | A drain that ran the `unregister-session/<id>` task removes that id from the registry. |
| Components.ComponentSession.constructor | src/emil/src/main/java/de/bwl/bwfla/emil/Components.java:1452-1464 | A new session has keepalive timestamp 0, the creation time as its start, is not released and has no event sink. |
| Components.ComponentSession.Keepalive | src/emil/src/main/java/de/bwl/bwfla/emil/Components.java:1467-1471 | The keepalive timestamp becomes the current time whether or not forwarding to the component succeeds; the forwarding outcome is returned. |
| Components.ComponentSession.Release | src/emil/src/main/java/de/bwl/bwfla/emil/Components.java:1473-1504 | Only the first call drains its TaskStack (all tasks, in stack order) and sets `released`; a later call runs nothing and leaves the stack as it is. |
| Components.ComponentSession.SetEventSink | src/emil/src/main/java/de/bwl/bwfla/emil/Components.java:1527-1566 | Attaches the sink; a one-off "will expire" notification is scheduled exactly when the lifetime cap is enabled (`lifetime` is the registry's maxSessionDuration, Long.MAX_VALUE when the cap is off). |
| Components.CleanupTrigger.constructor | src/emil/src/main/java/de/bwl/bwfla/emil/Components.java:1718-1724 | The trigger's first notification threshold is the lifetime minus 90 s. |
| Components.CleanupTrigger.Run | src/emil/src/main/java/de/bwl/bwfla/emil/Components.java:1727-1776 | A tick decides by `SessionLease.Decide` on the session's current timestamps; the threshold advances exactly as that decision says. |
| Components.Components.constructor | src/emil/src/main/java/de/bwl/bwfla/emil/Components.java:248-251 | The registry starts empty; a configured maximum session duration of zero becomes Long.MAX_VALUE (unlimited). |
| Components.Components.Register | src/emil/src/main/java/de/bwl/bwfla/emil/Components.java:269-272 | Inserts the session under its own id and changes no other entry; the registry invariant is kept. |
| Components.Components.Unregister | src/emil/src/main/java/de/bwl/bwfla/emil/Components.java:274-278 | Removes exactly the entry under the id. |
| Components.Components.CreateComponent | src/emil/src/main/java/de/bwl/bwfla/emil/Components.java:303-313 | The new session holds the component's cleanup stack with `unregister-session/<id>` pushed on top, is registered under its id, and its trigger's first tick is due after the client timeout. |
| Components.Components.HasComponentSession | src/emil/src/main/java/de/bwl/bwfla/emil/Components.java:846-853 | True exactly when a session is registered under the id. |
| Components.Components.Keepalive | src/emil/src/main/java/de/bwl/bwfla/emil/Components.java:855-865 | An unknown id gives false and changes nothing; a known id gets its keepalive timestamp set to now and gives true, or the forwarding error. The only field it may change is that session's keepalive timestamp. |
| Components.Components.ApplyUnregisters | src/emil/src/main/java/de/bwl/bwfla/emil/Components.java:274-278 | Running the drained tasks removes exactly the ids whose unregister task ran. |
| Components.Components.ReleaseSession | src/emil/src/main/java/de/bwl/bwfla/emil/Components.java:1473-1504 | The first release drains the session's tasks and so removes every registry entry for the session; a repeated release changes nothing. |
| Components.Components.ReleaseComponent | src/emil/src/main/java/de/bwl/bwfla/emil/Components.java:1250-1261 | An unknown id is "Could not find component.", runs nothing and changes nothing; for a known id the session is marked released, all its tasks run in stack order and its stack is left empty, the registry loses exactly the ids whose unregister task ran, and the id is no longer registered. Of the session it may change only the released flag and the task stack; its keepalive timestamp and event sink stay. |
| Components.Components.Tick | src/emil/src/main/java/de/bwl/bwfla/emil/Components.java:1727-1776 | The decision is `SessionLease.Decide` on the session's timestamps. A keep decision leaves the registry, the session's released flag and its task stack alone, runs nothing and advances the threshold. A release decision keeps the threshold and marks the session released; a first release runs all its tasks in stack order and empties its stack, and the registry loses exactly the ids whose unregister task ran, among them every id under which the session was registered. |
| SessionLease.MaxSessionLifetime | src/emil/src/main/java/de/bwl/bwfla/emil/Components.java:248-251 | A configured maximum of zero means unlimited (Long.MAX_VALUE); any other value is kept, so a non-negative configuration gives a positive lifetime within a Java long. |
| SessionLease.Decide | src/emil/src/main/java/de/bwl/bwfla/emil/Components.java:1729-1771 | Keep iff `now - keepaliveTs < timeout` and `now - start < lifetime`; a kept session is checked again strictly later, and no later than 10 ms after its keepalive deadline. |
| SessionLease.NeverKeptAliveReleasedAtFirstTick | src/emil/src/main/java/de/bwl/bwfla/emil/Components.java:1729-1733 | A session never kept alive (timestamp 0) is released at the first tick, one timeout after creation. |
| SessionLease.ExpiredNotificationOnlyAtLifetime | src/emil/src/main/java/de/bwl/bwfla/emil/Components.java:1753-1767 | Reaching the lifetime releases with an "expired" notification exactly when a sink exists; a keepalive timeout alone releases with none. |
| SessionLease.DisabledLifetimeOnlyTimesOut | src/emil/src/main/java/de/bwl/bwfla/emil/Components.java:248-251 | With the duration cap disabled (zero normalised to Long.MAX_VALUE), only the keepalive timeout releases a session. |
| SessionLease.IdleReleaseTime | src/emil/src/main/java/de/bwl/bwfla/emil/Components.java:1735-1751 | Without keepalives, the trigger's ticks reach release no later than 10 ms after the keepalive deadline. |
| SessionLease.RunTicks | src/emil/src/main/java/de/bwl/bwfla/emil/Components.java:1723-1746 | Over any run of ticks the threshold has advanced 30 s per notification sent, and each notification came before the lifetime ended. |
| SessionLease.AtMostThreeWillExpireNotifications | src/emil/src/main/java/de/bwl/bwfla/emil/Components.java:1723-1746 | The cleanup trigger sends a session at most three "will expire" notifications. The one-off that setEventSink schedules comes on top (see Left out). |
| Licenses.IncrementIntended | src/eaas/proxy/impl/src/main/java/de/bwl/bwfla/eaas/acl/LicenseManager.java:103-113 | Corrected increment: succeeds iff the count is below the maximum, then raises it by one; on failure the count is unchanged. |
| Licenses.IncrementAsWritten | src/eaas/proxy/impl/src/main/java/de/bwl/bwfla/eaas/acl/LicenseManager.java:103-113 | The increment with AtomicInteger's 32-bit wrap-around keeps the count a Java int. |
| Licenses.AsWrittenAgreesBelowIntMax | src/eaas/proxy/impl/src/main/java/de/bwl/bwfla/eaas/acl/LicenseManager.java:105-112 | Below Integer.MAX_VALUE the increment as written and the corrected one agree. |
| Licenses.AsWrittenOverflowsAtIntMax | src/eaas/proxy/impl/src/main/java/de/bwl/bwfla/eaas/acl/LicenseManager.java:105-106 | Counterexample: with count and maximum at Integer.MAX_VALUE, the increment as written succeeds and leaves Integer.MIN_VALUE; the corrected one refuses. |
| Licenses.SeatCounter.constructor | src/eaas/proxy/impl/src/main/java/de/bwl/bwfla/eaas/acl/LicenseManager.java:97-101 | A new counter is at zero with the given maximum, and is within it. |
| Licenses.SeatCounter.Increment | src/eaas/proxy/impl/src/main/java/de/bwl/bwfla/eaas/acl/LicenseManager.java:103-113 | Succeeds iff the count was below the maximum; a failed increment is rolled back; the count stays within the maximum. |
| Licenses.SeatCounter.Decrement | src/eaas/proxy/impl/src/main/java/de/bwl/bwfla/eaas/acl/LicenseManager.java:115-118 | Lowers the count by one unconditionally (wrapping at Integer.MIN_VALUE) and returns the new count. |
| Licenses.LicenseManager.constructor | src/eaas/proxy/impl/src/main/java/de/bwl/bwfla/eaas/acl/LicenseManager.java:50 | The seat map starts empty. |
| Licenses.LicenseManager.CounterFor | src/eaas/proxy/impl/src/main/java/de/bwl/bwfla/eaas/acl/LicenseManager.java:77 | computeIfAbsent: an existing counter is reused whatever the maximum; otherwise a fresh counter at zero with this maximum is stored. |
| Licenses.LicenseManager.IncrementSeat | src/eaas/proxy/impl/src/main/java/de/bwl/bwfla/eaas/acl/LicenseManager.java:79 | Incrementing the id's counter keeps the map as it is, moves that counter as the intended increment says and leaves every other counter's count alone. |
| Licenses.LicenseManager.Allocate | src/eaas/proxy/impl/src/main/java/de/bwl/bwfla/eaas/acl/LicenseManager.java:74-89 | The id's counter (created on first use) is incremented; the result is OutOfSeatsException with its message exactly when the increment fails; no other counter changes. |
| Licenses.LicenseManager.ReleaseSeat | src/eaas/proxy/impl/src/main/java/de/bwl/bwfla/eaas/acl/LicenseManager.java:53-60 | An id without a counter changes nothing; otherwise only that id's counter is decremented. |
| NodeAllocation.NodeAllocationRequest.constructor | src/eaas/cluster/impl/src/main/java/de/bwl/bwfla/eaas/cluster/provider/NodeAllocationRequest.java:17-24 | The spec and the three callbacks are the constructor's arguments and cannot change; the user metadata is unset. |
| NodeAllocation.NodeAllocationRequest.SetUserMetaData | src/eaas/cluster/impl/src/main/java/de/bwl/bwfla/eaas/cluster/provider/NodeAllocationRequest.java:42-48 | The getter returns the value set; only the metadata field changes. |
| Sessions.Session.constructor | src/emil/src/main/java/de/bwl/bwfla/emil/Session.java:33-36 | Stores id and resources; the expiration timestamp is Long.MAX_VALUE. |
| Sessions.Session.WithExpiration | src/emil/src/main/java/de/bwl/bwfla/emil/Session.java:38-43 | Stores id, resources and expiration as given. |
| Sessions.Session.SetExpirationTimestamp | src/emil/src/main/java/de/bwl/bwfla/emil/Session.java:55-63 | The getter returns the last value set; only the expiration changes. |
| EmulatorRegistry.FirstEntryFrom | src/imagearchive/imagearchive-client/src/main/java/de/bwl/bwfla/imagearchive/util/EmulatorRegistryUtil.java:11-21 | The position of the first matching entry, with no match before it; the end when none matches. |
| EmulatorRegistry.FirstAliasFrom | src/imagearchive/imagearchive-client/src/main/java/de/bwl/bwfla/imagearchive/util/EmulatorRegistryUtil.java:34-41 | The position of the first alias with the name and alias string, with none before it; the end when none matches. |
| EmulatorRegistry.LookupEntry | src/imagearchive/imagearchive-client/src/main/java/de/bwl/bwfla/imagearchive/util/EmulatorRegistryUtil.java:10-23 | `_getEntry`: the first entry with the name (and the version unless it is null); null iff no entry matches. |
| EmulatorRegistry.GetEntry | src/imagearchive/imagearchive-client/src/main/java/de/bwl/bwfla/imagearchive/util/EmulatorRegistryUtil.java:26-44 | The direct match when there is one; otherwise the lookup of the first matching alias's version, whatever it gives; a result always has the requested name. |
| EmulatorRegistry.NoMatchNoEntry | src/imagearchive/imagearchive-client/src/main/java/de/bwl/bwfla/imagearchive/util/EmulatorRegistryUtil.java:26-44 | Null when neither an entry nor an alias matches. |
| EmulatorRegistry.DirectVersionWinsOverAlias | src/imagearchive/imagearchive-client/src/main/java/de/bwl/bwfla/imagearchive/util/EmulatorRegistryUtil.java:27-29 | An entry with the requested name and version is found whatever the aliases say. |
| EmulatorRegistry.NullVersionNeedsNoAlias | src/imagearchive/imagearchive-client/src/main/java/de/bwl/bwfla/imagearchive/util/EmulatorRegistryUtil.java:31-41 | With a null version the "latest" alias fallback never changes the result. |
| EmulatorRegistry.AliasResolves | src/imagearchive/imagearchive-client/src/main/java/de/bwl/bwfla/imagearchive/util/EmulatorRegistryUtil.java:31-41 | Without a direct match, a matching alias resolves to the lookup of its target version under the same name. |
| Snapshots.MachineConfiguration.Copy | src/emil/src/main/java/de/bwl/bwfla/emil/utils/Snapshot.java:100-102 | A fresh configuration with the same contents. |
| Snapshots.MachineConfiguration.SetTitle | src/emil/src/main/java/de/bwl/bwfla/emil/utils/Snapshot.java:124 | Sets the description's title. |
| Snapshots.AddIfAbsent | src/emil/src/main/java/de/bwl/bwfla/emil/utils/Snapshot.java:80-87 | The id is present afterwards; the list is unchanged iff it already held the id; otherwise it is appended after the old entries in order. |
| Snapshots.AddIfAbsentIdempotent | src/emil/src/main/java/de/bwl/bwfla/emil/utils/Snapshot.java:80-87 | Adding the same id twice is the same as adding it once. |
| Snapshots.AddIfAbsentKeepsDistinct | src/emil/src/main/java/de/bwl/bwfla/emil/utils/Snapshot.java:80-87 | A duplicate-free list stays duplicate-free. |
| Snapshots.AddSoftwareId | src/emil/src/main/java/de/bwl/bwfla/emil/utils/Snapshot.java:80-87 | The configuration's software ids become the add-if-absent of the id. |
| Snapshots.WithoutRootfs | src/emil/src/main/java/de/bwl/bwfla/emil/utils/Snapshot.java:129-136 | Exactly the entries whose id is not `emucon-rootfs` are kept. |
| Snapshots.WithoutRootfsAppend | src/emil/src/main/java/de/bwl/bwfla/emil/utils/Snapshot.java:129-136 | Filtering distributes over concatenation, so the kept entries stay in order. |
| Snapshots.WithoutRootfsKeepsClean | src/emil/src/main/java/de/bwl/bwfla/emil/utils/Snapshot.java:129-136 | A list without `emucon-rootfs` entries is left as it is. |
| Snapshots.WithoutRootfsIdempotent | src/emil/src/main/java/de/bwl/bwfla/emil/utils/Snapshot.java:189-195 | Filtering twice is filtering once. |
| Snapshots.Matching | src/emil/src/main/java/de/bwl/bwfla/emil/utils/Snapshot.java:46-51 | Every resource kept has the given id, and there are no more of them than in the source. |
| Snapshots.MatchingMembers | src/emil/src/main/java/de/bwl/bwfla/emil/utils/Snapshot.java:46-51 | The kept resources are exactly the source's resources whose id equals the given id. |
| Snapshots.FirstDriveWith | src/emil/src/main/java/de/bwl/bwfla/emil/utils/Snapshot.java:56-67 | The index where the drive search stops: the first drive whose data is null or contains the binding id, every drive before it having data without the id; the end when there is none. |
| Snapshots.FindDriveIndex | src/emil/src/main/java/de/bwl/bwfla/emil/utils/Snapshot.java:56-67 | The counting loop stops where `FirstDriveWith` says; a drive without data there is a NullPointerException, otherwise the drive found holds the binding id. |
| Snapshots.SetDriveData | src/emil/src/main/java/de/bwl/bwfla/emil/utils/Snapshot.java:75-76 | Only drive k's data changes. |
| Snapshots.CopyBindingAddsOnlyMatching | src/emil/src/main/java/de/bwl/bwfla/emil/utils/Snapshot.java:42-55 | copyBinding appends to the target only resources with the given id. |
| Snapshots.CopyBindingDrive | src/emil/src/main/java/de/bwl/bwfla/emil/utils/Snapshot.java:56-76 | The target drive at the index of the first source drive naming the binding gets that drive's data; with no such drive the drives are untouched. |
| Snapshots.CopyMatchingResources | src/emil/src/main/java/de/bwl/bwfla/emil/utils/Snapshot.java:42-78 | The loop over the source's resources leaves the target's resources and drives, and its outcome, exactly as the copyBinding effect describes: a first match found without a drive is appended and the loop stops; a drive without data in the search, or a failed drive update, stops it with the exception. |
| Snapshots.CopyBinding | src/emil/src/main/java/de/bwl/bwfla/emil/utils/Snapshot.java:42-78 | Nothing happens when the source, its resources or the target is null; otherwise the target's new state is the copyBinding effect on the source's and target's lists. |
| Snapshots.Snapshot.constructor | src/emil/src/main/java/de/bwl/bwfla/emil/utils/Snapshot.java:31-35 | A snapshot of a configuration with no binding data. |
| Snapshots.Snapshot.WithData | src/emil/src/main/java/de/bwl/bwfla/emil/utils/Snapshot.java:37-40 | A snapshot of a configuration with the given binding data. |
| Snapshots.Snapshot.RemoveRootfsData | src/emil/src/main/java/de/bwl/bwfla/emil/utils/Snapshot.java:129-136 | The data becomes its `emucon-rootfs`-free filtering. |
| Snapshots.ImageTypeFor | src/emil/src/main/java/de/bwl/bwfla/emil/utils/Snapshot.java:105-116 | A revision of a session environment is imported as SESSIONS, of an object environment as OBJECT and of any other as DERIVATE, each exactly for its kind. |
| Snapshots.Snapshot.RevisionConfiguration | src/emil/src/main/java/de/bwl/bwfla/emil/utils/Snapshot.java:98-125 | The revision's configuration: for a non-object parent it cannot fail and keeps the snapshot configuration's resource and drive lists; for an object parent whose archived configuration has resources, its lists and its failure are exactly copyBinding's effect (`CopyBindingEffect`) on the snapshot configuration's lists; when it succeeds its software ids are the add-if-absent of the request's id and its title is the new environment's title, or the snapshot configuration's otherwise. |
| Snapshots.Snapshot.CreateEnvironment | src/emil/src/main/java/de/bwl/bwfla/emil/utils/Snapshot.java:89-150 | Image type SESSIONS / OBJECT / DERIVATE by parent kind; rootfs data removed only when not checkpointing; null data without a checkpoint is an error; a failing binding copy fails the call before any import; the imported configuration has the added software id, the new title, and the resource and drive lists copyBinding leaves (the snapshot's own for a non-object parent); the new environment's fields, including the "Snapshot <parent>" checkpoint title. |
| Snapshots.Snapshot.SaveUserSession | src/emil/src/main/java/de/bwl/bwfla/emil/utils/Snapshot.java:152-201 | Null data is rejected before anything else; otherwise the rootfs data is removed and the import is titled "user session: <user>". |
| Snapshots.Snapshot.CreateObjectEnvironment | src/emil/src/main/java/de/bwl/bwfla/emil/utils/Snapshot.java:203-270 | A null title, then a null object id, is rejected before anything else, and an embedded object the archive does not find is refused; otherwise the imported configuration is the snapshot's with the request's title and, for an embedded object, the resource and drive lists the binding leaves; the data is the rootfs-free filtering (metadata only without data); the new object environment carries the bound drive id for an embedded object, the request's otherwise. |
| ContainerData.FirstFilenameSegment | src/emil/src/main/java/de/bwl/bwfla/emil/EmilContainerData.java:596-603 | The index of the first segment whose trimmed form starts with `filename`, with none before it; the end when none does. |
| ContainerData.GetFileName | src/emil/src/main/java/de/bwl/bwfla/emil/EmilContainerData.java:592-606 | A null header is a NullPointerException; no `filename` segment gives "unknown"; a `filename` segment without `=` is an index-out-of-bounds error; a result never contains `"`. |
| ContainerData.FileNameRoundTrip | src/emil/src/main/java/de/bwl/bwfla/emil/EmilContainerData.java:592-606 | For a name without `;`, `=` or `"`, the header `form-data; name="file"; filename="<name>"` gives back the name. |
| ContainerData.NoFilenameIsUnknown | src/emil/src/main/java/de/bwl/bwfla/emil/EmilContainerData.java:605 | A header without a `filename` segment gives "unknown". |
| ContainerData.FileNameCutAtEquals | src/emil/src/main/java/de/bwl/bwfla/emil/EmilContainerData.java:598-600 | A file name containing `=` is cut at its first `=`, because only the second split segment is used. |
| ContainerData.EmptyFileNameRaises | src/emil/src/main/java/de/bwl/bwfla/emil/EmilContainerData.java:598-600 | `filename=` with an empty value raises index-out-of-bounds, since split drops the trailing empty segment. |
| ContainerData.AttachmentWithEmptyFileNameRaises | src/emil/src/main/java/de/bwl/bwfla/emil/EmilContainerData.java:598-600 | Instance: `attachment; filename=` raises index-out-of-bounds. |
| ContainerData.Upload | src/emil/src/main/java/de/bwl/bwfla/emil/EmilContainerData.java:531-581 | No `file` part, or more than one, is refused with its message; for one part the file name comes from its header; a header error escapes; an unreadable body fails the upload; a success returns the stored user-data URL. |
| ContainerData.PartToString | src/emil/src/main/java/de/bwl/bwfla/emil/EmilContainerData.java:583-590 | An empty part list is refused; otherwise the first part's body. |
| ContainerData.ImageEntrySource | src/emil/src/main/java/de/bwl/bwfla/emil/EmilContainerData.java:329-347 | A URL is used as one; a file name with `/` is refused; a missing file is refused; otherwise the file in `/eaas/import/`. |
| ContainerData.ValidateImport | src/emil/src/main/java/de/bwl/bwfla/emil/EmilContainerData.java:435-442 | Passes iff URL, non-empty process args and image type are all present; the checks come in that order with their messages. |
| ContainerData.ImportContainerTask.constructor | src/emil/src/main/java/de/bwl/bwfla/emil/EmilContainerData.java:325-327 | Stores the request; the image description has no content entries. |
| ContainerData.ImportContainerTask.AddArchiveEntry | src/emil/src/main/java/de/bwl/bwfla/emil/EmilContainerData.java:349-370 | A resolved source is appended as an EXTRACT entry of the format; a refused source raises its error and adds nothing. |
| ContainerData.ImportContainerTask.Execute | src/emil/src/main/java/de/bwl/bwfla/emil/EmilContainerData.java:434-460 | A validation failure is returned and adds nothing; ROOTFS adds a TAR entry, SIMG a Singularity entry, DOCKERHUB the packed root filesystem as TAR; errors add nothing. A ROOTFS or SIMG source that is not a URL and contains `/` is refused and adds no content entry, whatever the import folder holds. |
| Runc.InputMount | src/eaas/components/impl/src/main/java/de/bwl/bwfla/emucomp/components/containers/RuncBean.java:81-90 | An input yields `--mount src:dst:bind:ro` exactly when its binding resolves and it has a destination. |
| Runc.CgenArgsFrame | src/eaas/components/impl/src/main/java/de/bwl/bwfla/emucomp/components/containers/RuncBean.java:68-117 | The argument list starts with the rootfs and output config and ends with `--` and the process arguments in their order. |
| Runc.UserArgsOnlyWithNamespaces | src/eaas/components/impl/src/main/java/de/bwl/bwfla/emucomp/components/containers/RuncBean.java:75-78 | `--user`/`--group` follow the output config exactly when user namespaces are enabled. |
| Runc.InputMountsPairs | src/eaas/components/impl/src/main/java/de/bwl/bwfla/emucomp/components/containers/RuncBean.java:81-90 | The input mounts are one `--mount`, `...:bind:ro` pair per mounted input. |
| Runc.EnvPairsShape | src/eaas/components/impl/src/main/java/de/bwl/bwfla/emucomp/components/containers/RuncBean.java:107-110 | The environment arguments alternate `--env` and the variables, in order. |
| Runc.GuiArgsPresent | src/eaas/components/impl/src/main/java/de/bwl/bwfla/emucomp/components/containers/RuncBean.java:100-105 | A GUI configuration puts `DISPLAY=:<port>` and the X11 socket mount in the list. |
| Runc.OutputMountReadWrite | src/eaas/components/impl/src/main/java/de/bwl/bwfla/emucomp/components/containers/RuncBean.java:93-98 | The output directory is mounted `:bind:rw` exactly when there is an output path. |
| Runc.AddInputMounts | src/eaas/components/impl/src/main/java/de/bwl/bwfla/emucomp/components/containers/RuncBean.java:81-90 | The input loop appends exactly the input mounts, in input order. |
| Runc.AddEnvPairs | src/eaas/components/impl/src/main/java/de/bwl/bwfla/emucomp/components/containers/RuncBean.java:107-110 | The environment loop appends the `--env` pairs, in order. |
| Runc.AddArguments | src/eaas/components/impl/src/main/java/de/bwl/bwfla/emucomp/components/containers/RuncBean.java:115-117 | The command loop appends the process arguments in their order. |
| Runc.AddConfigAndMounts | src/eaas/components/impl/src/main/java/de/bwl/bwfla/emucomp/components/containers/RuncBean.java:68-98 | The arguments before the GUI part: rootfs, output config, user and group, input and output mounts. |
| Runc.AddEnvAndCommand | src/eaas/components/impl/src/main/java/de/bwl/bwfla/emucomp/components/containers/RuncBean.java:107-117 | The arguments after the GUI part: environment pairs, `--`, process arguments. |
| Runc.RuncBean.constructor | src/eaas/components/impl/src/main/java/de/bwl/bwfla/emucomp/components/containers/RuncBean.java:43-51 | A new bean holds no port (-1), is not GUI and has not failed. |
| Runc.RuncBean.GetPort | src/eaas/components/impl/src/main/java/de/bwl/bwfla/emucomp/components/containers/RuncBean.java:195-199 | The first successful call draws one port; every later call returns it without drawing; a failed draw raises and leaves no port. |
| Runc.RuncBean.Destroy | src/eaas/components/impl/src/main/java/de/bwl/bwfla/emucomp/components/containers/RuncBean.java:187-191 | The port goes back to the range only when one was drawn. |
| Runc.RuncBean.Prepare | src/eaas/components/impl/src/main/java/de/bwl/bwfla/emucomp/components/containers/RuncBean.java:54-132 | A GUI config sets `isGui` and draws the port; the cgen arguments are exactly the ordered list; a failing cgen sets FAILED and raises; a succeeding one leaves `sudo runc --debug run <id>` as the run command. |
| TcpConnections.TcpConnection.constructor | src/nbd-server/resource/jar/src/main/java/me/jtalk/socketconnector/TCPConnectionImpl.java:37-40 | The connection is attached to the given owner. |
| TcpConnections.TcpConnection.IdInternal | src/nbd-server/resource/jar/src/main/java/me/jtalk/socketconnector/TCPConnectionImpl.java:96-103 | Empty iff detached; otherwise the owner's id. |
| TcpConnections.TcpConnection.GetId | src/nbd-server/resource/jar/src/main/java/me/jtalk/socketconnector/TCPConnectionImpl.java:43-46 | "Connection is detached" iff there is no owner; otherwise the owner's id. |
| TcpConnections.TcpConnection.DisplayedId | src/nbd-server/resource/jar/src/main/java/me/jtalk/socketconnector/TCPConnectionImpl.java:80-82 | The id toString reports: -1 when detached, the owner's id otherwise. |
| TcpConnections.TcpConnection.Send | src/nbd-server/resource/jar/src/main/java/me/jtalk/socketconnector/TCPConnectionImpl.java:49-57 | Fails when detached; otherwise forwards exactly this message to the owner. |
| TcpConnections.TcpConnection.Disconnect | src/nbd-server/resource/jar/src/main/java/me/jtalk/socketconnector/TCPConnectionImpl.java:60-67 | Does nothing when detached; otherwise calls the owner's disconnect once. |
| TcpConnections.TcpConnection.Close | src/nbd-server/resource/jar/src/main/java/me/jtalk/socketconnector/TCPConnectionImpl.java:70-77 | Does nothing when detached; otherwise requests the owner's cleanup once. |
| TcpConnections.TcpConnection.Reassign | src/nbd-server/resource/jar/src/main/java/me/jtalk/socketconnector/TCPConnectionImpl.java:84-87 | Later operations go to the new owner; getId gives its id. |
| TcpConnections.TcpConnection.Invalidate | src/nbd-server/resource/jar/src/main/java/me/jtalk/socketconnector/TCPConnectionImpl.java:89-92 | Detaches: getId fails with "Connection is detached" and toString shows -1. |
| ContainerEnvironments.EmilContainerEnvironment.constructor | src/emil/src/main/java/de/bwl/bwfla/emil/datatypes/EmilContainerEnvironment.java:17-33 | Every field starts null. |
| ContainerEnvironments.EmilContainerEnvironment.SetInput | src/emil/src/main/java/de/bwl/bwfla/emil/datatypes/EmilContainerEnvironment.java:39-41 | Only `input` changes, to the value given. |
| ContainerEnvironments.EmilContainerEnvironment.SetOutput | src/emil/src/main/java/de/bwl/bwfla/emil/datatypes/EmilContainerEnvironment.java:47-49 | Only `output` changes, to the value given. |
| ContainerEnvironments.EmilContainerEnvironment.SetRuntimeId | src/emil/src/main/java/de/bwl/bwfla/emil/datatypes/EmilContainerEnvironment.java:77-79 | Only `runtimeId` changes, to the value given. |
| ContainerEnvironments.EmilContainerEnvironment.SetNetworking | src/emil/src/main/java/de/bwl/bwfla/emil/datatypes/EmilContainerEnvironment.java:87-89 | Only `networking` changes, to the value given. |
| ContainerEnvironments.EmilContainerEnvironment.SetArgs | src/emil/src/main/java/de/bwl/bwfla/emil/datatypes/EmilContainerEnvironment.java:55-60 | Null keeps the old list; otherwise `args` is a fresh list with the same elements in the same order. |
| ContainerEnvironments.EmilContainerEnvironment.SetEnv | src/emil/src/main/java/de/bwl/bwfla/emil/datatypes/EmilContainerEnvironment.java:66-71 | Null keeps the old list; otherwise `env` is a fresh list with the same elements in the same order. |

## Left out

- Concurrency: ConcurrentHashMap, the atomic counters and flags, the volatile owner and the executor/scheduler hand-offs are modelled as sequential fields. A scheduled task is an explicit tick (`Components.Components.Tick`) with the time passed in.
- Java `long` overflow of millisecond timestamps and durations is not modelled (integers are unbounded); epoch milliseconds stay far below 2^63.
- The `create*Component` bodies (Components.java:377-378, 513-515, 725-727) are SOAP/REST calls to the image builder, blob store and gateway. `Components.Components.CreateComponent` models only their common tail: the session, its unregister task and its trigger.
- ComponentSessionStatsWriter (file I/O), the SSE transport behind setEventSink (a sink is a flag), and the duration formatting of the session notifications are left out.
- Components.ComponentSession.Release: stopping the event observers is transport and is not modelled; only the flag and the drain are. The drain is the corrected `TaskStacks.TaskStack.Execute`, so after a failing task the model runs the remaining tasks where the code as written spins (see Findings).
- Components.Components.ReleaseSession: drains by the corrected `TaskStacks.TaskStack.Execute`, so after a failing task the model runs the remaining tasks and unregisters where the code as written spins (see Findings).
- Components.Components.ReleaseComponent: releases through `Components.Components.ReleaseSession`, with the corrected drain; the code as written spins after a failing task (see Findings).
- Components.Components.Tick: a release decision releases through `Components.Components.ReleaseSession`, with the corrected drain; the code as written spins after a failing task (see Findings).
- Components.Components.Keepalive: the `ignoreMissing` flag only changes logging and is not a parameter.
- Licenses.SeatCounter.Increment: the count is incremented without 32-bit wrap-around. The source's wrapping version is `Licenses.IncrementAsWritten` (see Findings).
- Licenses.LicenseManager.IncrementSeat: increments through the corrected `Licenses.SeatCounter.Increment`, so with count and maximum both Integer.MAX_VALUE it refuses where the code as written succeeds with a wrapped count (see Findings).
- Licenses.LicenseManager.Allocate: increments through the corrected `Licenses.SeatCounter.Increment`, so with count and maximum both Integer.MAX_VALUE it raises OutOfSeatsException where the code as written allocates with a wrapped count (see Findings).
- Licenses.LicenseManager.Allocate: the RuntimeException unwrapping in the catch block is not modelled, because nothing modelled throws there. The `allocations` map is not touched by these operations and is left out.
- EmulatorRegistry: null `name`/`version` fields inside index entries, and a null index, are not modelled; the index is a value with non-null strings.
- Snapshots.CopyBinding: when no drive holds the binding, the source logs "inconsistent metadata" with the serialised configuration and returns; a JAXBException from that serialisation (`src.value(true)`, Snapshot.java:69-74) is caught and the code falls through to `drives.get(index)` with the index at the source's drive count. That fall-through is not modelled: the model always returns there. A resource with a null id (`r.getId().equals(id)`, Snapshot.java:47) is not modelled either; resource ids are strings. `EmulationEnvironmentHelper.clean` is modelled as a copy of the tracked fields. `addArchiveBinding` is foreign: the drive id it returns and the resource and drive lists it leaves in the configuration are parameters of `Snapshots.Snapshot.CreateObjectEnvironment`. The environment helper's import is foreign; its answer is a parameter.
- SessionLease.AtMostThreeWillExpireNotifications: counts only the cleanup trigger's notifications. With the lifetime cap on, setEventSink also schedules one "will expire" notification 10 s after the sink is attached (Components.java:1549-1564, the `scheduledNotification` of `Components.ComponentSession.SetEventSink`), so a session with a sink can receive four in all; the model does not combine the two.
- Snapshots: emulator bean, operating-system and other description fields of the configuration are not tracked.
- ContainerData.ImportContainerTask.Execute: the image build, blob store upload, image archive import and metadata import after the content entry is added (EmilContainerData.java:444-523) are foreign calls and are left out. For DOCKERHUB, the temporary directories, skopeo, oci-image-tool and tar steps (EmilContainerData.java:372-425) are one parameter, the packed path or the error raised.
- ContainerData.Upload: the input stream and the blob store are foreign. `stored` is the URL the store gives, or its error.
- ContainerData.GetFileName: the header map lookup is a parameter (the header value or null). The split separators `;` and `=` are single characters; regular-expression splitting in general is not modelled.
- Runc: `start`, `stop`, the Xpra launch and the processes themselves are external. `Paths.get(workdir, "config.json")` is modelled as concatenation with `/` for a working directory without a trailing separator.
- Runc.RuncBean.Prepare: cgen's varargs `addArguments` calls are modelled as adding their arguments one by one. The rootfs path, binding resolution and output directory come in as a context value.
- TcpConnections: the logging wrappers and the `ResourceException` types are not modelled; a failure is `Fail` with the message.
- ContainerEnvironments: the fields inherited from EmilEnvironment are not modelled.

## Findings

| source | as written | input that shows it | evidently intended | confidence | as-written member | corrected member |
|---|---|---|---|---|---|---|
| src/emil/src/main/java/de/bwl/bwfla/emil/Components.java:1394-1401 | `result = result && this.pop().run()` inside `while (!this.isEmpty())`: after the first failing task `pop()` is never evaluated again, so a non-empty stack never empties and the loop never ends | push a task that succeeds, then one that throws: the thrower runs first and fails, and the remaining task keeps the loop spinning | every task is popped and run; the result is true iff all succeeded | not executed | TaskStacks.ExecuteAsWrittenNeverDrains | TaskStacks.TaskStack.Execute |
| src/eaas/proxy/impl/src/main/java/de/bwl/bwfla/eaas/acl/LicenseManager.java:103-113 | `incrementAndGet()` wraps at Integer.MAX_VALUE and the wrapped value is compared with the maximum | maximum and current count both Integer.MAX_VALUE: the new count is Integer.MIN_VALUE, not above the maximum, so the increment succeeds | the increment fails when the count is at the maximum and leaves the count unchanged | not executed | Licenses.AsWrittenOverflowsAtIntMax | Licenses.IncrementIntended |
