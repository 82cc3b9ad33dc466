# Cinder coordination client and E-Series host mapper, modelled in Dafny

This project models two sequential cores of the Cinder block-storage service.

**The coordination client** (`cinder/coordination.py`). A `Coordinator` keeps a session with a tooz coordination backend (the field `coordinator`, called `session` here) and a `started` flag. `start`, `_start` (here `Connect`), `stop` and the heartbeat loop change them. `get_lock` hands out `Lock` wrappers that turn a backend `ToozError` into a `None` result. The backend is abstract: each call into it takes the outcome it has as a parameter. What the coordinator does to the outside world is recorded, in order, in an event trace: asking for a session, calling start/stop/heartbeat on it, spawning the heartbeat task, sleeping. Each state change is a function on a `Snapshot` of the fields plus the trace (`AfterConnect`, `AfterStart`, `AfterStop`, `AfterBeat`, `AfterHeartbeats`). The methods of the `Coordinator` class are proved to produce exactly those snapshots. Module `Naming` holds the naming policy: the non-empty parts among prefix, member id and lock name, joined with `-`.

**The E-Series host mapper** (`cinder/volume/drivers/netapp/eseries/host_mapper.py`). It decides how a volume is mapped to a host, to several hosts through the multiattach host group, or unmapped from a host, and which LUN number a host gets. The array is the class `ESeriesArray.Array`. It holds the LUN mapping records, the hosts and the host groups. Its functions are the read-only REST client calls and its methods are the calls that change the array. Exceptions become `Err`/`Fail` results. `utils.MAX_LUNS_PER_HOST`, `utils.NULL_REF` and `utils.MULTI_ATTACH_HOST_GROUP_NAME` are the fields of a `Constants` parameter.

Two behaviours of the code worth knowing:
- When `session.start()` raises, `_start` has already stored the new session in `coordinator` (cinder/coordination.py:76-81). So the session is kept but `started` is false. It is not cleared. `AfterConnect` states this.
- A failed heartbeat does not clear `started` (cinder/coordination.py:105-107). So the heartbeat loop of a started coordinator never reconnects; it keeps sending heartbeats on the same session. `StartedHeartbeatsNeverReconnect` proves this.

## Model

| member | source | states |
|---|---|---|
| `Naming.NonEmpty` | cinder/coordination.py:72-75 | the `if s` filter keeps exactly the non-empty parts, and never more parts than it was given |
| `Naming.Join` | cinder/coordination.py:72-75 | joining n parts with `-` gives their characters plus n-1 separators; joining none gives the empty string |
| `Naming.SplitJoin` | cinder/coordination.py:113-117 | splitting a joined name on `-` returns the parts, provided no part contains a `-` (Join has an inverse) |
| `Naming.MemberId` | cinder/coordination.py:72-75 | the member id is `prefix-my_id` when both are non-empty, otherwise the one that is non-empty |
| `Naming.ExternalOmitsMemberId` | cinder/coordination.py:113-117 | an external lock name is prefix and name joined, i.e. the private name of a member with an empty id |
| `Naming.LockNameWidth` | cinder/coordination.py:113-117 | a private lock name is longer than the external one by my_id plus one separator (no separator when prefix and name are both empty) |
| `Naming.PrivateAndExternalNamesDiffer` | cinder/coordination.py:113-117 | with a non-empty my_id, the private and external names of the same lock always differ |
| `Naming.LockNameParts` | cinder/coordination.py:113-117 | when no part contains `-`, splitting a lock name gives back its non-empty parts |
| `Naming.LockName` | cinder/coordination.py:113-117 | get_lock's name: the non-empty parts among prefix, my_id (left out for an external lock) and the lock name, joined with `-`. Its properties are stated by the lemmas about it (ExternalOmitsMemberId, LockNameWidth, PrivateAndExternalNamesDiffer, LockNameParts, LockNameExample) |
| `Naming.LockNameExample` | cinder/coordination.py:113-117 | with prefix `app`, member `m1` and lock `foo`, the names are `app-m1-foo` and `app-foo` (external) |
| `Coordination.Lock.Acquire` | cinder/coordination.py:34-38 | returns the backend's answer to acquire(blocking) when it answers, and None exactly when it raised ToozError |
| `Coordination.Lock.Release` | cinder/coordination.py:40-44 | returns the backend's answer to release when it answers, and None exactly when it raised ToozError |
| `Coordination.AfterConnect` | cinder/coordination.py:66-84 | an empty backend URL changes nothing; otherwise `started` becomes true exactly on success. A made session is stored with the composed member id. When get_coordinator fails, the old session reference is kept. The invariant is kept, a held session is never dropped, and a session is requested iff the URL is set |
| `Coordination.AfterStart` | cinder/coordination.py:60-64 | when already started, nothing happens (no connection, no spawn). Otherwise the outcome of `_start` decides the state, and the heartbeat is spawned iff `started` is true afterwards. The invariant is kept |
| `Coordination.AfterStop` | cinder/coordination.py:86-96 | with no session, no-op. Otherwise the session is cleared and its stop is called once. `started` ends false whatever the backend stop did. The invariant holds afterwards |
| `Coordination.StopOutcomeIrrelevant` | cinder/coordination.py:91-96 | stop ends in the same state whether the backend's stop succeeded or raised ToozError |
| `Coordination.AfterBeat` | cinder/coordination.py:99-109 | one loop iteration: does nothing without a session and never drops one. A started coordinator keeps its session and its `started` flag. It sleeps exactly when the heartbeat succeeded. The invariant is kept |
| `Coordination.BeatEndsWithHeartbeat` | cinder/coordination.py:103-109 | every iteration ends with the heartbeat call on the session then held, followed by a sleep only if that call succeeded |
| `Coordination.BeatReconnectsOnlyWhenNotStarted` | cinder/coordination.py:100-102 | an iteration asks for a new session exactly when it finds the coordinator not started and a backend URL is set |
| `Coordination.AfterHeartbeats` | cinder/coordination.py:98-109 | any number of loop iterations keeps the invariant and keeps a held session. The loop never ends by itself; only stop ends it |
| `Coordination.StartedHeartbeatsNeverReconnect` | cinder/coordination.py:99-109 | from a started state, the loop only sends heartbeats on its session (sleeping after each success) and never reconnects, even after failed heartbeats |
| `Coordination.Coordinator.constructor` | cinder/coordination.py:51-55 | no session, not started, empty trace, invariant holds. my_id is the given id, or the generated one when none is given |
| `Coordination.Coordinator.IsActive` | cinder/coordination.py:57-58 | active iff a session is held, whatever `started` says |
| `Coordination.Coordinator.Connect` | cinder/coordination.py:66-84 | `_start` reaches exactly the state of AfterConnect and keeps `started ⇒ session held` |
| `Coordination.Coordinator.Start` | cinder/coordination.py:60-64 | `start` reaches exactly the state of AfterStart and keeps the invariant |
| `Coordination.Coordinator.Stop` | cinder/coordination.py:86-96 | `stop` swaps the session out before stopping it. It reaches the state of AfterStop, after which the coordinator is inactive and not started |
| `Coordination.Coordinator.HeartbeatOnce` | cinder/coordination.py:100-109 | one iteration of the loop body reaches the state of AfterBeat |
| `Coordination.Coordinator.Heartbeat` | cinder/coordination.py:98-109 | the `while self.coordinator` loop reaches the state of AfterHeartbeats and keeps the invariant |
| `Coordination.Coordinator.GetLock` | cinder/coordination.py:111-120 | None exactly when no session is held. Otherwise a lock on the held session under the composed lock name. It is a function, so it changes neither the session nor `started` |
| `ESeriesArray.OrEmpty` | cinder/volume/drivers/netapp/eseries/host_mapper.py:175 | a missing mapping list reads as empty, a present one as itself |
| `ESeriesArray.Select` | cinder/volume/drivers/netapp/eseries/host_mapper.py:176 | `filter` keeps exactly the mappings the predicate accepts, and no more than there were |
| `ESeriesArray.SelectAppend` | cinder/volume/drivers/netapp/eseries/host_mapper.py:176 | `filter` keeps the original order: filtering a concatenation is concatenating the filtered parts |
| `ESeriesArray.SelectAllOrNone` | cinder/volume/drivers/netapp/eseries/host_mapper.py:176 | `filter` keeps the whole list when every mapping is accepted and nothing when none is |
| `ESeriesArray.Array.GetHostGroupByName` | cinder/volume/drivers/netapp/eseries/host_mapper.py:52-56 | a host group of the array with that label, or NotFound exactly when none has it |
| `ESeriesArray.Array.GetHostGroup` | cinder/volume/drivers/netapp/eseries/host_mapper.py:196-201 | the host group with that reference, or NotFound exactly when there is none |
| `ESeriesArray.Array.GetHost` | cinder/volume/drivers/netapp/eseries/host_mapper.py:127 | the host with that reference, or NotFound exactly when there is none |
| `ESeriesArray.Array.CreateVolumeMapping` | cinder/volume/drivers/netapp/eseries/host_mapper.py:43-44 | appends one mapping of the volume to the host at the LUN, returns it, and changes nothing else |
| `ESeriesArray.Array.SetHostGroupForHost` | cinder/volume/drivers/netapp/eseries/host_mapper.py:136-141 | puts the host into the group and changes nothing else |
| `ESeriesArray.Array.MoveVolumeMappingViaSymbol` | cinder/volume/drivers/netapp/eseries/host_mapper.py:148-152 | moves the named LUN mapping to the new host or group at the new LUN and returns it. It is refused, with nothing changed, exactly when no such mapping exists |
| `ESeriesArray.Array.DeleteVolumeMapping` | cinder/volume/drivers/netapp/eseries/host_mapper.py:193 | removes the mapping with that reference and changes nothing else |
| `HostMapper.MappingsForMapRef` | cinder/volume/drivers/netapp/eseries/host_mapper.py:173-184 | the host (or host group) helpers return exactly the mappings whose mapRef is the given ref; a missing list gives none |
| `HostMapper.MappingsForVolume` | cinder/volume/drivers/netapp/eseries/host_mapper.py:221-226 | returns exactly the mappings whose volumeRef is the volume's; a missing list gives none |
| `HostMapper.FiltersKeepOrder` | cinder/volume/drivers/netapp/eseries/host_mapper.py:173-184 | all three filters keep the array's order of mappings |
| `HostMapper.LeastFreeIsUnique` | cinder/volume/drivers/netapp/eseries/host_mapper.py:166-168 | there is at most one least free LUN, so the contract of GetFreeLun fixes its result |
| `HostMapper.LeastFreeLun` | cinder/volume/drivers/netapp/eseries/host_mapper.py:166-170 | the xrange scan returns the least LUN in [0, MAX_LUNS_PER_HOST) that is not used, and nothing exactly when all are used |
| `HostMapper.GetFreeLun` | cinder/volume/drivers/netapp/eseries/host_mapper.py:157-170 | the least LUN in [0, MAX_LUNS_PER_HOST) used neither by the given (or fetched) host mappings nor, when the host is in a group, by the group's; "No free LUNs" exactly when all are used |
| `HostMapper.MultiattachClusterRef` | cinder/volume/drivers/netapp/eseries/host_mapper.py:50-56 | the clusterRef of a host group with the multiattach name; None exactly when the array has none (NotFound swallowed) |
| `HostMapper.SingleHostMoveAsWritten` | cinder/volume/drivers/netapp/eseries/host_mapper.py:73-75 | the move request as written: the mapping's `mapRef` (the multiattach group) is passed as the LUN mapping reference. AsWrittenMoveIsRefused states what the array does with it |
| `HostMapper.SingleHostMove` | cinder/volume/drivers/netapp/eseries/host_mapper.py:73-75 | the corrected move request: the mapping's own `lunMappingRef`, to the host, at the free LUN. CorrectedMoveRelocatesMapping states what the array does with it |
| `HostMapper.AsWrittenMoveIsRefused` | cinder/volume/drivers/netapp/eseries/host_mapper.py:73-75 | as written, the move names the multiattach group as the LUN mapping. An array whose mappings and groups have distinct references has no such mapping, so it refuses the move |
| `HostMapper.CorrectedMoveRelocatesMapping` | cinder/volume/drivers/netapp/eseries/host_mapper.py:73-75 | the corrected move names a mapping the array has, and afterwards that mapping points at the host at the new LUN |
| `HostMapper.MapVolumeToSingleHost` | cinder/volume/drivers/netapp/eseries/host_mapper.py:33-81 | unmapped: a new mapping to the host at its least free LUN, or NoFreeLuns. Already mapped to the host: returned unchanged, array untouched. Mapped to the multiattach group and not attached: NoFreeLuns when every LUN is used (before any move is asked for), MappingNotMoved when the array lacks the mapping, otherwise moved to the host at its least free LUN. Otherwise MultiattachDisabled. Every error leaves the array untouched |
| `HostMapper.GroupCheck` | cinder/volume/drivers/netapp/eseries/host_mapper.py:99-106 | a host in no group passes. One in the multiattach group passes. One in another group gives UnsupportedHostGroup with that group's label. An unknown group gives NotFound |
| `HostMapper.MultiattachGroup` | cinder/volume/drivers/netapp/eseries/host_mapper.py:108-122 | the group the volume is mapped to when it carries the multiattach name; UnsupportedHostGroup when it is a foreign group; the group found by name when the mapping is not to a group |
| `HostMapper.MapVolumeToMultipleHosts` | cinder/volume/drivers/netapp/eseries/host_mapper.py:85-154 | already mapped to the target: unchanged. Checks target group, then mapped group, then current host's group; every UnsupportedHostGroup/NotFound comes before any change. When every check passes it succeeds; for a direct mapping, exactly when the array has that mapping. On success the target host (and a directly mapped host) joins the multiattach group, and a direct mapping moves to the group at the same LUN. A refused move (MappingNotMoved) comes after both hosts have joined the group and leaves the mappings as they were |
| `HostMapper.UnmapVolumeFromHost` | cinder/volume/drivers/netapp/eseries/host_mapper.py:187-218 | a direct mapping is deleted. A mapRef that is no host group gives VolumeNotMapped. A foreign group gives UnsupportedHostGroup. A host outside the multiattach group gives VolumeNotMapped. Otherwise the mapping is deleted iff the status is `detaching`, and nothing changes when it is not |

## Left out

- Concurrency: `eventlet.spawn_n` and `eventlet.sleep` are only recorded as `SpawnHeartbeat` and `Sleep` events. A background heartbeat task running beside foreground callers, and its races with `stop`, are not modelled.
- Coordination.Coordinator.Heartbeat: the source's loop has no bound. The model runs one iteration per supplied `Tick` (the outcomes that iteration meets). It stops early only when no session is held. So it shows what any finite prefix of the loop does.
- The `heartbeat` interval is a float and is not modelled. Configuration loading is replaced by a `backendUrl` string parameter (empty = not configured), and `prefix` by a string (empty = None).
- `uuid.uuid4()` is the constructor parameter `generatedId`.
- tooz internals: `get_coordinator`, network sessions and lock semantics. Sessions are values told apart by a serial number. A ToozError raised by `session.get_lock` (cinder/coordination.py:118) is not caught there, so it leaves `get_lock`; that error path is not modelled, and GetLock always returns a lock when a session is held.
- `Lock.__getattr__` forwarding (cinder/coordination.py:46-47): the catch-all delegation of other attributes has no counterpart in a typed model.
- The `lock` decorator and the `@coordination.lock` mutual exclusion on the mapper functions (cinder/coordination.py:126-133): they only serialize concurrent callers.
- Logging and translation calls (`LOG.*`, `_`, `_LE`, `_LW`, `_LI`).
- The E-Series REST client is not part of this model. Its calls are abstracted as the `Array` class, and REST failures other than NotFound and a refused move are not modelled. The real client answers a move with only the LUN; the model returns the moved mapping record. The LUN mapping reference the array assigns to a new mapping is the parameter `givenRef`.
- The concrete values of `utils.MAX_LUNS_PER_HOST`, `utils.NULL_REF` and `utils.MULTI_ATTACH_HOST_GROUP_NAME`: they are parameters.
- HostMapper.GetFreeLun: `luns.extend(...)` changes the caller's list in place when mappings are passed in. The model extends a local copy. No caller reads its list afterwards, so nothing observable is lost.
- Python 2 `filter` returns a list; the model's filters return sequences. Mapping records are taken to always carry `mapRef`, `lun` and `lunMappingRef`. An empty `vol_map` dict is modelled as `None`.
- Python's `int(lun['lun'])` conversion: LUNs are integers in the model.

## Findings

| source | as written | input that shows it | evidently intended | confidence | as-written member | corrected member |
|---|---|---|---|---|---|---|
| cinder/volume/drivers/netapp/eseries/host_mapper.py:73-75 | `move_volume_mapping_via_symbol(vol_map.get('mapRef'), host['hostRef'], lun)` passes the mapping's host group reference where the call expects the LUN mapping reference. Lines 148-151 pass `mapping.get('lunMappingRef')` to the same call | volume not attached, mapped as `Mapping(mapRef="hg1", volumeRef="v1", lun=0, lunMappingRef="lm1")` to the multiattach group `HostGroup("hg1", ...)`: the request names LUN mapping "hg1", which the array does not have, so the move is refused | pass `vol_map['lunMappingRef']`, so the existing mapping moves to the host at the free LUN | medium; not executed | `HostMapper.SingleHostMoveAsWritten`, with `HostMapper.AsWrittenMoveIsRefused` | `HostMapper.SingleHostMove`, with `HostMapper.CorrectedMoveRelocatesMapping`; used by `HostMapper.MapVolumeToSingleHost` |
