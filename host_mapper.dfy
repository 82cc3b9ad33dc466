/**
 * The mapping decisions of cinder/volume/drivers/netapp/eseries/host_mapper.py:
 * which LUN a host gets, which mappings belong to a host, host group or
 * volume, and how a volume is mapped to one host, to several hosts (through
 * the multiattach host group) or unmapped from a host. Exceptions become
 * Err/Fail results; the array is the Array class of ESeriesArray.
 */
module HostMapper {
  import opened Wrappers
  import opened ESeriesArray

  /** utils.MAX_LUNS_PER_HOST, utils.NULL_REF and utils.MULTI_ATTACH_HOST_GROUP_NAME. */
  datatype Constants = Constants(maxLunsPerHost: nat, nullRef: Ref, multiattachGroupName: string)

  /** The fields of a Cinder volume that the mapper reads. */
  datatype CinderVolume = CinderVolume(id: string, attachStatus: string, status: string)

  /**
   * _get_vol_mapping_for_host_frm_array and
   * _get_vol_mapping_for_host_group_frm_array (the two are the same filter):
   * the mappings to the host or host group `ref`.
   */
  function MappingsForMapRef(list: Option<seq<Mapping>>, ref: Ref): (r: seq<Mapping>)
    ensures forall m :: m in r <==> m in OrEmpty(list) && m.mapRef == ref
    ensures list.None? ==> r == []
  {
    Select(OrEmpty(list), (m: Mapping) => m.mapRef == ref)
  }

  /** get_host_mapping_for_vol_frm_array: the mappings of volume `volumeRef`. */
  function MappingsForVolume(list: Option<seq<Mapping>>, volumeRef: Ref): (r: seq<Mapping>)
    ensures forall m :: m in r <==> m in OrEmpty(list) && m.volumeRef == volumeRef
    ensures list.None? ==> r == []
  {
    Select(OrEmpty(list), (m: Mapping) => m.volumeRef == volumeRef)
  }

  /** The filters keep the array's order: filtering a concatenation concatenates the filtered parts. */
  lemma FiltersKeepOrder(a: seq<Mapping>, b: seq<Mapping>, ref: Ref)
    ensures MappingsForMapRef(Some(a + b), ref) == MappingsForMapRef(Some(a), ref) + MappingsForMapRef(Some(b), ref)
    ensures MappingsForVolume(Some(a + b), ref) == MappingsForVolume(Some(a), ref) + MappingsForVolume(Some(b), ref)
  {
    SelectAppend(a, b, (m: Mapping) => m.mapRef == ref);
    SelectAppend(a, b, (m: Mapping) => m.volumeRef == ref);
  }

  /** The LUN numbers of some mappings (`int(lun['lun'])`). */
  function LunsInUse(luns: seq<Mapping>): set<int>
  {
    set m | m in luns :: m.lun
  }

  /** `n` is the least LUN in [0, max) that is not used. */
  predicate IsLeastFree(n: int, used: set<int>, max: nat)
  {
    0 <= n < max && n !in used && forall k :: 0 <= k < n ==> k in used
  }

  /** Every LUN in [0, max) is used. */
  predicate AllUsed(used: set<int>, max: nat)
  {
    forall k :: 0 <= k < max ==> k in used
  }

  /** The least free LUN is unique, so the contract of GetFreeLun fixes its result. */
  lemma LeastFreeIsUnique(a: int, b: int, used: set<int>, max: nat)
    requires IsLeastFree(a, used, max) && IsLeastFree(b, used, max)
    ensures a == b
  {
  }

  /**
   * The mappings _get_free_lun counts: `maps`, or when none are given the
   * host's own, and the host group's when the host is in one.
   */
  function LunCandidates(client: Array, host: Host, maps: seq<Mapping>, consts: Constants): seq<Mapping>
    reads client
  {
    (if maps != [] then maps else MappingsForMapRef(client.mappingList, host.hostRef))
    + (if host.clusterRef != consts.nullRef then MappingsForMapRef(client.mappingList, host.clusterRef) else [])
  }

  /** The LUNs in use on a host, as _get_free_lun counts them when given the host's own mappings. */
  function HostLuns(client: Array, host: Host, consts: Constants): set<int>
    reads client
  {
    LunsInUse(LunCandidates(client, host, MappingsForMapRef(client.mappingList, host.hostRef), consts))
  }

  /** The `for lun in xrange(utils.MAX_LUNS_PER_HOST)` search of _get_free_lun. */
  method LeastFreeLun(used: set<int>, max: nat) returns (r: Option<nat>)
    ensures r.Some? ==> IsLeastFree(r.value, used, max)
    ensures r.None? <==> AllUsed(used, max)
  {
    var lun := 0;
    while lun < max
      invariant 0 <= lun <= max
      invariant forall k :: 0 <= k < lun ==> k in used
    {
      if lun !in used {
        return Some(lun);
      }
      lun := lun + 1;
    }
    return None;
  }

  /** _get_free_lun. */
  method GetFreeLun(client: Array, host: Host, maps: seq<Mapping>, consts: Constants) returns (r: Result<nat, Error>)
    ensures r.Ok? ==> IsLeastFree(r.value, LunsInUse(LunCandidates(client, host, maps, consts)), consts.maxLunsPerHost)
    ensures r.Err? <==> AllUsed(LunsInUse(LunCandidates(client, host, maps, consts)), consts.maxLunsPerHost)
    ensures r.Err? ==> r.error == NoFreeLuns
  {
    var luns := if maps != [] then maps else MappingsForMapRef(client.mappingList, host.hostRef);
    if host.clusterRef != consts.nullRef {
      var groupMaps := MappingsForMapRef(client.mappingList, host.clusterRef);
      luns := luns + groupMaps;
    }
    assert luns == LunCandidates(client, host, maps, consts);
    var free := LeastFreeLun(LunsInUse(luns), consts.maxLunsPerHost);
    if free.Some? {
      return Ok(free.value);
    }
    return Err(NoFreeLuns);
  }

  /** The clusterRef of the multiattach host group, None when the array has none (lines 50-56). */
  function MultiattachClusterRef(client: Array, consts: Constants): (r: Option<Ref>)
    reads client
    ensures r.Some? <==> exists g :: g in client.hostGroups && g.name == consts.multiattachGroupName
    ensures r.Some? ==> exists g :: g in client.hostGroups && g.name == consts.multiattachGroupName && g.clusterRef == r.value
  {
    match client.GetHostGroupByName(consts.multiattachGroupName)
    case Ok(g) => Some(g.clusterRef)
    case Err(_) => None
  }

  /** A mapping to the multiattach group of a volume Cinder does not see attached may be moved to one host. */
  predicate MovableToHost(client: Array, volume: CinderVolume, volMap: Mapping, consts: Constants)
    reads client
  {
    MultiattachClusterRef(client, consts) == Some(volMap.mapRef) && volume.attachStatus != "attached"
  }

  /** The arguments of move_volume_mapping_via_symbol: which LUN mapping goes where, at which LUN. */
  datatype MoveRequest = MoveRequest(lunMappingRef: Ref, toRef: Ref, lun: int)

  /** The move map_volume_to_single_host asks for as written: the mapping's mapRef stands as the LUN mapping. */
  function SingleHostMoveAsWritten(volMap: Mapping, host: Host, lun: nat): MoveRequest
  {
    MoveRequest(volMap.mapRef, host.hostRef, lun)
  }

  /** The move map_volume_to_single_host means: the mapping itself, to the host, at the free LUN. */
  function SingleHostMove(volMap: Mapping, host: Host, lun: nat): MoveRequest
  {
    MoveRequest(volMap.lunMappingRef, host.hostRef, lun)
  }

  /**
   * As written, the move names the multiattach host group where the array
   * expects a LUN mapping. On an array whose LUN mappings and host groups
   * have distinct references the array refuses that move.
   */
  lemma AsWrittenMoveIsRefused(ms: seq<Mapping>, groups: seq<HostGroup>, multiattach: HostGroup,
                               volMap: Mapping, host: Host, lun: nat)
    requires forall m, g :: m in ms && g in groups ==> m.lunMappingRef != g.clusterRef
    requires multiattach in groups && volMap.mapRef == multiattach.clusterRef
    ensures !HasLunMapping(ms, SingleHostMoveAsWritten(volMap, host, lun).lunMappingRef)
  {
  }

  /** The corrected move names a mapping the array has, and puts it on the host at the given LUN. */
  lemma CorrectedMoveRelocatesMapping(ms: seq<Mapping>, volMap: Mapping, host: Host, lun: nat)
    requires volMap in ms
    ensures HasLunMapping(ms, SingleHostMove(volMap, host, lun).lunMappingRef)
    ensures volMap.(mapRef := host.hostRef, lun := lun) in Moved(ms, volMap.lunMappingRef, host.hostRef, lun)
  {
    var i :| 0 <= i < |ms| && ms[i] == volMap;
    assert Moved(ms, volMap.lunMappingRef, host.hostRef, lun)[i] == volMap.(mapRef := host.hostRef, lun := lun);
  }

  /** map_volume_to_single_host, with the move of lines 73-75 corrected (see SingleHostMove). */
  method MapVolumeToSingleHost(client: Array, volume: CinderVolume, volumeRef: Ref, host: Host,
                               volMap: Option<Mapping>, consts: Constants, givenRef: Ref)
    returns (r: Result<Mapping, Error>)
    modifies client
    ensures client.hosts == old(client.hosts) && client.hostGroups == old(client.hostGroups)
    ensures r.Err? ==> unchanged(client)
    // not mapped: a new mapping of the volume to the host, at its least free LUN
    ensures volMap.None? ==> (r.Err? <==> old(AllUsed(HostLuns(client, host, consts), consts.maxLunsPerHost)))
    ensures volMap.None? && r.Err? ==> r.error == NoFreeLuns
    ensures volMap.None? && r.Ok? ==>
              r.value.mapRef == host.hostRef && r.value.volumeRef == volumeRef && r.value.lunMappingRef == givenRef
              && old(IsLeastFree(r.value.lun, HostLuns(client, host, consts), consts.maxLunsPerHost))
              && client.mappingList == Some(old(client.Mappings()) + [r.value])
    // already mapped to this host: nothing to do
    ensures volMap.Some? && volMap.value.mapRef == host.hostRef ==> r == Ok(volMap.value) && unchanged(client)
    // mapped to the multiattach group and not attached: moved to the host at its least free LUN
    ensures volMap.Some? && volMap.value.mapRef != host.hostRef && old(MovableToHost(client, volume, volMap.value, consts)) ==>
              (r.Err? <==> old(AllUsed(HostLuns(client, host, consts), consts.maxLunsPerHost))
                           || !old(HasLunMapping(client.Mappings(), volMap.value.lunMappingRef)))
              // no free LUN is found before any move is asked for
              && (old(AllUsed(HostLuns(client, host, consts), consts.maxLunsPerHost)) ==> r == Err(NoFreeLuns))
              && ((!old(AllUsed(HostLuns(client, host, consts), consts.maxLunsPerHost))
                   && !old(HasLunMapping(client.Mappings(), volMap.value.lunMappingRef))) ==> r == Err(MappingNotMoved))
              && (r.Ok? ==> r.value.mapRef == host.hostRef && r.value.lunMappingRef == volMap.value.lunMappingRef
                            && old(IsLeastFree(r.value.lun, HostLuns(client, host, consts), consts.maxLunsPerHost))
                            && client.mappingList
                               == Some(old(Moved(client.Mappings(), volMap.value.lunMappingRef, host.hostRef, r.value.lun))))
    // mapped anywhere else: multiattach is disabled
    ensures volMap.Some? && volMap.value.mapRef != host.hostRef && !old(MovableToHost(client, volume, volMap.value, consts)) ==>
              r == Err(MultiattachDisabled)
  {
    if volMap.None? {
      var mappings := MappingsForMapRef(client.mappingList, host.hostRef);
      var lun := GetFreeLun(client, host, mappings, consts);
      if lun.Err? {
        return Err(lun.error);
      }
      var created := client.CreateVolumeMapping(volumeRef, host.hostRef, lun.value, givenRef);
      return Ok(created);
    }
    var current := volMap.value;
    if current.mapRef == host.hostRef {
      return Ok(current);
    }
    var multiattachRef := MultiattachClusterRef(client, consts);
    if multiattachRef == Some(current.mapRef) {
      if volume.attachStatus != "attached" {
        var mappings := MappingsForMapRef(client.mappingList, host.hostRef);
        var lun := GetFreeLun(client, host, mappings, consts);
        if lun.Err? {
          return Err(lun.error);
        }
        var move := SingleHostMove(current, host, lun.value);
        r := client.MoveVolumeMappingViaSymbol(move.lunMappingRef, move.toRef, move.lun);
        return;
      }
    }
    return Err(MultiattachDisabled);
  }

  /**
   * Lines 99-106 and 128-135: a host outside any group, or in the multiattach
   * group, may join the multiattach group; one in another group may not.
   */
  function GroupCheck(client: Array, clusterRef: Ref, consts: Constants): (r: Outcome<Error>)
    reads client
    ensures clusterRef == consts.nullRef ==> r.Pass?
    ensures clusterRef != consts.nullRef && client.GetHostGroup(clusterRef).Err? ==> r == Fail(NotFound)
    ensures clusterRef != consts.nullRef && client.GetHostGroup(clusterRef).Ok? ==>
              (r.Pass? <==> client.GetHostGroup(clusterRef).value.name == consts.multiattachGroupName)
              && (r.Fail? ==> r.error == UnsupportedHostGroup(client.GetHostGroup(clusterRef).value.name))
  {
    if clusterRef == consts.nullRef then Pass
    else match client.GetHostGroup(clusterRef)
      case Err(e) => Fail(e)
      case Ok(g) => if g.name != consts.multiattachGroupName then Fail(UnsupportedHostGroup(g.name)) else Pass
  }

  /**
   * Lines 108-122: the multiattach group is the group the volume is mapped
   * to when it is one, which must then carry the multiattach name; else the
   * group found by that name.
   */
  function MultiattachGroup(client: Array, mapping: Mapping, consts: Constants): (r: Result<HostGroup, Error>)
    reads client
    ensures r.Ok? ==> r.value in client.hostGroups && r.value.name == consts.multiattachGroupName
    ensures client.GetHostGroup(mapping.mapRef).Ok? && client.GetHostGroup(mapping.mapRef).value.name != consts.multiattachGroupName
            ==> r == Err(UnsupportedHostGroup(client.GetHostGroup(mapping.mapRef).value.name))
    ensures client.GetHostGroup(mapping.mapRef).Ok? && client.GetHostGroup(mapping.mapRef).value.name == consts.multiattachGroupName
            ==> r == Ok(client.GetHostGroup(mapping.mapRef).value)
    ensures client.GetHostGroup(mapping.mapRef).Err? ==> r == client.GetHostGroupByName(consts.multiattachGroupName)
  {
    match client.GetHostGroup(mapping.mapRef)
    case Ok(g) => if g.name != consts.multiattachGroupName then Err(UnsupportedHostGroup(g.name)) else Ok(g)
    case Err(_) => client.GetHostGroupByName(consts.multiattachGroupName)
  }

  /** map_volume_to_multiple_hosts. */
  method MapVolumeToMultipleHosts(client: Array, volume: CinderVolume, targetHost: Host, mapping: Mapping,
                                  consts: Constants)
    returns (r: Result<Mapping, Error>)
    modifies client
    ensures client.hostGroups == old(client.hostGroups)
    // already mapped to the target host
    ensures mapping.mapRef == targetHost.hostRef ==> r == Ok(mapping) && unchanged(client)
    // every error but a refused move comes before the array is changed
    ensures r.Err? && r.error != MappingNotMoved ==> unchanged(client)
    ensures r.Err? && r.error == MappingNotMoved ==> !old(HasLunMapping(client.Mappings(), mapping.lunMappingRef))
    // target host in a foreign host group
    ensures mapping.mapRef != targetHost.hostRef && old(GroupCheck(client, targetHost.clusterRef, consts)).Fail? ==>
              r == Err(old(GroupCheck(client, targetHost.clusterRef, consts)).error)
    // mapped to a foreign host group, or no multiattach group
    ensures mapping.mapRef != targetHost.hostRef && old(GroupCheck(client, targetHost.clusterRef, consts)).Pass?
            && old(MultiattachGroup(client, mapping, consts)).Err? ==>
              r == Err(old(MultiattachGroup(client, mapping, consts)).error)
    // mapped directly to a host that is unknown or in a foreign host group
    ensures mapping.mapRef != targetHost.hostRef && old(GroupCheck(client, targetHost.clusterRef, consts)).Pass?
            && old(MultiattachGroup(client, mapping, consts)).Ok? && old(client.GetHostGroup(mapping.mapRef)).Err? ==>
              (old(client.GetHost(mapping.mapRef)).Err? ==> r == Err(NotFound))
              && (old(client.GetHost(mapping.mapRef)).Ok?
                  && old(GroupCheck(client, client.GetHost(mapping.mapRef).value.clusterRef, consts)).Fail? ==>
                    r == Err(old(GroupCheck(client, client.GetHost(mapping.mapRef).value.clusterRef, consts)).error))
    // every check passes and the volume is mapped to the multiattach group: success
    ensures mapping.mapRef != targetHost.hostRef && old(GroupCheck(client, targetHost.clusterRef, consts)).Pass?
            && old(MultiattachGroup(client, mapping, consts)).Ok? && old(client.GetHostGroup(mapping.mapRef)).Ok? ==>
              r.Ok?
    // every check passes and the volume is mapped to a host: success exactly when the array has the mapping
    ensures mapping.mapRef != targetHost.hostRef && old(GroupCheck(client, targetHost.clusterRef, consts)).Pass?
            && old(MultiattachGroup(client, mapping, consts)).Ok? && old(client.GetHostGroup(mapping.mapRef)).Err?
            && old(client.GetHost(mapping.mapRef)).Ok?
            && old(GroupCheck(client, client.GetHost(mapping.mapRef).value.clusterRef, consts)).Pass? ==>
              (r.Ok? <==> old(HasLunMapping(client.Mappings(), mapping.lunMappingRef)))
    // a refused move comes after both hosts have joined the group; the mappings are untouched
    ensures r == Err(MappingNotMoved) ==>
              old(MultiattachGroup(client, mapping, consts)).Ok? && old(client.GetHostGroup(mapping.mapRef)).Err?
              && old(client.GetHost(mapping.mapRef)).Ok?
              && var g := old(MultiattachGroup(client, mapping, consts)).value;
                 var current := old(client.GetHost(mapping.mapRef)).value;
                 client.hosts == WithCluster(WithCluster(old(client.hosts), current.hostRef, g.clusterRef),
                                             targetHost.hostRef, g.clusterRef)
                 && client.mappingList == old(client.mappingList)
    // success: the target host (and a directly mapped host) joins the multiattach group
    ensures r.Ok? && mapping.mapRef != targetHost.hostRef ==>
              old(MultiattachGroup(client, mapping, consts)).Ok?
              && var g := old(MultiattachGroup(client, mapping, consts)).value;
                 forall h :: h in client.hosts && h.hostRef == targetHost.hostRef ==> h.clusterRef == g.clusterRef
    // success, mapped to the multiattach group already: only the target host moves
    ensures r.Ok? && mapping.mapRef != targetHost.hostRef && old(client.GetHostGroup(mapping.mapRef)).Ok? ==>
              r == Ok(mapping) && client.mappingList == old(client.mappingList)
              && client.hosts == WithCluster(old(client.hosts), targetHost.hostRef, old(client.GetHostGroup(mapping.mapRef)).value.clusterRef)
    // success, mapped directly to a host: both hosts join the group, the mapping moves to it at the same LUN
    ensures r.Ok? && mapping.mapRef != targetHost.hostRef && old(client.GetHostGroup(mapping.mapRef)).Err? ==>
              old(MultiattachGroup(client, mapping, consts)).Ok? && old(client.GetHost(mapping.mapRef)).Ok?
              && var g := old(MultiattachGroup(client, mapping, consts)).value;
                 var current := old(client.GetHost(mapping.mapRef)).value;
                 client.hosts == WithCluster(WithCluster(old(client.hosts), current.hostRef, g.clusterRef),
                                             targetHost.hostRef, g.clusterRef)
                 && client.mappingList == Some(Moved(old(client.Mappings()), mapping.lunMappingRef, g.clusterRef, mapping.lun))
                 && r.value.lunMappingRef == mapping.lunMappingRef
                 && r.value.mapRef == g.clusterRef && r.value.lun == mapping.lun
  {
    if mapping.mapRef == targetHost.hostRef {
      return Ok(mapping);
    }
    var targetCheck := GroupCheck(client, targetHost.clusterRef, consts);
    if targetCheck.Fail? {
      return Err(targetCheck.error);
    }
    var group := MultiattachGroup(client, mapping, consts);
    if group.Err? {
      return Err(group.error);
    }
    var multiattach := group.value;
    var mappedGroup := client.GetHostGroup(mapping.mapRef);
    if mappedGroup.Err? {
      var currentHost := client.GetHost(mapping.mapRef);
      if currentHost.Err? {
        return Err(currentHost.error);
      }
      var currentCheck := GroupCheck(client, currentHost.value.clusterRef, consts);
      if currentCheck.Fail? {
        return Err(currentCheck.error);
      }
      client.SetHostGroupForHost(currentHost.value.hostRef, multiattach.clusterRef);
    }
    client.SetHostGroupForHost(targetHost.hostRef, multiattach.clusterRef);
    if mappedGroup.Err? {
      r := client.MoveVolumeMappingViaSymbol(mapping.lunMappingRef, multiattach.clusterRef, mapping.lun);
      return;
    }
    return Ok(mapping);
  }

  /** unmap_volume_from_host. */
  method UnmapVolumeFromHost(client: Array, volume: CinderVolume, host: Host, mapping: Mapping, consts: Constants)
    returns (r: Outcome<Error>)
    modifies client
    ensures client.hosts == old(client.hosts) && client.hostGroups == old(client.hostGroups)
    // mapped directly to the host: the mapping is deleted
    ensures mapping.mapRef == host.hostRef ==>
              r.Pass? && client.mappingList == Some(Without(old(client.Mappings()), mapping.lunMappingRef))
    // mapped to something that is not a host group
    ensures mapping.mapRef != host.hostRef && old(client.GetHostGroup(mapping.mapRef)).Err? ==>
              r == Fail(VolumeNotMapped) && unchanged(client)
    ensures mapping.mapRef != host.hostRef && old(client.GetHostGroup(mapping.mapRef)).Ok? ==>
              var g := old(client.GetHostGroup(mapping.mapRef)).value;
              // a foreign host group
              (g.name != consts.multiattachGroupName ==> r == Fail(UnsupportedHostGroup(g.name)) && unchanged(client))
              // the multiattach group, but the host is not in it
              && (g.name == consts.multiattachGroupName && host.clusterRef != g.clusterRef ==>
                    r == Fail(VolumeNotMapped) && unchanged(client))
              // the multiattach group with the host in it: deleted only when detaching
              && (g.name == consts.multiattachGroupName && host.clusterRef == g.clusterRef ==>
                    r.Pass?
                    && (volume.status == "detaching" ==>
                          client.mappingList == Some(Without(old(client.Mappings()), mapping.lunMappingRef)))
                    && (volume.status != "detaching" ==> unchanged(client)))
  {
    if mapping.mapRef == host.hostRef {
      client.DeleteVolumeMapping(mapping.lunMappingRef);
      return Pass;
    }
    var group := client.GetHostGroup(mapping.mapRef);
    if group.Err? {
      return Fail(VolumeNotMapped);
    }
    var hostGroup := group.value;
    if hostGroup.name != consts.multiattachGroupName {
      return Fail(UnsupportedHostGroup(hostGroup.name));
    }
    if host.clusterRef != hostGroup.clusterRef {
      return Fail(VolumeNotMapped);
    }
    if volume.status == "detaching" {
      client.DeleteVolumeMapping(mapping.lunMappingRef);
    }
    return Pass;
  }
}
