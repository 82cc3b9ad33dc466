/**
 * The part of an E-Series storage array that the host mapper of
 * cinder/volume/drivers/netapp/eseries/host_mapper.py sees through its REST
 * client: the LUN mapping records, the hosts and the host groups. The
 * client's calls are the functions (queries) and methods (changes) of the
 * class Array.
 */
module ESeriesArray {
  import opened Wrappers

  /** An object reference of the array (hostRef, clusterRef, volumeRef, ...). */
  type Ref = string

  /** A LUN mapping: volume `volumeRef` is mapped at `lun` to the host or host group `mapRef`. */
  datatype Mapping = Mapping(mapRef: Ref, volumeRef: Ref, lun: int, lunMappingRef: Ref)

  /**
   * A host; `clusterRef` is its host group, or the array's null reference when
   * it has none. `name` is the record's `label` (a reserved word in Dafny).
   */
  datatype Host = Host(hostRef: Ref, clusterRef: Ref, name: string)

  datatype HostGroup = HostGroup(clusterRef: Ref, name: string)

  /** The exceptions the mapper raises or lets through. */
  datatype Error =
    | NotFound                    // exception.NotFound from a client lookup
    | NoFreeLuns                  // NetAppDriverException: no free LUN for the host
    | MultiattachDisabled         // NetAppDriverException: volume already attached elsewhere
    | UnsupportedHostGroup(group: string)
    | VolumeNotMapped
    | MappingNotMoved             // the array refused to move a mapping

  /** `client.get_volume_mappings() or []`: a missing list counts as empty. */
  function OrEmpty(list: Option<seq<Mapping>>): (r: seq<Mapping>)
    ensures list.None? ==> r == []
    ensures list.Some? ==> r == list.value
  {
    match list
    case None => []
    case Some(ms) => ms
  }

  /** The mappings that `keep` accepts, in their order. */
  function Select(ms: seq<Mapping>, keep: Mapping -> bool): (r: seq<Mapping>)
    ensures forall m :: m in r <==> m in ms && keep(m)
    ensures |r| <= |ms|
  {
    if ms == [] then []
    else (if keep(ms[0]) then [ms[0]] else []) + Select(ms[1..], keep)
  }

  /** Selection keeps the order: selecting from two lists one after the other is selecting from their concatenation. */
  lemma {:induction false} SelectAppend(a: seq<Mapping>, b: seq<Mapping>, keep: Mapping -> bool)
    ensures Select(a + b, keep) == Select(a, keep) + Select(b, keep)
  {
    if a == [] {
      assert a + b == b;
    } else {
      assert (a + b)[0] == a[0];
      assert (a + b)[1..] == a[1..] + b;
      SelectAppend(a[1..], b, keep);
    }
  }

  /** Selection keeps every element when all are accepted, and none when none is. */
  lemma {:induction false} SelectAllOrNone(ms: seq<Mapping>, keep: Mapping -> bool)
    ensures (forall m :: m in ms ==> keep(m)) ==> Select(ms, keep) == ms
    ensures (forall m :: m in ms ==> !keep(m)) ==> Select(ms, keep) == []
  {
    if ms != [] {
      SelectAllOrNone(ms[1..], keep);
      assert ms == [ms[0]] + ms[1..];
    }
  }

  /** The position of the first element that `p` accepts. */
  function FirstWhere<T>(xs: seq<T>, p: T -> bool): (r: Option<nat>)
    ensures r.Some? ==> r.value < |xs| && p(xs[r.value]) && forall j :: 0 <= j < r.value ==> !p(xs[j])
    ensures r.None? ==> forall j :: 0 <= j < |xs| ==> !p(xs[j])
  {
    if xs == [] then None
    else if p(xs[0]) then Some(0)
    else match FirstWhere(xs[1..], p)
      case None => None
      case Some(k) => Some(k + 1)
  }

  /** The hosts after `hostRef` has been put into host group `clusterRef`. */
  function WithCluster(hosts: seq<Host>, hostRef: Ref, clusterRef: Ref): (r: seq<Host>)
    ensures |r| == |hosts|
    ensures forall h :: h in r && h.hostRef == hostRef ==> h.clusterRef == clusterRef
    ensures forall i :: 0 <= i < |hosts| && hosts[i].hostRef != hostRef ==> r[i] == hosts[i]
  {
    seq(|hosts|, i requires 0 <= i < |hosts| =>
      if hosts[i].hostRef == hostRef then hosts[i].(clusterRef := clusterRef) else hosts[i])
  }

  predicate HasLunMapping(ms: seq<Mapping>, lunMappingRef: Ref)
  {
    exists m :: m in ms && m.lunMappingRef == lunMappingRef
  }

  /** The mappings after mapping `lunMappingRef` has been moved to `toRef` at `lun`. */
  function Moved(ms: seq<Mapping>, lunMappingRef: Ref, toRef: Ref, lun: int): (r: seq<Mapping>)
    ensures |r| == |ms|
    ensures forall i :: 0 <= i < |ms| ==>
              r[i] == if ms[i].lunMappingRef == lunMappingRef then ms[i].(mapRef := toRef, lun := lun) else ms[i]
  {
    seq(|ms|, i requires 0 <= i < |ms| =>
      if ms[i].lunMappingRef == lunMappingRef then ms[i].(mapRef := toRef, lun := lun) else ms[i])
  }

  /** The mappings after mapping `lunMappingRef` has been deleted. */
  function Without(ms: seq<Mapping>, lunMappingRef: Ref): (r: seq<Mapping>)
    ensures forall m :: m in r <==> m in ms && m.lunMappingRef != lunMappingRef
  {
    Select(ms, (m: Mapping) => m.lunMappingRef != lunMappingRef)
  }

  /** The array, as its REST client shows it. */
  class Array {
    /** What get_volume_mappings() answers; None when it answers nothing. */
    var mappingList: Option<seq<Mapping>>
    var hosts: seq<Host>
    var hostGroups: seq<HostGroup>

    constructor (mappingList: Option<seq<Mapping>>, hosts: seq<Host>, hostGroups: seq<HostGroup>)
      ensures this.mappingList == mappingList && this.hosts == hosts && this.hostGroups == hostGroups
    {
      this.mappingList := mappingList;
      this.hosts := hosts;
      this.hostGroups := hostGroups;
    }

    /** The mapping records, a missing list read as empty. */
    function Mappings(): seq<Mapping>
      reads this
    {
      OrEmpty(mappingList)
    }

    /** get_host_group_by_name: the first host group with that label, else NotFound. */
    function GetHostGroupByName(name: string): (r: Result<HostGroup, Error>)
      reads this
      ensures r.Ok? ==> r.value in hostGroups && r.value.name == name
      ensures r.Err? ==> r.error == NotFound && forall g :: g in hostGroups ==> g.name != name
    {
      match FirstWhere(hostGroups, (g: HostGroup) => g.name == name)
      case Some(i) => Ok(hostGroups[i])
      case None => Err(NotFound)
    }

    /** get_host_group: the host group with that reference, else NotFound. */
    function GetHostGroup(clusterRef: Ref): (r: Result<HostGroup, Error>)
      reads this
      ensures r.Ok? ==> r.value in hostGroups && r.value.clusterRef == clusterRef
      ensures r.Err? ==> r.error == NotFound && forall g :: g in hostGroups ==> g.clusterRef != clusterRef
    {
      match FirstWhere(hostGroups, (g: HostGroup) => g.clusterRef == clusterRef)
      case Some(i) => Ok(hostGroups[i])
      case None => Err(NotFound)
    }

    /** get_host: the host with that reference, else NotFound. */
    function GetHost(hostRef: Ref): (r: Result<Host, Error>)
      reads this
      ensures r.Ok? ==> r.value in hosts && r.value.hostRef == hostRef
      ensures r.Err? ==> r.error == NotFound && forall h :: h in hosts ==> h.hostRef != hostRef
    {
      match FirstWhere(hosts, (h: Host) => h.hostRef == hostRef)
      case Some(i) => Ok(hosts[i])
      case None => Err(NotFound)
    }

    /** create_volume_mapping: a new mapping, with the reference `givenRef` the array gives it. */
    method CreateVolumeMapping(volumeRef: Ref, mapRef: Ref, lun: int, givenRef: Ref) returns (m: Mapping)
      modifies this
      ensures m == Mapping(mapRef, volumeRef, lun, givenRef)
      ensures mappingList == Some(old(Mappings()) + [m])
      ensures hosts == old(hosts) && hostGroups == old(hostGroups)
    {
      m := Mapping(mapRef, volumeRef, lun, givenRef);
      mappingList := Some(Mappings() + [m]);
    }

    /** set_host_group_for_host. */
    method SetHostGroupForHost(hostRef: Ref, clusterRef: Ref)
      modifies this
      ensures hosts == WithCluster(old(hosts), hostRef, clusterRef)
      ensures mappingList == old(mappingList) && hostGroups == old(hostGroups)
    {
      hosts := WithCluster(hosts, hostRef, clusterRef);
    }

    /**
     * move_volume_mapping_via_symbol: move mapping `lunMappingRef` to host or
     * host group `toRef` at `lun`; refused when there is no such mapping.
     */
    method MoveVolumeMappingViaSymbol(lunMappingRef: Ref, toRef: Ref, lun: int) returns (r: Result<Mapping, Error>)
      modifies this
      ensures r.Err? <==> !HasLunMapping(old(Mappings()), lunMappingRef)
      ensures r.Err? ==> r.error == MappingNotMoved && unchanged(this)
      ensures r.Ok? ==> mappingList == Some(Moved(old(Mappings()), lunMappingRef, toRef, lun))
                        && r.value.lunMappingRef == lunMappingRef
                        && r.value.mapRef == toRef && r.value.lun == lun
                        && r.value in Mappings()
      ensures hosts == old(hosts) && hostGroups == old(hostGroups)
    {
      var ms := Mappings();
      match FirstWhere(ms, (m: Mapping) => m.lunMappingRef == lunMappingRef)
      case None =>
        r := Err(MappingNotMoved);
      case Some(i) =>
        mappingList := Some(Moved(ms, lunMappingRef, toRef, lun));
        r := Ok(ms[i].(mapRef := toRef, lun := lun));
        assert Mappings()[i] == r.value;
    }

    /** delete_volume_mapping. */
    method DeleteVolumeMapping(lunMappingRef: Ref)
      modifies this
      ensures mappingList == Some(Without(old(Mappings()), lunMappingRef))
      ensures hosts == old(hosts) && hostGroups == old(hostGroups)
    {
      mappingList := Some(Without(Mappings(), lunMappingRef));
    }
  }
}
