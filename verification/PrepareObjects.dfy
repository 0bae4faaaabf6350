/**
 * Preparation of source objects for the destination: fields are dropped,
 * translated or reset. Objects are dictionaries from keys to values.
 */
module PrepareObjects {
  import opened Options

  /** The keys that are looked at; any other key is only kept or dropped. */
  datatype Key =
    | Id | Name | Description | ProjectId | AzHints | QosPolicy
    | NetworkType | SegmentationId | PhysicalNetwork | VlanTransparent | External | IsDefault | Vni
    | IpVersion | Ipv6AddressMode | Ipv6RaMode
    | AllowedAddressPairs | MacLearning | PortSecurity | SecurityGroups | VifId | DeviceId | DeviceOwner
    | Other(name: string)

  datatype Value = Null | Bool(b: bool) | Str(s: string) | Int(i: int) | List(items: seq<Value>)

  type Object = map<Key, Value>

  /** Names of the fields that are always dropped. */
  const BASIC := {"updated_at", "created_at", "tags", "revision", "revision_number"}
  const DROP_NETWORK := BASIC + {"status", "subnets", "availability_zones", "ipv4_address_scope", "ipv6_address_scope", "mtu"}
  const DROP_SUBNET := BASIC + {"advanced_service_providers", "service_types"}
  const DROP_PORT := BASIC + {"status", "binding:vif_details", "binding:vif_type", "binding:host_id", "vnic_index",
                              "dns_assignment", "resource_request"}
  const DROP_ROUTER := BASIC + {"status", "routes", "ha", "external_gateway_info", "router_type", "availability_zones",
                                "distributed", "flavor_id"}
  const INTERNAL_TENANT_ID := "metadata_internal_project"

  predicate Truthy(v: Value) {
    match v
    case Null => false
    case Bool(b) => b
    case Str(s) => s != ""
    case Int(i) => i != 0
    case List(items) => items != []
  }

  /** `body.get(key)` used as a condition. */
  predicate Set(b: Object, k: Key) {
    k in b && Truthy(b[k])
  }

  // --------------------------------------------------------- shared steps

  function FixDescription(o: Object): Object {
    if Description in o && o[Description] == Null then o[Description := Str("")] else o
  }

  predicate Named(k: Key, names: set<string>) {
    k.Other? && k.name in names
  }

  function Drop(o: Object, names: set<string>): Object {
    map k | k in o && !Named(k, names) :: o[k]
  }

  function DropNull(b: Object, k: Key): Object {
    if k in b && b[k] == Null then b - {k} else b
  }

  /** Only the first hint counts, and only if the destination has that zone. */
  function Hints(b: Object, azs: seq<Value>, direct: bool): Object {
    if azs != [] then
      if Set(b, AzHints) && b[AzHints].List? && b[AzHints].items[0] !in azs then b[AzHints := List([])] else b
    else if direct then b[AzHints := List([])]
    else b
  }

  /** The two objects have the same fields, but for the keys in `except`. */
  ghost predicate Same(b: Object, c: Object, except: set<Key>) {
    forall k :: k !in except ==> (k in b <==> k in c) && (k in b ==> b[k] == c[k])
  }

  predicate NotNull(b: Object, k: Key) {
    k in b ==> b[k] != Null
  }

  /** Nothing to drop and no missing description. */
  ghost predicate Clean(b: Object, names: set<string>) {
    (forall k :: k in b ==> !Named(k, names)) && NotNull(b, Description)
  }

  predicate HintsReady(b: Object, azs: seq<Value>, direct: bool) {
    if azs != [] then !(Set(b, AzHints) && b[AzHints].List? && b[AzHints].items[0] !in azs)
    else direct ==> AzHints in b && b[AzHints] == List([])
  }

  /** Dropping and describing leave a clean object, and only clean ones alone. */
  lemma {:induction false} CleanStep(o: Object, names: set<string>)
    ensures var r := Drop(FixDescription(o), names);
            Clean(r, names) && (Id in o ==> Id in r) && (Clean(o, names) ==> r == o)
  {
    if Clean(o, names) {
      assert FixDescription(o) == o && Drop(o, names) == o;
    }
  }

  /** The copy has all fields but those named, and a missing description is the
      empty one. */
  lemma {:induction false} CopyMeans(o: Object, names: set<string>, k: Key)
    ensures var r := Drop(FixDescription(o), names);
            && (k in r <==> k in o && !(k.Other? && k.name in names))
            && (k in r ==> r[k] == if k == Description && o[k] == Null then Str("") else o[k])
    ensures FixDescription(o).Keys == o.Keys && (k in o ==> FixDescription(o)[k] == if k == Description && o[k] == Null then Str("") else o[k])
  {
  }

  /** Zone hints survive if the destination has zones and the first hint is one of
      them, and are emptied if it is not, or in a direct call without zones. */
  lemma {:induction false} HintsMean(b: Object, azs: seq<Value>, direct: bool)
    ensures var r := Hints(b, azs, direct);
            var unknown := AzHints in b && b[AzHints].List? && b[AzHints].items != [] && b[AzHints].items[0] !in azs;
            var emptied := if azs == [] then direct else unknown;
            && (emptied ==> AzHints in r && r[AzHints] == List([]))
            && (!emptied ==> r == b)
            && Same(b, r, {AzHints})
  {
  }

  lemma {:induction false} SameClean(b: Object, c: Object, except: set<Key>, names: set<string>)
    requires Same(b, c, except) && (forall k :: k in except ==> !k.Other? && k != Description && k != Id) && Clean(b, names)
    ensures Clean(c, names) && (Id in b ==> Id in c)
  {
  }

  lemma {:induction false} HintsStep(b: Object, azs: seq<Value>, direct: bool)
    ensures var r := Hints(b, azs, direct);
            HintsReady(r, azs, direct) && Same(b, r, {AzHints}) && (HintsReady(b, azs, direct) ==> r == b)
  {
  }

  // ------------------------------------------------------------- network

  datatype NetworkArgs = NetworkArgs(defaultPublic: bool, removeQos: bool, azs: seq<Value>, direct: bool,
                                     extNets: map<Value, string>, vnis: map<Value, int>)

  function WithoutNulls(b: Object): Object {
    DropNull(DropNull(DropNull(b, PhysicalNetwork), SegmentationId), VlanTransparent)
  }

  /** The provider fields of vxlan, flat and vlan networks. */
  function Provider(b: Object): Object {
    var b1 := if NetworkType in b && b[NetworkType] == Str("vxlan") && SegmentationId in b && b[SegmentationId] != Null
              then b - {NetworkType, SegmentationId, PhysicalNetwork} else b;
    var b2 := if NetworkType in b1 && b1[NetworkType] == Str("flat")
              then b1 - {NetworkType, PhysicalNetwork, SegmentationId} else b1;
    if NetworkType in b2 && b2[NetworkType] == Str("vlan") then b2 - {PhysicalNetwork} else b2
  }

  function ExternalFields(b: Object, a: NetworkArgs): Object
    requires Id in b
  {
    if !Set(b, External) then b else
    var b1 := b - {NetworkType, SegmentationId, PhysicalNetwork};
    var b2 := if b[Id] in a.extNets then b1[PhysicalNetwork := Str(a.extNets[b[Id]])] else b1;
    if Set(b2, IsDefault) && a.defaultPublic then b2[IsDefault := Bool(false)] else b2
  }

  predicate IsInterEdge(b: Object) {
    && ProjectId in b && b[ProjectId] == Str(INTERNAL_TENANT_ID)
    && Name in b && b[Name].Str? && "inter-edge-net" <= b[Name].s
  }

  function WithVni(b: Object, a: NetworkArgs): Object
    requires Id in b
  {
    if b[Id] in a.vnis then b[Vni := Int(a.vnis[b[Id]])] else b
  }

  function Renamed(b: Object): Object {
    if IsInterEdge(b) then b[Name := Str("Internal network for mdproxy migration")] else b
  }

  function WithoutQos(b: Object, removeQos: bool): Object {
    if removeQos then b - {QosPolicy} else b
  }

  function NetworkBody(net: Object, a: NetworkArgs, names: set<string> := DROP_NETWORK): Object
    requires Id in net
  {
    var clean := WithoutQos(Drop(FixDescription(net), names), a.removeQos);
    var typed := Provider(WithoutNulls(clean));
    Renamed(WithVni(Hints(ExternalFields(typed, a), a.azs, a.direct), a))
  }

  predicate NullsReady(b: Object) {
    NotNull(b, PhysicalNetwork) && NotNull(b, SegmentationId) && NotNull(b, VlanTransparent)
  }

  predicate ProviderReady(b: Object) {
    NetworkType in b ==>
      && b[NetworkType] != Str("flat")
      && (b[NetworkType] == Str("vxlan") ==> SegmentationId !in b)
      && (b[NetworkType] == Str("vlan") ==> PhysicalNetwork !in b)
  }

  /** An external network has no provider type and no segmentation id, and a
      physical network exactly if the map names one for it. */
  predicate ExternalReady(b: Object, a: NetworkArgs)
    requires Id in b
  {
    Set(b, External) ==>
      && NetworkType !in b && SegmentationId !in b
      && (PhysicalNetwork in b <==> b[Id] in a.extNets)
      && (PhysicalNetwork in b ==> b[PhysicalNetwork] == Str(a.extNets[b[Id]]))
      && !(Set(b, IsDefault) && a.defaultPublic)
  }

  predicate VniReady(b: Object, a: NetworkArgs)
    requires Id in b
  {
    b[Id] in a.vnis ==> Vni in b && b[Vni] == Int(a.vnis[b[Id]])
  }

  /** What the destination can take as it is. */
  ghost predicate NetworkReady(b: Object, a: NetworkArgs, names: set<string> := DROP_NETWORK)
    requires Id in b
  {
    && Clean(b, names) && (a.removeQos ==> QosPolicy !in b) && NullsReady(b) && ProviderReady(b)
    && ExternalReady(b, a) && HintsReady(b, a.azs, a.direct) && VniReady(b, a) && !IsInterEdge(b)
  }

  lemma {:induction false} NullsStep(b: Object)
    ensures var r := WithoutNulls(b);
            NullsReady(r) && Same(b, r, {PhysicalNetwork, SegmentationId, VlanTransparent}) && (NullsReady(b) ==> r == b)
  {
  }

  lemma {:induction false} ProviderStep(b: Object)
    requires NullsReady(b)
    ensures var r := Provider(b);
            && NullsReady(r) && ProviderReady(r)
            && Same(b, r, {NetworkType, PhysicalNetwork, SegmentationId}) && (ProviderReady(b) ==> r == b)
  {
  }

  lemma {:induction false} ExternalStep(b: Object, a: NetworkArgs)
    requires Id in b && NullsReady(b) && ProviderReady(b)
    ensures var r := ExternalFields(b, a);
            && Same(b, r, {NetworkType, PhysicalNetwork, SegmentationId, IsDefault})
            && Id in r && NullsReady(r) && ProviderReady(r) && ExternalReady(r, a) && (ExternalReady(b, a) ==> r == b)
  {
  }

  lemma {:induction false} RenameStep(b: Object)
    ensures var r := Renamed(b); !IsInterEdge(r) && Same(b, r, {Name}) && (!IsInterEdge(b) ==> r == b)
  {
    assert "inter-edge-net"[0] != "Internal network for mdproxy migration"[0];
  }

  /** The provider fields: a vxlan network with an id and a flat one lose all three,
      a vlan loses its physical network, any other keeps them. */
  lemma {:induction false} ProviderMeans(b: Object)
    ensures var r := Provider(b);
            var typed := if NetworkType in b then b[NetworkType] else Null;
            var bare := (typed == Str("vxlan") && SegmentationId in b && b[SegmentationId] != Null) || typed == Str("flat");
            && Same(b, r, {NetworkType, SegmentationId, PhysicalNetwork})
            && (bare ==> NetworkType !in r && SegmentationId !in r && PhysicalNetwork !in r)
            && (!bare && typed == Str("vlan") ==> r == b - {PhysicalNetwork})
            && (!bare && typed != Str("vlan") ==> r == b)
  {
  }

  /** A public network is not the default one if the destination has one. */
  lemma {:induction false} ExternalMeans(b: Object, a: NetworkArgs)
    requires Id in b
    ensures var r := ExternalFields(b, a);
            if External in b && Truthy(b[External]) then
              && Same(b, r, {NetworkType, SegmentationId, PhysicalNetwork, IsDefault})
              && NetworkType !in r && SegmentationId !in r
              && (PhysicalNetwork in r <==> b[Id] in a.extNets) && (PhysicalNetwork in r ==> r[PhysicalNetwork] == Str(a.extNets[b[Id]]))
              && (IsDefault in r <==> IsDefault in b)
              && (IsDefault in r ==> r[IsDefault] == if a.defaultPublic && Truthy(b[IsDefault]) then Bool(false) else b[IsDefault])
            else r == b
  {
  }

  /** A change of fields that a part does not look at leaves that part. */
  lemma {:induction false} SameReady(b: Object, c: Object, except: set<Key>, a: NetworkArgs)
    requires Same(b, c, except) && Id in b && Id in c && except <= {QosPolicy, AzHints, Vni, Name}
    ensures NullsReady(b) == NullsReady(c) && ProviderReady(b) == ProviderReady(c) && ExternalReady(b, a) == ExternalReady(c, a)
    ensures AzHints !in except ==> HintsReady(b, a.azs, a.direct) == HintsReady(c, a.azs, a.direct)
    ensures Vni !in except ==> VniReady(b, a) == VniReady(c, a)
  {
  }

  lemma {:induction false} QosStep(b: Object, removeQos: bool)
    ensures var r := WithoutQos(b, removeQos);
            Same(b, r, {QosPolicy}) && (removeQos ==> QosPolicy !in r) && ((removeQos ==> QosPolicy !in b) ==> r == b)
  {
  }

  lemma {:induction false} VniStep(b: Object, a: NetworkArgs)
    requires Id in b
    ensures var r := WithVni(b, a); Id in r && Same(b, r, {Vni}) && VniReady(r, a) && (VniReady(b, a) ==> r == b)
  {
  }

  lemma {:induction false} SameQos(b: Object, c: Object, except: set<Key>)
    requires Same(b, c, except) && QosPolicy !in except
    ensures QosPolicy in b <==> QosPolicy in c
  {
  }

  /** The steps up to the provider fields. */
  lemma {:induction false} FirstSteps(net: Object, a: NetworkArgs, names: set<string>) returns (r: Object)
    requires Id in net
    ensures r == Provider(WithoutNulls(WithoutQos(Drop(FixDescription(net), names), a.removeQos)))
    ensures Id in r && Clean(r, names) && (a.removeQos ==> QosPolicy !in r) && NullsReady(r) && ProviderReady(r)
    ensures NetworkReady(net, a, names) ==> r == net
  {
    hide Drop, FixDescription, WithoutQos, WithoutNulls, Provider, Clean, NullsReady, ProviderReady, ExternalReady, HintsReady, Same;
    var b0 := Drop(FixDescription(net), names);
    CleanStep(net, names);
    var b1 := WithoutQos(b0, a.removeQos);
    QosStep(b0, a.removeQos);
    SameClean(b0, b1, {QosPolicy}, names);
    var b2 := WithoutNulls(b1);
    NullsStep(b1);
    SameClean(b1, b2, {PhysicalNetwork, SegmentationId, VlanTransparent}, names);
    SameQos(b1, b2, {PhysicalNetwork, SegmentationId, VlanTransparent});
    r := Provider(b2);
    ProviderStep(b2);
    SameClean(b2, r, {NetworkType, PhysicalNetwork, SegmentationId}, names);
    SameQos(b2, r, {NetworkType, PhysicalNetwork, SegmentationId});
  }

  /** The steps after the external fields. */
  lemma {:induction false} LastSteps(b: Object, a: NetworkArgs, names: set<string>) returns (r: Object)
    requires Id in b && Clean(b, names) && (a.removeQos ==> QosPolicy !in b)
    requires NullsReady(b) && ProviderReady(b) && ExternalReady(b, a)
    ensures r == Renamed(WithVni(Hints(b, a.azs, a.direct), a))
    ensures Id in r && NetworkReady(r, a, names) && (NetworkReady(b, a, names) ==> r == b)
  {
    hide Hints, WithVni, Renamed, Clean, NullsReady, ProviderReady, ExternalReady, HintsReady, VniReady, IsInterEdge, Same;
    var b5 := Hints(b, a.azs, a.direct);
    HintsStep(b, a.azs, a.direct);
    SameClean(b, b5, {AzHints}, names);
    SameQos(b, b5, {AzHints});
    SameReady(b, b5, {AzHints}, a);
    var b6 := WithVni(b5, a);
    VniStep(b5, a);
    SameClean(b5, b6, {Vni}, names);
    SameQos(b5, b6, {Vni});
    SameReady(b5, b6, {Vni}, a);
    r := Renamed(b6);
    RenameStep(b6);
    SameClean(b6, r, {Name}, names);
    SameQos(b6, r, {Name});
    SameReady(b6, r, {Name}, a);
  }

  /** Preparation makes a network ready, and leaves alone what is ready. */
  lemma {:induction false} NetworkBodyReady(net: Object, a: NetworkArgs, names: set<string>)
    requires Id in net
    ensures var r := NetworkBody(net, a, names); Id in r && NetworkReady(r, a, names) && (NetworkReady(net, a, names) ==> r == net)
  {
    hide Drop, FixDescription, WithoutQos, WithoutNulls, Provider, ExternalFields, Hints, WithVni, Renamed;
    hide Clean, NullsReady, ProviderReady, HintsReady, VniReady, IsInterEdge, Same, ExternalReady;
    var b3 := FirstSteps(net, a, names);
    var b4 := ExternalFields(b3, a);
    ExternalStep(b3, a);
    SameClean(b3, b4, {NetworkType, PhysicalNetwork, SegmentationId, IsDefault}, names);
    SameQos(b3, b4, {NetworkType, PhysicalNetwork, SegmentationId, IsDefault});
    var r := LastSteps(b4, a, names);
  }

  /** Preparing twice is preparing once; an object is left alone exactly if it
      is ready. */
  lemma {:induction false} NetworkIdempotent(net: Object, a: NetworkArgs)
    requires Id in net
    ensures NetworkBody(net, a) == net <==> NetworkReady(net, a)
    ensures Id in NetworkBody(net, a) && NetworkBody(NetworkBody(net, a), a) == NetworkBody(net, a)
  {
    hide NetworkBody, NetworkReady;
    NetworkBodyReady(net, a, DROP_NETWORK);
    NetworkBodyReady(NetworkBody(net, a), a, DROP_NETWORK);
  }

  /** What preparation does to an external network. */
  lemma {:induction false} ExternalNetworkFields(net: Object, a: NetworkArgs)
    requires Id in net && Set(NetworkBody(net, a), External)
    ensures var r := NetworkBody(net, a);
            && NetworkType !in r && SegmentationId !in r && Id in r
            && (PhysicalNetwork in r <==> r[Id] in a.extNets)
            && (PhysicalNetwork in r ==> r[PhysicalNetwork] == Str(a.extNets[r[Id]]))
  {
    hide NetworkBody;
    NetworkBodyReady(net, a, DROP_NETWORK);
  }

  /** The network has a type that the destination does not take. */
  predicate Retyped(b: Object) {
    && NetworkType in b
    && (b[NetworkType] == Str("flat") || (b[NetworkType] == Str("vxlan") && SegmentationId in b && b[SegmentationId] != Null))
  }

  function Get(b: Object, k: Key): Option<Value> {
    if k in b then Some(b[k]) else None
  }

  predicate IsProvider(k: Key) {
    k == NetworkType || k == SegmentationId || k == PhysicalNetwork || k == VlanTransparent || k == IsDefault
  }

  /** The provider fields that a network should have: those of an external one are
      replaced, those of a vxlan network with an id and of a flat one dropped, and
      of a vlan only the physical network. */
  function ProviderField(b: Object, a: NetworkArgs, k: Key): Option<Value>
    requires Id in b
  {
    var ext := External in b && Truthy(b[External]);
    if k == PhysicalNetwork && ext then (if b[Id] in a.extNets then Some(Str(a.extNets[b[Id]])) else None)
    else if k !in b then None
    else if k == IsDefault then Some(if ext && a.defaultPublic && Truthy(b[k]) then Bool(false) else b[k])
    else if k == VlanTransparent then (if b[k] == Null then None else Some(b[k]))
    else if ext || Retyped(b) then None
    else if k == NetworkType then Some(b[k])
    else if b[k] == Null then None
    else if k == PhysicalNetwork && NetworkType in b && b[NetworkType] == Str("vlan") then None
    else Some(b[k])
  }

  lemma {:induction false} TypedFields(b: Object, a: NetworkArgs, k: Key)
    requires Id in b
    ensures Get(ExternalFields(Provider(WithoutNulls(b)), a), k) == if IsProvider(k) then ProviderField(b, a, k) else Get(b, k)
  {
    var w := WithoutNulls(b);
    var p := Provider(w);
    NullsMean(b, k);
    NullsMean(b, Id);
    NullsMean(b, External);
    NullsMean(b, NetworkType);
    NullsMean(b, SegmentationId);
    NullsMean(b, PhysicalNetwork);
    ProviderMeans(w);
    hide WithoutNulls, Provider;
    assert Id in p && p[Id] == b[Id] && Set(p, External) == Set(b, External);
    ExternalMeans(p, a);
  }

  lemma {:induction false} NullsMean(b: Object, k: Key)
    ensures var r := WithoutNulls(b);
            && (k in r <==> k in b && !(k in {PhysicalNetwork, SegmentationId, VlanTransparent} && b[k] == Null))
            && (k in r ==> r[k] == b[k])
  {
  }

  /** Hints of zones that the destination does not have are emptied, a VNI comes
      from the map, and an internal network is renamed. */
  function LastField(b: Object, a: NetworkArgs, k: Key): Option<Value>
    requires Id in b
  {
    if k == AzHints then HintsField(b, a.azs, a.direct)
    else if k == Vni && b[Id] in a.vnis then Some(Int(a.vnis[b[Id]]))
    else if k == Name then NewName(Get(b, Name), Get(b, ProjectId))
    else Get(b, k)
  }

  /** A name that begins like this is replaced in the project of the metadata
      proxies. */
  function NewName(name: Option<Value>, project: Option<Value>): Option<Value> {
    if name.Some? && name.value.Str? && "inter-edge-net" <= name.value.s && project == Some(Str("metadata_internal_project"))
    then Some(Str("Internal network for mdproxy migration")) else name
  }

  function HintsField(b: Object, azs: seq<Value>, direct: bool): Option<Value> {
    if azs == [] then (if direct then Some(List([])) else Get(b, AzHints))
    else if AzHints in b && b[AzHints].List? && b[AzHints].items != [] && b[AzHints].items[0] !in azs then Some(List([]))
    else Get(b, AzHints)
  }

  lemma {:induction false} HintedField(b: Object, azs: seq<Value>, direct: bool, k: Key)
    ensures Get(Hints(b, azs, direct), k) == if k == AzHints then HintsField(b, azs, direct) else Get(b, k)
  {
    HintsMean(b, azs, direct);
    hide Hints;
  }

  lemma {:induction false} RenamedField(b: Object, k: Key)
    ensures Get(Renamed(b), k) ==
            if k == Name then NewName(Get(b, Name), Get(b, ProjectId)) else Get(b, k)
  {
  }

  lemma {:induction false} NumberedField(b: Object, a: NetworkArgs, k: Key)
    requires Id in b
    ensures Get(WithVni(b, a), k) == if k == Vni && b[Id] in a.vnis then Some(Int(a.vnis[b[Id]])) else Get(b, k)
  {
  }

  lemma {:induction false} LastFields(b: Object, a: NetworkArgs, k: Key)
    requires Id in b
    ensures Get(Renamed(WithVni(Hints(b, a.azs, a.direct), a)), k) == LastField(b, a, k)
  {
    hide Hints, WithVni, Renamed, HintsField, NewName;
    var h := Hints(b, a.azs, a.direct);
    HintedField(b, a.azs, a.direct, Id);
    HintedField(b, a.azs, a.direct, k);
    NumberedField(h, a, k);
    if k == Name {
      HintedField(b, a.azs, a.direct, ProjectId);
      NumberedField(h, a, ProjectId);
    }
    RenamedField(WithVni(h, a), k);
  }

  /** The copy: a dropped field is none, and a missing description is empty. */
  function CopiedField(o: Object, names: set<string>, removeQos: bool, k: Key): Option<Value> {
    if k !in o || (k.Other? && k.name in names) || (k == QosPolicy && removeQos) then None
    else if k == Description && o[k] == Null then Some(Str("")) else Some(o[k])
  }

  lemma {:induction false} CleanCopy(o: Object, names: set<string>, removeQos: bool, k: Key)
    ensures Get(WithoutQos(Drop(FixDescription(o), names), removeQos), k) == CopiedField(o, names, removeQos, k)
  {
    CopyMeans(o, names, k);
    hide Drop, FixDescription;
  }

  predicate IsLast(k: Key) {
    k == AzHints || k == Vni || k == Name
  }

  /** The fields that the preparation looks at are copied as they are. */
  lemma {:induction false} KeptCopy(o: Object, names: set<string>, removeQos: bool, k: Key)
    requires !k.Other? && k != QosPolicy && k != Description
    ensures Get(WithoutQos(Drop(FixDescription(o), names), removeQos), k) == Get(o, k)
  {
    CleanCopy(o, names, removeQos, k);
    hide WithoutQos, Drop, FixDescription;
  }

  lemma {:induction false} SameField(b: Object, c: Object, a: NetworkArgs, k: Key)
    requires Id in b && Id in c && Get(c, Id) == Get(b, Id) && Get(c, External) == Get(b, External) && Get(c, k) == Get(b, k)
    requires Get(c, NetworkType) == Get(b, NetworkType) && Get(c, SegmentationId) == Get(b, SegmentationId)
    ensures ProviderField(b, a, k) == ProviderField(c, a, k)
  {
  }

  lemma {:induction false} SameLast(b: Object, c: Object, a: NetworkArgs, k: Key)
    requires Id in b && Id in c && Get(b, Id) == Get(c, Id) && Get(b, ProjectId) == Get(c, ProjectId) && Get(b, k) == Get(c, k)
    ensures LastField(b, a, k) == LastField(c, a, k)
  {
  }

  /** The copy: the field asked for, and those that the preparation looks at. */
  lemma {:induction false} CopyStage(o: Object, names: set<string>, removeQos: bool, k: Key) returns (c: Object)
    requires Id in o
    ensures c == WithoutQos(Drop(FixDescription(o), names), removeQos) && Id in c && c[Id] == o[Id]
    ensures Get(c, k) == CopiedField(o, names, removeQos, k)
    ensures forall j: Key :: !j.Other? && j != QosPolicy && j != Description ==> Get(c, j) == Get(o, j)
  {
    c := WithoutQos(Drop(FixDescription(o), names), removeQos);
    CleanCopy(o, names, removeQos, k);
    KeptCopy(o, names, removeQos, Id);
    Present(o, c, Id);
    hide WithoutQos, Drop, FixDescription, CopiedField, Get;
    forall j: Key | !j.Other? && j != QosPolicy && j != Description ensures Get(c, j) == Get(o, j) {
      KeptCopy(o, names, removeQos, j);
    }
  }

  /** The object after the copy and after the external fields. */
  lemma {:induction false} NetworkStages(net: Object, a: NetworkArgs, k: Key) returns (c: Object, e: Object)
    requires Id in net
    ensures Id in c && Id in e && Get(c, Id) == Get(net, Id) && Get(e, Id) == Get(net, Id)
    ensures Get(c, k) == CopiedField(net, DROP_NETWORK, a.removeQos, k)
    ensures Get(e, k) == if IsProvider(k) then ProviderField(c, a, k) else Get(c, k)
    ensures Get(c, External) == Get(net, External) && Get(c, NetworkType) == Get(net, NetworkType)
    ensures Get(c, SegmentationId) == Get(net, SegmentationId) && Get(e, ProjectId) == Get(net, ProjectId)
    ensures NetworkBody(net, a) == Renamed(WithVni(Hints(e, a.azs, a.direct), a))
  {
    hide WithoutQos, Drop, FixDescription, WithoutNulls, Provider, ExternalFields, Hints, WithVni, Renamed, ProviderField, CopiedField, Get;
    c := CopyStage(net, DROP_NETWORK, a.removeQos, k);
    IdStays(c);
    e := ExternalFields(Provider(WithoutNulls(c)), a);
    TypedFields(c, a, k);
    TypedFields(c, a, Id);
    TypedFields(c, a, ProjectId);
    Present(c, e, Id);
  }

  lemma {:induction false} IdStays(b: Object)
    requires Id in b
    ensures Id in Provider(WithoutNulls(b))
  {
  }

  lemma {:induction false} Present(b: Object, c: Object, k: Key)
    requires k in b
    ensures Get(c, k) == Get(b, k) ==> k in c && c[k] == b[k]
  {
  }

  lemma {:induction false} CopiedAsIs(o: Object, names: set<string>, removeQos: bool, k: Key)
    requires !k.Other? && k != QosPolicy && k != Description
    ensures CopiedField(o, names, removeQos, k) == Get(o, k)
  {
  }

  lemma {:induction false} OtherField(b: Object, a: NetworkArgs, k: Key)
    requires Id in b && !IsLast(k)
    ensures LastField(b, a, k) == Get(b, k)
  {
  }

  /** A prepared network, field by field, in terms of the source's network. */
  lemma {:induction false} NetworkFields(net: Object, a: NetworkArgs, k: Key)
    requires Id in net
    ensures Get(NetworkBody(net, a), k) ==
            if IsProvider(k) then ProviderField(net, a, k)
            else if IsLast(k) then LastField(net, a, k)
            else CopiedField(net, DROP_NETWORK, a.removeQos, k)
  {
    hide NetworkBody, Renamed, WithVni, Hints, ProviderField, LastField, CopiedField, Get;
    var c, e := NetworkStages(net, a, k);
    LastFields(e, a, k);
    if IsProvider(k) {
      CopiedAsIs(net, DROP_NETWORK, a.removeQos, k);
      SameField(net, c, a, k);
      OtherField(e, a, k);
    } else if IsLast(k) {
      CopiedAsIs(net, DROP_NETWORK, a.removeQos, k);
      SameLast(net, e, a, k);
    } else {
      OtherField(e, a, k);
    }
  }

  // -------------------------------------------------------------- subnet

  function Ipv6Modes(b: Object): Object {
    if IpVersion in b && b[IpVersion] == Int(4) then b - {Ipv6AddressMode, Ipv6RaMode}
    else DropNull(DropNull(b, Ipv6AddressMode), Ipv6RaMode)
  }

  function SubnetBody(subnet: Object): Object {
    Ipv6Modes(Drop(FixDescription(subnet), DROP_SUBNET))
  }

  predicate Ipv6Ready(b: Object) {
    if IpVersion in b && b[IpVersion] == Int(4) then Ipv6AddressMode !in b && Ipv6RaMode !in b
    else NotNull(b, Ipv6AddressMode) && NotNull(b, Ipv6RaMode)
  }

  lemma {:induction false} Ipv6Step(b: Object)
    ensures var r := Ipv6Modes(b); Same(b, r, {Ipv6AddressMode, Ipv6RaMode}) && Ipv6Ready(r) && (Ipv6Ready(b) ==> r == b)
  {
  }

  /** An IPv4 subnet has no IPv6 modes, any other only those that are set. */
  lemma {:induction false} Ipv6Means(b: Object, k: Key)
    ensures var r := Ipv6Modes(b);
            var dropped := k in {Ipv6AddressMode, Ipv6RaMode} && k in b && ((IpVersion in b && b[IpVersion] == Int(4)) || b[k] == Null);
            (k in r <==> k in b && !dropped) && (k in r ==> r[k] == b[k])
  {
  }

  lemma {:induction false} SubnetIdempotent(subnet: Object)
    ensures SubnetBody(SubnetBody(subnet)) == SubnetBody(subnet) && Ipv6Ready(SubnetBody(subnet))
  {
    hide Drop, FixDescription, Ipv6Modes, Ipv6Ready, Clean, Same;
    var clean, body := Drop(FixDescription(subnet), DROP_SUBNET), SubnetBody(subnet);
    CleanStep(subnet, DROP_SUBNET);
    Ipv6Step(clean);
    SameClean(clean, body, {Ipv6AddressMode, Ipv6RaMode}, DROP_SUBNET);
    CleanStep(body, DROP_SUBNET);
    Ipv6Step(body);
  }

  lemma {:induction false} SubnetFields(subnet: Object, k: Key)
    ensures var isV4, mode := Get(subnet, IpVersion) == Some(Int(4)), k in {Ipv6AddressMode, Ipv6RaMode};
            Get(SubnetBody(subnet), k) ==
            if mode && (isV4 || Get(subnet, k) == Some(Null)) then None else CopiedField(subnet, DROP_SUBNET, false, k)
  {
    var c := Drop(FixDescription(subnet), DROP_SUBNET);
    CopyMeans(subnet, DROP_SUBNET, k);
    CopyMeans(subnet, DROP_SUBNET, IpVersion);
    hide Drop, FixDescription;
    Ipv6Means(c, k);
  }

  // -------------------------------------------------------------- router

  function RouterBody(router: Object, azs: seq<Value>, direct: bool): Object {
    Hints(Drop(FixDescription(router), DROP_ROUTER), azs, direct)
  }

  lemma {:induction false} RouterFields(router: Object, azs: seq<Value>, direct: bool, k: Key)
    ensures Get(RouterBody(router, azs, direct), k) ==
            if k == AzHints then HintsField(router, azs, direct) else CopiedField(router, DROP_ROUTER, false, k)
  {
    CopyMeans(router, DROP_ROUTER, k);
    hide Drop, FixDescription, Hints;
    HintedField(Drop(FixDescription(router), DROP_ROUTER), azs, direct, k);
  }

  lemma {:induction false} RouterIdempotent(router: Object, azs: seq<Value>, direct: bool)
    ensures RouterBody(RouterBody(router, azs, direct), azs, direct) == RouterBody(router, azs, direct)
    ensures HintsReady(RouterBody(router, azs, direct), azs, direct)
  {
    hide Drop, FixDescription, Hints, HintsReady, Clean, Same;
    var clean, body := Drop(FixDescription(router), DROP_ROUTER), RouterBody(router, azs, direct);
    CleanStep(router, DROP_ROUTER);
    HintsStep(clean, azs, direct);
    SameClean(clean, body, {AzHints}, DROP_ROUTER);
    CleanStep(body, DROP_ROUTER);
    HintsStep(body, azs, direct);
  }

  // ---------------------------------------------------------------- port

  /** `maxPairs` is the number of address pairs the backend can take. */
  datatype PortArgs = PortArgs(removeQos: bool, direct: bool, vifs: map<Value, string>, maxPairs: nat)

  function Pairs(b: Object, maxPairs: nat): Object {
    if AllowedAddressPairs !in b then b
    else if !Truthy(b[AllowedAddressPairs]) then b - {AllowedAddressPairs}
    else if b[AllowedAddressPairs].List? && |b[AllowedAddressPairs].items| > maxPairs then
      b[AllowedAddressPairs := List(b[AllowedAddressPairs].items[..maxPairs])]
    else b
  }

  function Security(b: Object): (r: Object)
    ensures Id in b <==> Id in r
  {
    if Set(b, MacLearning) && Set(b, PortSecurity) then b[PortSecurity := Bool(false)][SecurityGroups := List([])] else b
  }

  function Vif(b: Object, vifs: map<Value, string>): Object
    requires Id in b
  {
    if b[Id] in vifs then b[VifId := Str(vifs[b[Id]])] else b
  }

  function Default(b: Object, k: Key, v: Value): Object {
    if k in b then b else b[k := v]
  }

  function Devices(b: Object, direct: bool): Object {
    if direct then Default(Default(b, DeviceId, Str("")), DeviceOwner, Str("")) else b
  }

  function PortBody(port: Object, a: PortArgs, names: set<string> := DROP_PORT): Object
    requires Id in port
  {
    var clean := WithoutQos(Drop(FixDescription(port), names), a.removeQos);
    Devices(Vif(Security(Pairs(clean, a.maxPairs)), a.vifs), a.direct)
  }

  predicate PairsReady(b: Object, maxPairs: nat) {
    AllowedAddressPairs in b ==>
      Truthy(b[AllowedAddressPairs]) && (b[AllowedAddressPairs].List? ==> |b[AllowedAddressPairs].items| <= maxPairs)
  }

  predicate SecurityReady(b: Object) {
    !(Set(b, MacLearning) && Set(b, PortSecurity))
  }

  predicate VifReady(b: Object, vifs: map<Value, string>)
    requires Id in b
  {
    b[Id] in vifs ==> VifId in b && b[VifId] == Str(vifs[b[Id]])
  }

  predicate DevicesReady(b: Object, direct: bool) {
    direct ==> DeviceId in b && DeviceOwner in b
  }

  /** Ready but for the address pairs. */
  ghost predicate PortReady(b: Object, a: PortArgs, names: set<string>)
    requires Id in b
  {
    && Clean(b, names) && (a.removeQos ==> QosPolicy !in b)
    && SecurityReady(b) && VifReady(b, a.vifs) && DevicesReady(b, a.direct)
  }

  lemma {:induction false} PairsStep(b: Object, maxPairs: nat)
    ensures var r := Pairs(b, maxPairs);
            Same(b, r, {AllowedAddressPairs}) && (maxPairs > 0 ==> PairsReady(r, maxPairs)) && (PairsReady(b, maxPairs) ==> r == b)
  {
  }

  lemma {:induction false} PortSteps(b: Object, a: PortArgs)
    requires Id in b
    ensures var r := Devices(Vif(Security(b), a.vifs), a.direct);
            && Same(b, r, {PortSecurity, SecurityGroups, VifId, DeviceId, DeviceOwner})
            && Id in r && SecurityReady(r) && VifReady(r, a.vifs) && DevicesReady(r, a.direct)
            && (SecurityReady(b) && VifReady(b, a.vifs) && DevicesReady(b, a.direct) ==> r == b)
  {
  }

  lemma {:induction false} SamePort(b: Object, c: Object, a: PortArgs)
    requires Same(b, c, {AllowedAddressPairs}) && Id in b && Id in c
    ensures SecurityReady(b) == SecurityReady(c) && VifReady(b, a.vifs) == VifReady(c, a.vifs) && DevicesReady(b, a.direct) == DevicesReady(c, a.direct)
  {
  }

  lemma {:induction false} SamePairs(b: Object, c: Object, except: set<Key>)
    requires Same(b, c, except) && AllowedAddressPairs !in except
    ensures AllowedAddressPairs in b <==> AllowedAddressPairs in c
    ensures AllowedAddressPairs in b ==> b[AllowedAddressPairs] == c[AllowedAddressPairs]
  {
  }

  /** Up to the address pairs. */
  lemma {:induction false} PortFirst(port: Object, a: PortArgs, names: set<string>) returns (b: Object)
    requires Id in port
    ensures b == Pairs(WithoutQos(Drop(FixDescription(port), names), a.removeQos), a.maxPairs)
    ensures Id in b && Clean(b, names) && (a.removeQos ==> QosPolicy !in b)
    ensures Clean(port, names) && (a.removeQos ==> QosPolicy !in port) ==> b == Pairs(port, a.maxPairs)
  {
    hide Drop, FixDescription, WithoutQos, Pairs, Clean, Same;
    var b0 := Drop(FixDescription(port), names);
    CleanStep(port, names);
    var b1 := WithoutQos(b0, a.removeQos);
    QosStep(b0, a.removeQos);
    SameClean(b0, b1, {QosPolicy}, names);
    b := Pairs(b1, a.maxPairs);
    PairsStep(b1, a.maxPairs);
    SameClean(b1, b, {AllowedAddressPairs}, names);
    SameQos(b1, b, {AllowedAddressPairs});
    SamePort(b1, b, a);
  }

  /** What comes after the address pairs. */
  lemma {:induction false} PortLast(b: Object, a: PortArgs, names: set<string>) returns (r: Object)
    requires Id in b && Clean(b, names) && (a.removeQos ==> QosPolicy !in b)
    ensures r == Devices(Vif(Security(b), a.vifs), a.direct) && Id in r && PortReady(r, a, names)
    ensures SecurityReady(b) && VifReady(b, a.vifs) && DevicesReady(b, a.direct) ==> r == b
  {
    hide Clean, Same, Security, Vif, Devices, SecurityReady, VifReady, DevicesReady;
    PortSteps(b, a);
    r := Devices(Vif(Security(b), a.vifs), a.direct);
    SameClean(b, r, {PortSecurity, SecurityGroups, VifId, DeviceId, DeviceOwner}, names);
    SameQos(b, r, {PortSecurity, SecurityGroups, VifId, DeviceId, DeviceOwner});
  }

  /** A port is ready after preparation; and a port that is ready keeps all but
      its address pairs. */
  lemma {:induction false} PortBodyReady(port: Object, a: PortArgs, names: set<string>)
    requires Id in port
    ensures var r := PortBody(port, a, names);
            Id in r && PortReady(r, a, names) && (PortReady(port, a, names) ==> r == Pairs(port, a.maxPairs))
  {
    hide Drop, FixDescription, WithoutQos, Pairs, Clean, Same, Security, Vif, Devices, SecurityReady, VifReady, DevicesReady;
    var b := PortFirst(port, a, names);
    PairsStep(port, a.maxPairs);
    if b == Pairs(port, a.maxPairs) { SamePort(port, b, a); }
    var r := PortLast(b, a, names);
  }

  /** Of the address pairs the first are kept, as many as the backend takes; MAC
      learning takes port security and the security groups away; a mapped port
      gets its VIF; a direct call fills in what is missing of the device. */
  function PortField(b: Object, a: PortArgs, k: Key): Option<Value>
    requires Id in b
  {
    var learns := Set(b, MacLearning) && Set(b, PortSecurity);
    if k == AllowedAddressPairs then
      if k !in b || !Truthy(b[k]) then None
      else Some(if b[k].List? && |b[k].items| > a.maxPairs then List(b[k].items[..a.maxPairs]) else b[k])
    else if k == PortSecurity && learns then Some(Bool(false))
    else if k == SecurityGroups && learns then Some(List([]))
    else if k == VifId && b[Id] in a.vifs then Some(Str(a.vifs[b[Id]]))
    else if (k == DeviceId || k == DeviceOwner) && k !in b && a.direct then Some(Str(""))
    else Get(b, k)
  }

  predicate IsPortKey(k: Key) {
    || k == AllowedAddressPairs || k == PortSecurity || k == SecurityGroups || k == VifId || k == DeviceId || k == DeviceOwner
  }

  lemma {:induction false} SecurityField(b: Object, k: Key)
    ensures var learns := Set(b, MacLearning) && Set(b, PortSecurity);
            Get(Security(b), k) == if k == PortSecurity && learns then Some(Bool(false))
                                   else if k == SecurityGroups && learns then Some(List([])) else Get(b, k)
  {
  }

  lemma {:induction false} VifField(b: Object, vifs: map<Value, string>, k: Key)
    requires Id in b
    ensures Get(Vif(b, vifs), k) == if k == VifId && b[Id] in vifs then Some(Str(vifs[b[Id]])) else Get(b, k)
  {
  }

  lemma {:induction false} DeviceField(b: Object, direct: bool, k: Key)
    ensures Get(Devices(b, direct), k) == if (k == DeviceId || k == DeviceOwner) && k !in b && direct then Some(Str("")) else Get(b, k)
  {
  }

  lemma {:induction false} LaterFields(b: Object, a: PortArgs, k: Key)
    requires Id in b && k != AllowedAddressPairs
    ensures Get(Devices(Vif(Security(b), a.vifs), a.direct), k) == PortField(b, a, k)
  {
    SecurityField(b, k);
    SecurityField(b, Id);
    VifField(Security(b), a.vifs, k);
    DeviceField(Vif(Security(b), a.vifs), a.direct, k);
    hide Security, Vif, Devices, Set;
  }

  lemma {:induction false} SamePortField(b: Object, c: Object, a: PortArgs, k: Key)
    requires Id in b && Id in c && Get(b, Id) == Get(c, Id) && Get(b, k) == Get(c, k)
    requires Get(b, MacLearning) == Get(c, MacLearning) && Get(b, PortSecurity) == Get(c, PortSecurity)
    ensures PortField(b, a, k) == PortField(c, a, k)
  {
  }

  lemma {:induction false} PairField(b: Object, a: PortArgs, k: Key)
    requires Id in b
    ensures Get(Pairs(b, a.maxPairs), k) == if k == AllowedAddressPairs then PortField(b, a, k) else Get(b, k)
  {
  }

  lemma {:induction false} OtherPortField(b: Object, a: PortArgs, k: Key)
    requires Id in b && !IsPortKey(k)
    ensures PortField(b, a, k) == Get(b, k)
  {
  }

  /** A prepared port, field by field, in terms of the source's port. */
  lemma {:induction false} PortFields(port: Object, a: PortArgs, k: Key)
    requires Id in port
    ensures Get(PortBody(port, a), k) == if IsPortKey(k) then PortField(port, a, k) else CopiedField(port, DROP_PORT, a.removeQos, k)
  {
    hide WithoutQos, Drop, FixDescription, Pairs, Security, Vif, Devices, PortField, CopiedField, Get;
    var c := CopyStage(port, DROP_PORT, a.removeQos, k);
    var b := Pairs(c, a.maxPairs);
    PairField(c, a, k);
    PairField(c, a, Id);
    Present(c, b, Id);
    if k == AllowedAddressPairs {
      PairsLast(b, a);
      SamePortField(port, c, a, k);
    } else {
      LaterFields(b, a, k);
      PairField(c, a, MacLearning);
      PairField(c, a, PortSecurity);
      SamePortField(c, b, a, k);
      if IsPortKey(k) { SamePortField(port, c, a, k); } else { OtherPortField(c, a, k); }
    }
  }

  lemma {:induction false} PairsLast(b: Object, a: PortArgs)
    requires Id in b
    ensures Get(Devices(Vif(Security(b), a.vifs), a.direct), AllowedAddressPairs) == Get(b, AllowedAddressPairs)
  {
    PortSteps(b, a);
    SamePairs(b, Devices(Vif(Security(b), a.vifs), a.direct), {PortSecurity, SecurityGroups, VifId, DeviceId, DeviceOwner});
  }

  /** Only the address pairs can change when a port is prepared again. */
  lemma {:induction false} PortPairs(port: Object, a: PortArgs, names: set<string>)
    requires Id in port && names == DROP_PORT
    ensures var r := PortBody(port, a, names); var once := Pairs(port, a.maxPairs);
            && (AllowedAddressPairs in r <==> AllowedAddressPairs in once)
            && (AllowedAddressPairs in r ==> r[AllowedAddressPairs] == once[AllowedAddressPairs])
  {
    var b1 := WithoutQos(Drop(FixDescription(port), names), a.removeQos);
    PairsCopied(port, a.removeQos, names);
    var b2 := Pairs(b1, a.maxPairs);
    hide Vif, Security, Devices, Drop, FixDescription, WithoutQos;
    PortSteps(b2, a);
    SamePairs(b2, Devices(Vif(Security(b2), a.vifs), a.direct), {PortSecurity, SecurityGroups, VifId, DeviceId, DeviceOwner});
  }

  lemma {:induction false} PairsCopied(port: Object, removeQos: bool, names: set<string>)
    requires Id in port && names == DROP_PORT
    ensures var b := WithoutQos(Drop(FixDescription(port), names), removeQos);
            && Id in b && (AllowedAddressPairs in port <==> AllowedAddressPairs in b)
            && (AllowedAddressPairs in port ==> port[AllowedAddressPairs] == b[AllowedAddressPairs])
  {
    CopyMeans(port, names, Id);
    CopyMeans(port, names, AllowedAddressPairs);
    hide Drop, FixDescription;
  }

  /** Preparing a port twice is preparing it once, unless the backend takes no
      address pair at all and the port has some: then the first time they are
      cut down to none and the second time the empty list is removed. */
  lemma {:induction false} PortIdempotentIff(port: Object, a: PortArgs)
    requires Id in port
    ensures var r := PortBody(port, a);
            Id in r && SecurityReady(r) &&
            (PortBody(r, a) == r <==> a.maxPairs > 0 || !(Set(port, AllowedAddressPairs) && port[AllowedAddressPairs].List?))
  {
    hide PortBody, Clean, VifReady, DevicesReady;
    var r := PortBody(port, a);
    PortBodyReady(port, a, DROP_PORT);
    PortBodyReady(r, a, DROP_PORT);
    PortPairs(port, a, DROP_PORT);
    PairsStep(port, a.maxPairs);
    PairsStep(r, a.maxPairs);
    assert PairsReady(r, a.maxPairs) == PairsReady(Pairs(port, a.maxPairs), a.maxPairs);
  }

  // --------------------------------------------------- the preparing code

  /** A source object, whose description may be repaired in place. */
  class Item {
    var fields: Object

    constructor (fields: Object)
      ensures this.fields == fields
    {
      this.fields := fields;
    }

    method FixDescriptionInPlace()
      modifies this
      ensures fields == FixDescription(old(fields))
    {
      if Description in fields && fields[Description] == Null {
        fields := fields[Description := Str("")];
      }
    }

    /** Copies all fields but those named, in whatever order they come. */
    method DropFields(names: set<string>) returns (body: Object)
      ensures body == Drop(fields, names)
    {
      body := map[];
      var todo := fields.Keys;
      while todo != {}
        invariant todo <= fields.Keys
        invariant forall k :: k in body <==> k in fields && k !in todo && !Named(k, names)
        invariant forall k :: k in body ==> body[k] == fields[k]
        decreases todo
      {
        var k :| k in todo;
        todo := todo - {k};
        if !Named(k, names) { body := body[k := fields[k]]; }
      }
    }

    method PrepareNetwork(a: NetworkArgs) returns (body: Object)
      requires Id in fields
      modifies this
      ensures fields == FixDescription(old(fields)) && body == NetworkBody(old(fields), a)
    {
      NetworkBodyReady(fields, a, DROP_NETWORK);
      ghost var first := FirstSteps(fields, a, DROP_NETWORK);
      hide FixDescription, Drop, WithoutNulls, Provider, ExternalFields, Hints, NetworkReady;
      FixDescriptionInPlace();
      body := DropFields(DROP_NETWORK);
      if a.removeQos { body := body - {QosPolicy}; }
      body := RemoveNulls(body);
      body := TranslateProvider(body);
      body := TreatExternal(body, a);
      body := CheckHints(body, a.azs, a.direct);
      if body[Id] in a.vnis { body := body[Vni := Int(a.vnis[body[Id]])]; }
      if IsInterEdge(body) { body := body[Name := Str("Internal network for mdproxy migration")]; }
    }

    static method RemoveNulls(b: Object) returns (body: Object)
      ensures body == WithoutNulls(b)
    {
      body := b;
      if PhysicalNetwork in body && body[PhysicalNetwork] == Null { body := body - {PhysicalNetwork}; }
      if SegmentationId in body && body[SegmentationId] == Null { body := body - {SegmentationId}; }
      if VlanTransparent in body && body[VlanTransparent] == Null { body := body - {VlanTransparent}; }
    }

    static method TreatExternal(b: Object, a: NetworkArgs) returns (body: Object)
      requires Id in b
      ensures body == ExternalFields(b, a)
    {
      body := b;
      if Set(body, External) {
        body := body - {NetworkType, SegmentationId, PhysicalNetwork};
        if body[Id] in a.extNets { body := body[PhysicalNetwork := Str(a.extNets[body[Id]])]; }
        if Set(body, IsDefault) && a.defaultPublic { body := body[IsDefault := Bool(false)]; }
      }
    }

    static method TranslateProvider(b: Object) returns (body: Object)
      ensures body == Provider(b)
    {
      body := b;
      if NetworkType in body && body[NetworkType] == Str("vxlan") && SegmentationId in body && body[SegmentationId] != Null {
        body := body - {NetworkType, SegmentationId};
        if PhysicalNetwork in body { body := body - {PhysicalNetwork}; }
        assert body == b - {NetworkType, SegmentationId, PhysicalNetwork};
      }
      ghost var c := body;
      if NetworkType in body && body[NetworkType] == Str("flat") {
        body := body - {NetworkType};
        if PhysicalNetwork in body { body := body - {PhysicalNetwork}; }
        if SegmentationId in body { body := body - {SegmentationId}; }
        assert body == c - {NetworkType, PhysicalNetwork, SegmentationId};
      }
      ghost var d := body;
      if NetworkType in body && body[NetworkType] == Str("vlan") {
        if PhysicalNetwork in body { body := body - {PhysicalNetwork}; }
        assert body == d - {PhysicalNetwork};
      }
    }

    static method CheckHints(b: Object, azs: seq<Value>, direct: bool) returns (body: Object)
      ensures body == Hints(b, azs, direct)
    {
      body := b;
      if azs != [] {
        if Set(body, AzHints) && body[AzHints].List? {
          var az := body[AzHints].items[0];
          if az !in azs { body := body[AzHints := List([])]; }
        }
      } else if direct {
        body := body[AzHints := List([])];
      }
    }

    method PrepareRouter(azs: seq<Value>, direct: bool) returns (body: Object)
      modifies this
      ensures fields == FixDescription(old(fields)) && body == RouterBody(old(fields), azs, direct)
    {
      FixDescriptionInPlace();
      body := DropFields(DROP_ROUTER);
      body := CheckHints(body, azs, direct);
    }

    method PrepareSubnet() returns (body: Object)
      requires IpVersion in fields
      modifies this
      ensures fields == FixDescription(old(fields)) && body == SubnetBody(old(fields))
    {
      FixDescriptionInPlace();
      body := DropFields(DROP_SUBNET);
      ghost var clean := body;
      if body[IpVersion] == Int(4) {
        if Ipv6AddressMode in body { body := body - {Ipv6AddressMode}; }
        if Ipv6RaMode in body { body := body - {Ipv6RaMode}; }
        assert body == clean - {Ipv6AddressMode, Ipv6RaMode};
      } else {
        if Ipv6AddressMode in body && body[Ipv6AddressMode] == Null { body := body - {Ipv6AddressMode}; }
        if Ipv6RaMode in body && body[Ipv6RaMode] == Null { body := body - {Ipv6RaMode}; }
      }
    }

    static method LimitPairs(b: Object, maxPairs: nat) returns (body: Object)
      ensures body == Pairs(b, maxPairs)
    {
      body := b;
      if AllowedAddressPairs in body {
        if !Truthy(body[AllowedAddressPairs]) {
          body := body - {AllowedAddressPairs};
        } else if body[AllowedAddressPairs].List? && |body[AllowedAddressPairs].items| > maxPairs {
          body := body[AllowedAddressPairs := List(body[AllowedAddressPairs].items[..maxPairs])];
        }
      }
    }

    static method ChooseSecurity(b: Object) returns (body: Object)
      ensures body == Security(b)
    {
      body := b;
      if Set(body, MacLearning) && Set(body, PortSecurity) {
        body := body[PortSecurity := Bool(false)];
        body := body[SecurityGroups := List([])];
      }
    }

    method PreparePort(a: PortArgs) returns (body: Object)
      requires Id in fields
      modifies this
      ensures fields == FixDescription(old(fields)) && body == PortBody(old(fields), a)
    {
      assert Id in Pairs(WithoutQos(Drop(FixDescription(fields), DROP_PORT), a.removeQos), a.maxPairs);
      hide FixDescription, Drop, Pairs, Security;
      FixDescriptionInPlace();
      body := DropFields(DROP_PORT);
      if a.removeQos { body := body - {QosPolicy}; }
      body := LimitPairs(body, a.maxPairs);
      body := ChooseSecurity(body);
      if body[Id] in a.vifs { body := body[VifId := Str(a.vifs[body[Id]])]; }
      if a.direct {
        if DeviceId !in body { body := body[DeviceId := Str("")]; }
        if DeviceOwner !in body { body := body[DeviceOwner := Str("")]; }
      }
    }
  }
}
