// Verification of an incoming tune request: the priority level its client is
// granted, the packed properties word, the checks on each resource, and the
// translation of logical into physical core and cluster numbers.

module Admission {
  import opened Types
  import opened CocoSpec
  import opened Coordinator
  import opened ClientData
  import opened RequestManagers
  import opened Lifecycle
  import opened ResourceRegistries

  // ---- The properties word ----

  const MODE_RESUME: bv32 := 1

  // The low byte, read as a signed number.
  function PriorityOf(properties: bv32): int {
    var low := properties & 0xff;
    if low < 0x80 then low as int else low as int - 256
  }

  function ModesOf(properties: bv32): bv32 {
    (properties >> 8) & 0xff
  }

  // A level is or-ed into the word, whatever the low byte was.
  function SetPriority(properties: bv32, level: bv32): bv32 {
    properties | level
  }

  // The bits shifted in on the right come out again on the left.
  function AddProcessingMode(properties: bv32, mode: bv32): bv32 {
    properties | (((properties >> 8) | mode) << 8)
  }

  lemma AddedMode(properties: bv32, mode: bv32)
    ensures PriorityOf(AddProcessingMode(properties, mode)) == PriorityOf(properties)
    ensures ModesOf(AddProcessingMode(properties, mode)) == ModesOf(properties) | (mode & 0xff)
  {
    assert AddProcessingMode(properties, mode) & 0xff == properties & 0xff;
  }

  // The level granted to a client that asks for some priority.
  function GetRequestPriority(permission: Permission, asked: int): Option<bv32> {
    match permission
    case PermissionSystem => if asked == 0 then Some(0) else if asked == 1 then Some(1) else None
    case PermissionThirdParty =>
      if asked == 0 || asked == 2 then Some(2) else if asked == 1 || asked == 3 then Some(3) else None
  }

  // What a client may ask for: high or low, and a third party also by the
  // numbers of its own two levels.
  predicate MayAsk(permission: Permission, asked: int) {
    asked == 0 || asked == 1 || (permission.PermissionThirdParty? && (asked == 2 || asked == 3))
  }

  lemma GrantedIff(permission: Permission, asked: int)
    ensures GetRequestPriority(permission, asked).Some? <==> MayAsk(permission, asked)
  {
  }

  // A client gets the level it asks for if that is one of its own, otherwise the
  // third-party level that corresponds to it. Or-ing the level into the word
  // yields exactly that level, because the bits already there are part of it.
  lemma GrantedLevel(permission: Permission, properties: bv32)
    requires MayAsk(permission, PriorityOf(properties))
    ensures GetRequestPriority(permission, PriorityOf(properties)).Some?
    ensures var asked := PriorityOf(properties);
      var word := SetPriority(properties, GetRequestPriority(permission, asked).value);
      && PriorityOf(word) == (if LevelAllows(permission, asked) then asked else asked + 2)
      && LevelAllows(permission, PriorityOf(word))
      && ModesOf(word) == ModesOf(properties)
  {
    var asked := PriorityOf(properties);
    GrantedIff(permission, asked);
    var level := GetRequestPriority(permission, asked).value;
    assert level as int == if LevelAllows(permission, asked) then asked else asked + 2;
    LevelInWord(properties, level);
  }

  // The bits of a level are not lost, and bits that it has already do not matter.
  lemma LevelInWord(properties: bv32, level: bv32)
    requires var low := properties & 0xff;
      (low == 0 || low == 1 || low == 2 || low == 3) && (level == low || (low < 2 && level == low + 2))
    ensures PriorityOf(SetPriority(properties, level)) == level as int
    ensures ModesOf(SetPriority(properties, level)) == ModesOf(properties)
  {
    LevelKeepsModes(properties, level);
    OrKeepsBits(properties, level);
  }

  lemma LevelKeepsModes(properties: bv32, level: bv32)
    requires level <= 3
    ensures ModesOf(SetPriority(properties, level)) == ModesOf(properties)
  {
  }

  // Or-ing some other level is not enough: a low byte with other bits stays.
  lemma OrKeepsBits(properties: bv32, level: bv32)
    requires level <= 3
    ensures PriorityOf(SetPriority(properties, level)) == level as int <==> (properties & 0xff) | level == level
  {
    var word := SetPriority(properties, level);
    assert word & 0xff == (properties & 0xff) | level;
  }

  // ---- Logical and physical numbers ----

  datatype ClusterInfo = ClusterInfo(startCpu: UInt8, numCpus: UInt8)

  // The physical number of each logical cluster, and what each physical
  // cluster consists of; processor numbers fit into a byte.
  datatype Platform = Platform(logical: map<int, UInt8>, physical: map<int, ClusterInfo>) {
    predicate Valid() {
      forall c :: c in physical ==> physical[c].startCpu + physical[c].numCpus <= 256
    }

    function PhysicalCluster(cluster: int): int {
      if cluster in logical then logical[cluster] else -1
    }

    // The n-th processor of a cluster, counted from one.
    function PhysicalCore(cluster: int, n: int): int {
      if physical == map[] then n
      else if cluster !in logical || logical[cluster] !in physical then -1
      else
        var info := physical[logical[cluster]];
        if n <= 0 || n > info.numCpus then -1 else info.startCpu + n - 1
    }
  }

  ghost function CoresOf(pf: Platform, cluster: int): set<int>
    requires cluster in pf.logical && pf.logical[cluster] in pf.physical
  {
    set i | 1 <= i <= pf.physical[pf.logical[cluster]].numCpus :: pf.PhysicalCore(cluster, i)
  }

  // The processors of a mapped cluster, counted from one, are its physical ones
  // in increasing order; no other number is a processor of it.
  lemma CoresOfCluster(pf: Platform, cluster: int, n: int, m: int)
    requires cluster in pf.logical && pf.logical[cluster] in pf.physical
    ensures var info := pf.physical[pf.PhysicalCluster(cluster)];
      && (forall c :: c in CoresOf(pf, cluster) <==> info.startCpu <= c < info.startCpu + info.numCpus)
      && (1 <= n < m <= info.numCpus ==> pf.PhysicalCore(cluster, n) < pf.PhysicalCore(cluster, m))
      && (n < 1 || n > info.numCpus ==> pf.PhysicalCore(cluster, n) == -1)
  {
    var info := pf.physical[pf.logical[cluster]];
    forall c ensures c in CoresOf(pf, cluster) <==> info.startCpu <= c < info.startCpu + info.numCpus {
      assert 1 <= c - info.startCpu + 1 <= info.numCpus ==> pf.PhysicalCore(cluster, c - info.startCpu + 1) == c;
    }
  }

  datatype Place = Place(core: int, cluster: int)

  // Core 0 stands for all cores of the cluster and is not translated.
  function PhysicalPlace(pf: Platform, core: int, cluster: int): Option<Place> {
    var c := if core != 0 then pf.PhysicalCore(cluster, core) else 0;
    if c != -1 && pf.PhysicalCluster(cluster) != -1 then Some(Place(c, pf.PhysicalCluster(cluster))) else None
  }

  const WORD: nat := 0x1_0000_0000

  function SetCoreValue(info: nat, core: UInt8): nat {
    info - info % 256 + core
  }

  // Storing -1 sets all bits above the core number.
  function SetClusterValue(info: nat, cluster: int): nat
    requires -1 <= cluster < 256
  {
    if cluster == -1 then WORD - 256 + info % 256
    else info - (info / 256) % 256 * 256 + cluster * 256
  }

  lemma SetBytes(info: nat, core: UInt8, cluster: UInt8)
    ensures var w := SetClusterValue(SetCoreValue(info, core), cluster);
      w % 256 == core && (w / 256) % 256 == cluster && w / 65536 == info / 65536
  {
    var hi, mid, low := info / 65536, (info / 256) % 256, info % 256;
    assert info == hi * 65536 + mid * 256 + low;
    assert SetCoreValue(info, core) == hi * 65536 + mid * 256 + core;
    assert SetClusterValue(SetCoreValue(info, core), cluster) == hi * 65536 + cluster * 256 + core;
  }

  lemma SetClusterByte(info: nat, cluster: UInt8)
    ensures var w := SetClusterValue(info, cluster);
      w % 256 == info % 256 && (w / 256) % 256 == cluster && w / 65536 == info / 65536
  {
    var hi, mid, low := info / 65536, (info / 256) % 256, info % 256;
    assert info == hi * 65536 + mid * 256 + low;
    assert SetClusterValue(info, cluster) == hi * 65536 + cluster * 256 + low;
  }

  // ---- The checks on a resource ----

  // The part of a resource configuration that verification looks at.
  datatype Rule = Rule(low: int, high: int, permission: Permission, applyType: ApplyType, policy: Policy)

  datatype Env = Env(rules: map<nat, Rule>, platform: Platform, mode: Mode)

  function Translated(rule: Rule, pf: Platform, res: Resource): Option<Resource>
    requires pf.Valid()
  {
    match rule.applyType
    case ApplyCore =>
      (match PhysicalPlace(pf, res.CoreValue(), res.ClusterValue())
       case Some(place) => Some(res.(info := SetClusterValue(SetCoreValue(res.info, place.core), place.cluster)))
       case None => if rule.policy != PassThrough then None else Some(res))
    case ApplyCluster =>
      var cluster := pf.PhysicalCluster(res.ClusterValue());
      if cluster == -1 && rule.policy != PassThrough then None
      else Some(res.(info := SetClusterValue(res.info, cluster)))
    case _ => Some(res)
  }

  predicate WithinThresholds(rule: Rule, res: Resource) {
    |res.values| == 1 && rule.low != -1 && rule.high != -1 ==> rule.low <= res.values[0] <= rule.high
  }

  predicate Forwardable(env: Env, permission: Permission, res: Resource)
    requires env.platform.Valid()
  {
    && res.code in env.rules
    && WithinThresholds(env.rules[res.code], res)
    && !(env.rules[res.code].permission.PermissionSystem? && permission.PermissionThirdParty?)
    && Translated(env.rules[res.code], env.platform, res).Some?
  }

  // The clusters and processors an entry may name: any of a resource that is not
  // per core or cluster or passes through, else mapped ones.
  predicate NamesKnownPlace(rule: Rule, pf: Platform, res: Resource) {
    || rule.applyType == ApplyGlobal || rule.applyType == ApplyCGroup || rule.policy == PassThrough
    || (res.ClusterValue() in pf.logical && (rule.applyType == ApplyCluster || NamesKnownCore(pf, res)))
  }

  // All processors of the cluster, one of them, or any on a platform without a map.
  predicate NamesKnownCore(pf: Platform, res: Resource)
    requires res.ClusterValue() in pf.logical
  {
    var cluster := pf.logical[res.ClusterValue()];
    || res.CoreValue() == 0 || pf.physical == map[]
    || (cluster in pf.physical && 1 <= res.CoreValue() <= pf.physical[cluster].numCpus)
  }

  // Exactly the entries that pass: of a known resource that the client may use,
  // a single value within both thresholds if they are set, for a known place.
  lemma ForwardableIff(env: Env, permission: Permission, res: Resource)
    requires env.platform.Valid()
    ensures Forwardable(env, permission, res)
       <==> && res.code in env.rules
            && var rule := env.rules[res.code];
            && (permission.PermissionSystem? || rule.permission.PermissionThirdParty?)
            && (|res.values| != 1 || rule.low == -1 || rule.high == -1 || rule.low <= res.values[0] <= rule.high)
            && NamesKnownPlace(rule, env.platform, res)
  {
  }

  // Resources that do not pass are left out of the request by marking them.
  function Checked(env: Env, permission: Permission, res: Resource): Resource
    requires env.platform.Valid()
  {
    if Forwardable(env, permission, res) then Translated(env.rules[res.code], env.platform, res).value
    else res.(skip := true)
  }

  ghost predicate AllChecked(env: Env, permission: Permission, resources: seq<Resource>, asked: seq<Resource>)
    requires env.platform.Valid()
  {
    && |resources| == |asked|
    && forall i :: 0 <= i < |resources| ==> resources[i] == Checked(env, permission, asked[i])
  }

  class IncomingRequest {
    const pid: int
    const duration: int
    var properties: bv32
    var resources: seq<Resource>

    constructor (pid: int, duration: int, properties: bv32, resources: seq<Resource>)
      ensures this.pid == pid && this.duration == duration && this.properties == properties
           && this.resources == resources
    {
      this.pid, this.duration, this.properties, this.resources := pid, duration, properties, resources;
    }
  }

  // Checks and rewrites one resource.
  method VerifyResource(env: Env, permission: Permission, res: Resource) returns (r: Resource, forward: bool)
    requires env.platform.Valid()
    ensures forward <==> Forwardable(env, permission, res)
    ensures r == Checked(env, permission, res)
  {
    r, forward := res.(skip := true), false;
    if res.code !in env.rules {
      return;
    }
    var rule := env.rules[res.code];
    if |res.values| == 1 && rule.low != -1 && rule.high != -1
      && (res.ValueAt(0) < rule.low || res.ValueAt(0) > rule.high) {
      return;
    }
    if rule.permission.PermissionSystem? && permission.PermissionThirdParty? {
      return;
    }
    var t := Translated(rule, env.platform, res);
    if t.Some? {
      r, forward := t.value, true;
    }
  }

  ghost predicate Acceptable(cfg: Config, env: Env, pid: int, duration: int, properties: bv32, resources: seq<Resource>)
    requires env.platform.Valid()
  {
    && duration >= -1 && duration != 0 && env.mode == Resume
    && LevelOf(cfg, pid).Some?
    && MayAsk(LevelOf(cfg, pid).value, PriorityOf(properties))
    && exists res :: res in resources && Forwardable(env, LevelOf(cfg, pid).value, res)
  }

  // A request passes exactly when its duration, the display mode, its client and
  // its priority are in order and at least one resource passes. It then carries
  // the level asked for, or for a third party that asks for a system level the
  // corresponding one of its own; each resource is translated or marked to be
  // skipped.
  method VerifyIncomingRequest(cfg: Config, env: Env, req: IncomingRequest) returns (ok: bool)
    requires env.platform.Valid()
    modifies req
    ensures ok <==> Acceptable(cfg, env, req.pid, req.duration, old(req.properties), old(req.resources))
    ensures ok ==>
      var permission, asked := LevelOf(cfg, req.pid).value, PriorityOf(old(req.properties));
      && PriorityOf(req.properties) == (if LevelAllows(permission, asked) then asked else asked + 2)
      && LevelAllows(permission, PriorityOf(req.properties))
      && ModesOf(req.properties) == ModesOf(old(req.properties)) | MODE_RESUME
      && AllChecked(env, permission, req.resources, old(req.resources))
  {
    if req.duration < -1 || req.duration == 0 {
      return false;
    }
    AddedMode(req.properties, MODE_RESUME);
    req.properties := AddProcessingMode(req.properties, MODE_RESUME);
    var permission := LevelOf(cfg, req.pid);
    if env.mode != Resume || permission.None? {
      return false;
    }
    var granted := GrantLevel(permission.value, req.properties);
    if granted.None? {
      return false;
    }
    req.properties := granted.value;
    var forwardCount := VerifyResources(env, permission.value, req);
    return forwardCount != 0;
  }

  // The word with the granted level, or None if the priority is refused.
  method GrantLevel(permission: Permission, properties: bv32) returns (granted: Option<bv32>)
    ensures granted.Some? <==> MayAsk(permission, PriorityOf(properties))
    ensures granted.Some? ==>
      var asked := PriorityOf(properties);
      && PriorityOf(granted.value) == (if LevelAllows(permission, asked) then asked else asked + 2)
      && LevelAllows(permission, PriorityOf(granted.value))
      && ModesOf(granted.value) == ModesOf(properties)
  {
    var asked := PriorityOf(properties);
    if asked > 3 || asked < 0 {
      return None;
    }
    GrantedIff(permission, asked);
    var level := GetRequestPriority(permission, asked);
    if level.None? {
      return None;
    }
    GrantedLevel(permission, properties);
    return Some(SetPriority(properties, level.value));
  }

  method VerifyResources(env: Env, permission: Permission, req: IncomingRequest) returns (forwardCount: nat)
    requires env.platform.Valid()
    modifies req`resources
    ensures |req.resources| == |old(req.resources)|
    ensures forall i :: 0 <= i < |req.resources| ==> req.resources[i] == Checked(env, permission, old(req.resources)[i])
    ensures forwardCount > 0 <==> exists res :: res in old(req.resources) && Forwardable(env, permission, res)
  {
    forwardCount := 0;
    for i := 0 to |req.resources|
      invariant |req.resources| == |old(req.resources)|
      invariant forall j :: 0 <= j < i ==> req.resources[j] == Checked(env, permission, old(req.resources)[j])
      invariant forall j :: i <= j < |req.resources| ==> req.resources[j] == old(req.resources)[j]
      invariant forwardCount > 0 <==> exists j :: 0 <= j < i && Forwardable(env, permission, old(req.resources)[j])
    {
      var r, forward := VerifyResource(env, permission, req.resources[i]);
      req.resources := req.resources[i := r];
      if forward {
        forwardCount := forwardCount + 1;
        assert Forwardable(env, permission, old(req.resources)[i]);
      }
    }
  }

  // ---- What verification gives ----

  // A translated entry names the physical core and cluster, and is otherwise unchanged.
  lemma TranslatedPlace(rule: Rule, pf: Platform, res: Resource, place: Place)
    requires pf.Valid() && PhysicalPlace(pf, res.CoreValue(), res.ClusterValue()) == Some(place)
    ensures rule.applyType == ApplyCore ==>
              var t := Translated(rule, pf, res);
              && t.Some? && t.value == res.(info := t.value.info)
              && t.value.CoreValue() == place.core && t.value.ClusterValue() == place.cluster
              && t.value.info / 65536 == res.info / 65536
    ensures rule.applyType == ApplyCluster ==>
              var t := Translated(rule, pf, res);
              && t.Some? && t.value == res.(info := t.value.info)
              && t.value.CoreValue() == res.CoreValue() && t.value.ClusterValue() == place.cluster
              && t.value.info / 65536 == res.info / 65536
  {
    SetBytes(res.info, place.core, place.cluster);
    SetClusterByte(res.info, place.cluster);
  }

  // A pass-through entry for an unknown cluster ends up naming cluster 255.
  lemma UnknownClusterPassesThrough(rule: Rule, pf: Platform, res: Resource)
    requires pf.Valid() && pf.PhysicalCluster(res.ClusterValue()) == -1
    requires rule.applyType == ApplyCluster && rule.policy == PassThrough
    ensures var t := Translated(rule, pf, res);
      t.Some? && t.value.ClusterValue() == 255 && t.value.CoreValue() == res.CoreValue()
  {
    assert (WORD - 256 + res.info % 256) / 256 == 0xff_ffff;
  }

  // The verifier and the coordinator were set up from the same configuration:
  // every resource has a rule, and the physical numbers are those of the table.
  ghost predicate SameSetup(ctx: Ctx, env: Env) {
    && env.platform.Valid()
    && (forall c :: c in env.rules ==>
          && c in ctx.sil && 0 <= ctx.sil[c] < |ctx.confs|
          && env.rules[c].applyType == ctx.confs[ctx.sil[c]].applyType)
    && (forall l :: l in env.platform.logical ==>
          env.platform.logical[l] in ctx.clusterMap && env.platform.logical[l] in env.platform.physical)
    && (forall p :: p in env.platform.physical ==>
          env.platform.physical[p].startCpu + env.platform.physical[p].numCpus <= ctx.cores)
    && ctx.cores > 0
  }

  // What an entry asks for, in physical numbers. Logical core 0 asks for all
  // cores of its cluster.
  datatype Aim =
    | Everything
    | OneCore(core: int)
    | AllCores(cluster: int)
    | OneCluster(cluster: int)
    | OneCGroup(cgroup: int)

  // None if the entry names nothing on this device.
  function Intended(ctx: Ctx, env: Env, res: Resource): Option<Aim>
    requires res.code in env.rules
  {
    var cluster := env.platform.PhysicalCluster(res.ClusterValue());
    match env.rules[res.code].applyType
    case ApplyGlobal => Some(Everything)
    case ApplyCore =>
      (match PhysicalPlace(env.platform, res.CoreValue(), res.ClusterValue())
       case Some(place) => Some(if res.CoreValue() == 0 then AllCores(cluster) else OneCore(place.core))
       case None => None)
    case ApplyCluster => if cluster == -1 then None else Some(OneCluster(cluster))
    case ApplyCGroup => if res.ValueAt(0) in ctx.cgroupMap then Some(OneCGroup(res.ValueAt(0))) else None
  }

  // The instance that stands for it in the table: all cores of a cluster have
  // none of their own and are filed under core 0, whichever cluster it is.
  function StandIn(aim: Aim): int {
    match aim
    case Everything => 0
    case OneCore(core) => core
    case AllCores(_) => 0
    case OneCluster(cluster) => cluster
    case OneCGroup(cgroup) => cgroup
  }

  predicate UnderCoreZero(aim: Aim) {
    aim.AllCores? || aim == OneCore(0)
  }

  // Where an entry ends up that names nothing: an unmapped core number is taken
  // for a physical one, an unmapped cluster for cluster 255, and an unknown
  // cluster or cgroup for the first one.
  function Astray(ctx: Ctx, clusterIds: seq<int>, cgroupIds: seq<int>, env: Env, res: Resource): Option<int>
    requires res.code in env.rules
  {
    match env.rules[res.code].applyType
    case ApplyGlobal => None
    case ApplyCore => if res.CoreValue() < ctx.cores then Some(res.CoreValue()) else None
    case ApplyCluster => if 255 in clusterIds then Some(255) else FirstOf(clusterIds)
    case ApplyCGroup => if res.ValueAt(0) == -1 then None else FirstOf(cgroupIds)
  }

  // Where verification leaves an entry filed.
  lemma VerifiedFiledUnder(ctx: Ctx, clusterIds: seq<int>, cgroupIds: seq<int>, env: Env, permission: Permission,
                           res: Resource)
    requires Addressable(ctx, clusterIds, cgroupIds) && SameSetup(ctx, env)
    requires Forwardable(env, permission, res)
    ensures FiledUnder(ctx, clusterIds, cgroupIds, Checked(env, permission, res))
         == match Intended(ctx, env, res)
            case Some(aim) => Some(StandIn(aim))
            case None => Astray(ctx, clusterIds, cgroupIds, env, res)
  {
    var rule, r := env.rules[res.code], Checked(env, permission, res);
    FlatMapPositions(clusterIds);
    var place := PhysicalPlace(env.platform, res.CoreValue(), res.ClusterValue());
    if rule.applyType == ApplyCore && place.Some? {
      TranslatedPlace(rule, env.platform, res, place.value);
    } else if rule.applyType == ApplyCluster {
      if env.platform.PhysicalCluster(res.ClusterValue()) == -1 {
        UnknownClusterPassesThrough(rule, env.platform, res);
      } else {
        SetClusterByte(res.info, env.platform.PhysicalCluster(res.ClusterValue()));
      }
    }
  }

  // Every entry that verification lets through gets the slot of the instance
  // that stands for what it asks for. One that names nothing gets a slot of some
  // other instance, or none.
  lemma VerifiedHasSlot(ctx: Ctx, clusterIds: seq<int>, cgroupIds: seq<int>, env: Env, permission: Permission,
                        res: Resource, prio: int)
    requires Addressable(ctx, clusterIds, cgroupIds) && SameSetup(ctx, env) && Level(prio)
    requires Forwardable(env, permission, res) && !res.skip
    ensures var aim, astray := Intended(ctx, env, res), Astray(ctx, clusterIds, cgroupIds, env, res);
      Target(ctx, Checked(env, permission, res), prio)
      == if aim.Some? then Some(SlotOf(ctx, ctx.sil[res.code], StandIn(aim.value), prio))
         else if astray.Some? then Some(SlotOf(ctx, ctx.sil[res.code], astray.value, prio))
         else None
  {
    VerifiedFiledUnder(ctx, clusterIds, cgroupIds, env, permission, res);
    EntryHasSlot(ctx, clusterIds, cgroupIds, Checked(env, permission, res), prio);
  }

  // Two entries for the same resource, both verified and not marked.
  ghost predicate BothPass(env: Env, permission: Permission, r1: Resource, r2: Resource)
    requires env.platform.Valid()
  {
    && Forwardable(env, permission, r1) && Forwardable(env, permission, r2) && !r1.skip && !r2.skip
    && r1.code == r2.code
  }

  ghost predicate ShareSlot(ctx: Ctx, env: Env, permission: Permission, r1: Resource, r2: Resource, prio: int)
    requires env.platform.Valid()
  {
    Target(ctx, Checked(env, permission, r1), prio) == Target(ctx, Checked(env, permission, r2), prio)
  }

  // They share a slot exactly if they ask for the same, or if each asks for core
  // 0 or for all cores of a cluster, be it another one, or if the second names
  // nothing and goes astray to where the first one is filed.
  lemma SharedIff(ctx: Ctx, clusterIds: seq<int>, cgroupIds: seq<int>, env: Env, permission: Permission,
                  r1: Resource, r2: Resource, prio: int)
    requires Addressable(ctx, clusterIds, cgroupIds) && SameSetup(ctx, env) && Level(prio)
    requires BothPass(env, permission, r1, r2) && Intended(ctx, env, r1).Some?
    ensures var aim1, aim2 := Intended(ctx, env, r1).value, Intended(ctx, env, r2);
      ShareSlot(ctx, env, permission, r1, r2, prio)
      <==> match aim2
           case Some(aim) => aim == aim1 || (UnderCoreZero(aim) && UnderCoreZero(aim1))
           case None => Astray(ctx, clusterIds, cgroupIds, env, r2) == Some(StandIn(aim1))
  {
    VerifiedFiledUnder(ctx, clusterIds, cgroupIds, env, permission, r1);
    VerifiedFiledUnder(ctx, clusterIds, cgroupIds, env, permission, r2);
    VerifiedHasSlot(ctx, clusterIds, cgroupIds, env, permission, r1, prio);
    SlotsShared(ctx, clusterIds, cgroupIds, Checked(env, permission, r1), prio, Checked(env, permission, r2), prio);
  }

  // A mapped entry for core or for all cores, by its logical numbers.
  ghost predicate MappedCore(env: Env, res: Resource) {
    && res.code in env.rules && env.rules[res.code].applyType == ApplyCore
    && PhysicalPlace(env.platform, res.CoreValue(), res.ClusterValue()).Some?
  }

  // In terms of what the client writes: two mapped core entries share a slot
  // exactly if their physical cores are equal, or each is logical core 0 or has
  // physical core 0.
  lemma CoresSharedIff(ctx: Ctx, clusterIds: seq<int>, cgroupIds: seq<int>, env: Env, permission: Permission,
                       r1: Resource, r2: Resource, prio: int)
    requires Addressable(ctx, clusterIds, cgroupIds) && SameSetup(ctx, env) && Level(prio)
    requires BothPass(env, permission, r1, r2) && MappedCore(env, r1) && MappedCore(env, r2)
    ensures var pf := env.platform;
      var c1 := pf.PhysicalCore(r1.ClusterValue(), r1.CoreValue());
      var c2 := pf.PhysicalCore(r2.ClusterValue(), r2.CoreValue());
      ShareSlot(ctx, env, permission, r1, r2, prio)
      <==> || (r1.CoreValue() != 0 && r2.CoreValue() != 0 && c1 == c2)
           || ((r1.CoreValue() == 0 || c1 == 0) && (r2.CoreValue() == 0 || c2 == 0))
  {
    SharedIff(ctx, clusterIds, cgroupIds, env, permission, r1, r2, prio);
  }

  // So entries for all cores of two different clusters, which have no core in
  // common, always share a slot.
  lemma AllCoresCollide(ctx: Ctx, clusterIds: seq<int>, cgroupIds: seq<int>, env: Env, permission: Permission,
                        r1: Resource, r2: Resource, prio: int)
    requires Addressable(ctx, clusterIds, cgroupIds) && SameSetup(ctx, env) && Level(prio)
    requires BothPass(env, permission, r1, r2) && MappedCore(env, r1) && MappedCore(env, r2)
    requires r1.CoreValue() == 0 && r2.CoreValue() == 0
    requires env.platform.PhysicalCluster(r1.ClusterValue()) != env.platform.PhysicalCluster(r2.ClusterValue())
    ensures Intended(ctx, env, r1) != Intended(ctx, env, r2)
    ensures ShareSlot(ctx, env, permission, r1, r2, prio)
  {
    CoresSharedIff(ctx, clusterIds, cgroupIds, env, permission, r1, r2, prio);
  }

  // With both in the table, removing the one for the first cluster resets
  // nothing: the entry for the other cluster counts as its fallback.
  lemma AllCoresNotTorn(ctx: Ctx, clusterIds: seq<int>, cgroupIds: seq<int>, env: Env, permission: Permission,
                        r1: Resource, r2: Resource, prio: int, mode: Mode, t: Table, live: seq<Live>, x: Live, y: Live)
    requires Addressable(ctx, clusterIds, cgroupIds) && SameSetup(ctx, env)
    requires BothPass(env, permission, r1, r2) && MappedCore(env, r1) && MappedCore(env, r2)
    requires r1.CoreValue() == 0 && r2.CoreValue() == 0
    requires env.platform.PhysicalCluster(r1.ClusterValue()) != env.platform.PhysicalCluster(r2.ClusterValue())
    requires Agrees(ctx, t, live) && x in live && y in live && x != y && x.prio == y.prio == prio
    requires x.item.res == Checked(env, permission, r1) && y.item.res == Checked(env, permission, r2)
    requires ctx.confs[ctx.sil[r1.code]].policy != PassThroughAppend
    ensures !Torn(t.log, RemoveOne(ctx, mode, t, x.item, prio).log)
  {
    AllCoresCollide(ctx, clusterIds, cgroupIds, env, permission, r1, r2, prio);
    VerifiedHasSlot(ctx, clusterIds, cgroupIds, env, permission, r1, prio);
    NotTornWhileShared(ctx, mode, t, live, x, y, Target(ctx, x.item.res, prio).value);
  }

  // An entry for the core that is number 0 cannot be told from one for all cores
  // of its cluster: verification stores the same numbers in both.
  lemma CoreZeroReadsAsAll(env: Env, permission: Permission, r1: Resource, r2: Resource)
    requires env.platform.Valid() && BothPass(env, permission, r1, r2) && MappedCore(env, r1) && MappedCore(env, r2)
    requires r1.ClusterValue() == r2.ClusterValue() && r1.CoreValue() != 0 && r2.CoreValue() == 0
    requires env.platform.PhysicalCore(r1.ClusterValue(), r1.CoreValue()) == 0
    ensures var c1, c2 := Checked(env, permission, r1), Checked(env, permission, r2);
      c1.CoreValue() == c2.CoreValue() && c1.ClusterValue() == c2.ClusterValue()
  {
    var rule, pf := env.rules[r1.code], env.platform;
    TranslatedPlace(rule, pf, r1, PhysicalPlace(pf, r1.CoreValue(), r1.ClusterValue()).value);
    TranslatedPlace(rule, pf, r2, PhysicalPlace(pf, r2.CoreValue(), r2.ClusterValue()).value);
  }
}
