/** Physical-device selection and logical-device queue planning.

    A physical device is an opaque record of what the driver reports about
    it: its type, whether it supports anisotropic sampling, its queue
    families (capability bits and the outcome of the per-family surface
    presentation query), its device extensions and its surface support.
    The backend scans the queue families to assign graphics, compute,
    present and transfer family indices, decides whether the device is
    acceptable, takes the first acceptable device in enumeration order,
    and plans the queues of the logical device. */
module Device {
  import opened Common
  import Swapchain

  /** `VK_QUEUE_*_BIT`. */
  const QueueGraphicsBit: bv32 := 0x1
  const QueueComputeBit: bv32 := 0x2
  const QueueTransferBit: bv32 := 0x4

  /** Number of entries in the fixed array the queue-family query fills. */
  const QueueFamilyCapacity: nat := 32

  /** The index a role keeps when no family has it: `-1` stored in a `uint32_t`. */
  const NoFamily: U32 := 0xFFFF_FFFF

  /** Starting bound of the transfer scan; above every family's score. */
  const InitialMinTransferScore: int := 255

  /** `VK_KHR_SWAPCHAIN_EXTENSION_NAME`, the one extension the logical device enables. */
  const SwapchainExtensionName: string := "VK_KHR_swapchain"

  /** Outcome of `vkGetPhysicalDeviceSurfaceSupportKHR` for one family. */
  datatype PresentQuery = PresentSupported(supported: bool) | PresentQueryFailed

  datatype QueueFamily = QueueFamily(queueFlags: bv32, presentSupport: PresentQuery)

  datatype DeviceType = OtherGpu | IntegratedGpu | DiscreteGpu | VirtualGpu | CpuDevice

  /** A C string: where it lives and what it says. */
  datatype CString = CString(address: nat, text: string)

  /** What the driver reports about one physical device. `queueFamilies`
      is the driver's full list, before the query copies it out. */
  datatype PhysicalDevice = PhysicalDevice(
    deviceType: DeviceType,
    samplerAnisotropy: bool,
    queueFamilies: seq<QueueFamily>,
    availableExtensions: seq<CString>,
    swapchainSupport: Swapchain.SwapchainSupport)

  /** What the backend asks of a device. `deviceExtensionNames` is `None`
      when the name vector has no storage (its `data()` is null). */
  datatype Requirements = Requirements(
    graphics: bool,
    present: bool,
    compute: bool,
    transfer: bool,
    deviceExtensionNames: Option<seq<CString>>,
    samplerAnisotropy: bool,
    discreteGpu: bool)

  datatype QueueFamilyInfo = QueueFamilyInfo(graphics: U32, present: U32, compute: U32, transfer: U32)

  /** Every role unassigned, as the evaluation starts. */
  const Unassigned: QueueFamilyInfo := QueueFamilyInfo(NoFamily, NoFamily, NoFamily, NoFamily)

  /** The roles assigned by "the last family that has it". */
  datatype Role = GraphicsRole | ComputeRole | PresentRole

  /** The runtime error thrown when a surface-support query fails. */
  datatype DeviceError = SurfaceSupportQueryFailed(family: nat)

  /** The scan's state after some families: the indices so far and the
      lowest transfer score taken so far. */
  datatype ScanState = ScanState(info: QueueFamilyInfo, minTransferScore: int)

  /** Whether a device is acceptable, and the family indices its scan found. */
  datatype Evaluation = Evaluation(accepted: bool, queues: QueueFamilyInfo)

  /** What the backend stores about the device it selects. */
  datatype Selection = Selection(
    deviceIndex: nat,
    graphics: U32,
    present: U32,
    transfer: U32,
    swapchainSupport: Swapchain.SwapchainSupport)

  // ---------------------------------------------------------------------
  // Queue families

  predicate HasFlag(f: QueueFamily, bit: bv32)
  {
    f.queueFlags & bit != 0
  }

  predicate QueryFails(f: QueueFamily)
  {
    f.presentSupport.PresentQueryFailed?
  }

  predicate HasRole(f: QueueFamily, role: Role)
  {
    match role
    case GraphicsRole => HasFlag(f, QueueGraphicsBit)
    case ComputeRole => HasFlag(f, QueueComputeBit)
    case PresentRole => f.presentSupport == PresentSupported(true)
  }

  function RoleIndex(info: QueueFamilyInfo, role: Role): U32
  {
    match role
    case GraphicsRole => info.graphics
    case ComputeRole => info.compute
    case PresentRole => info.present
  }

  /** How shared a transfer-capable family is: one point each for graphics
      and compute. Lower means more dedicated to transfers. */
  function TransferScore(f: QueueFamily): nat
  {
    (if HasFlag(f, QueueGraphicsBit) then 1 else 0) + (if HasFlag(f, QueueComputeBit) then 1 else 0)
  }

  /** `vkGetPhysicalDeviceQueueFamilyProperties` with an array: the count
      passed in is the array's capacity, and at most that many of the
      driver's families are written. */
  function QueryQueueFamilies(capacity: nat, reported: seq<QueueFamily>): (r: seq<QueueFamily>)
    ensures r <= reported
    ensures |r| == if |reported| <= capacity then |reported| else capacity
  {
    if |reported| <= capacity then reported else reported[..capacity]
  }

  /** The query as the source issues it: the count variable still holds 0
      at the call, so no family is written and the scan sees none. */
  function QueriedFamiliesAsWritten(device: PhysicalDevice): (r: seq<QueueFamily>)
    ensures r == []
  {
    QueryQueueFamilies(0, device.queueFamilies)
  }

  /** The query with the array's capacity as the count: every family the
      driver reports, up to the 32 the array holds. */
  function QueriedFamilies(device: PhysicalDevice): (r: seq<QueueFamily>)
    ensures |r| <= QueueFamilyCapacity
    ensures r <= device.queueFamilies
    ensures |device.queueFamilies| <= QueueFamilyCapacity ==> r == device.queueFamilies
    ensures |device.queueFamilies| > 0 ==> |r| > 0
  {
    QueryQueueFamilies(QueueFamilyCapacity, device.queueFamilies)
  }

  /** The count the queue-family query is issued with: 0, as the source
      passes it, or the array's capacity. */
  datatype FamilyQuery = CountAsWritten | CountIsCapacity

  /** The families the scan sees under `query`. */
  function Queried(query: FamilyQuery, device: PhysicalDevice): (r: seq<QueueFamily>)
    ensures |r| <= QueueFamilyCapacity
  {
    match query
    case CountAsWritten => QueriedFamiliesAsWritten(device)
    case CountIsCapacity => QueriedFamilies(device)
  }

  /** One iteration of the scan over family `i`. */
  function ScanStep(s: ScanState, i: U32, f: QueueFamily): (r: Result<ScanState, DeviceError>)
    ensures r.Failure? <==> QueryFails(f)
    ensures r.Failure? ==> r.error == SurfaceSupportQueryFailed(i)
    ensures r.Success? ==> r.value.minTransferScore <= s.minTransferScore
    ensures r.Success? && r.value.info.transfer != s.info.transfer ==>
              r.value.info.transfer == i && HasFlag(f, QueueTransferBit) && TransferScore(f) <= s.minTransferScore
  {
    var score := TransferScore(f);
    var takeTransfer := HasFlag(f, QueueTransferBit) && score <= s.minTransferScore;
    match f.presentSupport
    case PresentQueryFailed => Failure(SurfaceSupportQueryFailed(i))
    case PresentSupported(supported) =>
      Success(ScanState(
        QueueFamilyInfo(
          graphics := if HasFlag(f, QueueGraphicsBit) then i else s.info.graphics,
          present := if supported then i else s.info.present,
          compute := if HasFlag(f, QueueComputeBit) then i else s.info.compute,
          transfer := if takeTransfer then i else s.info.transfer),
        if takeTransfer then score else s.minTransferScore))
  }

  /** The scan over the first `n` families. */
  function ScanPrefix(families: seq<QueueFamily>, n: nat): Result<ScanState, DeviceError>
    requires n <= |families| <= QueueFamilyCapacity
    decreases n
  {
    if n == 0 then Success(ScanState(Unassigned, InitialMinTransferScore))
    else
      match ScanPrefix(families, n - 1)
      case Failure(e) => Failure(e)
      case Success(s) => ScanStep(s, n - 1, families[n - 1])
  }

  /** `idx` is the last of the first `n` families with `role`, or
      `NoFamily` when none of them has it. */
  predicate IsLastWithRole(families: seq<QueueFamily>, n: nat, role: Role, idx: U32)
    requires n <= |families|
  {
    if idx == NoFamily then forall j :: 0 <= j < n ==> !HasRole(families[j], role)
    else
      && idx < n
      && HasRole(families[idx], role)
      && forall j :: idx < j < n ==> !HasRole(families[j], role)
  }

  /** `idx` is a transfer-capable family of the first `n` with the lowest
      score, and the last one with that score; or `NoFamily` when none is
      transfer-capable. */
  predicate IsMostDedicatedTransfer(families: seq<QueueFamily>, n: nat, idx: U32)
    requires n <= |families|
  {
    if idx == NoFamily then forall j :: 0 <= j < n ==> !HasFlag(families[j], QueueTransferBit)
    else
      && idx < n
      && HasFlag(families[idx], QueueTransferBit)
      && (forall j :: 0 <= j < n && HasFlag(families[j], QueueTransferBit) ==>
            TransferScore(families[idx]) <= TransferScore(families[j]))
      && (forall j :: idx < j < n && HasFlag(families[j], QueueTransferBit) ==>
            TransferScore(families[idx]) < TransferScore(families[j]))
  }

  /** `k` is the first of the first `n` families whose present query fails. */
  predicate IsFirstQueryFailure(families: seq<QueueFamily>, n: nat, k: nat)
    requires n <= |families|
  {
    k < n && QueryFails(families[k]) && forall j :: 0 <= j < k ==> !QueryFails(families[j])
  }

  lemma {:induction false} ScanPrefixFailure(families: seq<QueueFamily>, n: nat)
    requires n <= |families| <= QueueFamilyCapacity
    ensures ScanPrefix(families, n).Failure? <==> exists j :: 0 <= j < n && QueryFails(families[j])
    ensures ScanPrefix(families, n).Failure? ==> IsFirstQueryFailure(families, n, ScanPrefix(families, n).error.family)
  {
    if n > 0 {
      ScanPrefixFailure(families, n - 1);
    }
  }

  lemma {:induction false} ScanPrefixRoles(families: seq<QueueFamily>, n: nat, role: Role)
    requires n <= |families| <= QueueFamilyCapacity
    ensures ScanPrefix(families, n).Success? ==>
              IsLastWithRole(families, n, role, RoleIndex(ScanPrefix(families, n).value.info, role))
  {
    if n > 0 {
      ScanPrefixRoles(families, n - 1, role);
    }
  }

  lemma {:induction false} ScanPrefixTransfer(families: seq<QueueFamily>, n: nat)
    requires n <= |families| <= QueueFamilyCapacity
    ensures ScanPrefix(families, n).Success? ==>
              var s := ScanPrefix(families, n).value;
              && IsMostDedicatedTransfer(families, n, s.info.transfer)
              && if s.info.transfer == NoFamily then s.minTransferScore == InitialMinTransferScore
                 else s.minTransferScore == TransferScore(families[s.info.transfer])
  {
    if n > 0 {
      ScanPrefixTransfer(families, n - 1);
    }
  }

  /** The whole scan: the family indices of every role, or the error of
      the first family whose present query fails. */
  function ScanQueueFamilies(families: seq<QueueFamily>): (r: Result<QueueFamilyInfo, DeviceError>)
    requires |families| <= QueueFamilyCapacity
    ensures r.Failure? <==> exists j :: 0 <= j < |families| && QueryFails(families[j])
    ensures r.Failure? ==> IsFirstQueryFailure(families, |families|, r.error.family)
    ensures r.Success? ==> IsLastWithRole(families, |families|, GraphicsRole, r.value.graphics)
    ensures r.Success? ==> IsLastWithRole(families, |families|, ComputeRole, r.value.compute)
    ensures r.Success? ==> IsLastWithRole(families, |families|, PresentRole, r.value.present)
    ensures r.Success? ==> IsMostDedicatedTransfer(families, |families|, r.value.transfer)
  {
    ScanPrefixFailure(families, |families|);
    ScanPrefixRoles(families, |families|, GraphicsRole);
    ScanPrefixRoles(families, |families|, ComputeRole);
    ScanPrefixRoles(families, |families|, PresentRole);
    ScanPrefixTransfer(families, |families|);
    match ScanPrefix(families, |families|)
    case Failure(e) => Failure(e)
    case Success(s) => Success(s.info)
  }

  /** With the query as written, a scan that succeeds leaves every role
      unassigned, whatever the driver reports. */
  lemma AsWrittenScanAssignsNoFamily(device: PhysicalDevice)
    ensures ScanQueueFamilies(QueriedFamiliesAsWritten(device)) == Success(Unassigned)
  {
  }

  // ---------------------------------------------------------------------
  // Device extensions

  /** The extension comparison as the source writes it: `==` between two
      `const char *`, which compares addresses, not text. */
  predicate ExtensionPresentAsWritten(name: CString, available: seq<CString>)
  {
    exists j :: 0 <= j < |available| && available[j].address == name.address
  }

  predicate ExtensionsSatisfiedAsWritten(required: seq<CString>, available: seq<CString>)
  {
    |available| == 0 || forall i :: 0 <= i < |required| ==> ExtensionPresentAsWritten(required[i], available)
  }

  /** The comparison by text the check evidently intends. */
  predicate ExtensionPresent(name: CString, available: seq<CString>)
  {
    exists j :: 0 <= j < |available| && available[j].text == name.text
  }

  /** An empty list of available extensions rejects nothing; otherwise
      every required name must be among them. */
  predicate ExtensionsSatisfied(required: seq<CString>, available: seq<CString>)
  {
    |available| == 0 || forall i :: 0 <= i < |required| ==> ExtensionPresent(required[i], available)
  }

  function Texts(s: seq<CString>): (r: seq<string>)
    ensures |r| == |s|
    ensures forall i :: 0 <= i < |s| ==> r[i] == s[i].text
  {
    seq(|s|, i requires 0 <= i < |s| => s[i].text)
  }

  /** A required name that the driver lists under the same text but at
      another address is rejected by the check as written and accepted by
      the comparison by text. */
  lemma ExtensionCompareByAddressRejectsListedName()
    ensures var required := [CString(1, SwapchainExtensionName)];
            var available := [CString(2, SwapchainExtensionName)];
            && !ExtensionsSatisfiedAsWritten(required, available)
            && ExtensionsSatisfied(required, available)
  {
    var required := [CString(1, SwapchainExtensionName)];
    var available := [CString(2, SwapchainExtensionName)];
    assert available[0].text == required[0].text;
  }

  /** The rule of the check by text: an empty list of available
      extensions accepts every requirement, and a non-empty one accepts
      exactly when each required text is among the available texts. */
  lemma ExtensionsSatisfiedByTexts(required: seq<CString>, available: seq<CString>)
    ensures |available| == 0 ==> ExtensionsSatisfied(required, available)
    ensures |available| > 0 ==>
              (ExtensionsSatisfied(required, available) <==>
                 forall i :: 0 <= i < |required| ==> required[i].text in Texts(available))
  {
  }

  /** The verdict of the comparison by text depends only on the texts of
      the names, not on where they are stored. */
  lemma ExtensionCheckIgnoresAddresses(
    required1: seq<CString>, available1: seq<CString>, required2: seq<CString>, available2: seq<CString>)
    requires Texts(required1) == Texts(required2)
    requires Texts(available1) == Texts(available2)
    ensures ExtensionsSatisfied(required1, available1) <==> ExtensionsSatisfied(required2, available2)
  {
  }

  // ---------------------------------------------------------------------
  // Accepting a device

  predicate RejectedAsNotDiscrete(device: PhysicalDevice, req: Requirements)
  {
    req.discreteGpu && device.deviceType != DiscreteGpu
  }

  /** Whether the scan found a family for every role `req` asks for; the
      source only logs this, it does not reject on it. */
  predicate MeetsQueueRequirements(req: Requirements, info: QueueFamilyInfo)
  {
    && (req.graphics ==> info.graphics != NoFamily)
    && (req.present ==> info.present != NoFamily)
    && (req.compute ==> info.compute != NoFamily)
    && (req.transfer ==> info.transfer != NoFamily)
  }

  /** The evaluation of one candidate device, its queue families queried
      as `query` says. */
  function MeetsRequirements(device: PhysicalDevice, req: Requirements, query: FamilyQuery): (r: Result<Evaluation, DeviceError>)
    ensures RejectedAsNotDiscrete(device, req) ==> r == Success(Evaluation(false, Unassigned))
    ensures !RejectedAsNotDiscrete(device, req) ==>
              (r.Failure? <==> exists j :: 0 <= j < |Queried(query, device)| && QueryFails(Queried(query, device)[j]))
    ensures !RejectedAsNotDiscrete(device, req) && r.Success? ==>
              Success(r.value.queues) == ScanQueueFamilies(Queried(query, device))
    ensures r.Success? && r.value.accepted ==>
              && !RejectedAsNotDiscrete(device, req)
              && (req.deviceExtensionNames.Some? ==>
                    && ExtensionsSatisfied(req.deviceExtensionNames.value, device.availableExtensions)
                    && (req.samplerAnisotropy ==> device.samplerAnisotropy))
    ensures r.Success? && !RejectedAsNotDiscrete(device, req) ==>
              (req.deviceExtensionNames.None? ==> r.value.accepted)
    ensures r.Success? && !RejectedAsNotDiscrete(device, req) && req.deviceExtensionNames.Some? ==>
              ((ExtensionsSatisfied(req.deviceExtensionNames.value, device.availableExtensions)
                && (req.samplerAnisotropy ==> device.samplerAnisotropy)) ==> r.value.accepted)
  {
    if RejectedAsNotDiscrete(device, req) then Success(Evaluation(false, Unassigned))
    else
      match ScanQueueFamilies(Queried(query, device))
      case Failure(e) => Failure(e)
      case Success(info) =>
        var accepted :=
          match req.deviceExtensionNames
          case None => true
          case Some(names) =>
            ExtensionsSatisfied(names, device.availableExtensions) && (!req.samplerAnisotropy || device.samplerAnisotropy);
        Success(Evaluation(accepted, info))
  }

  /** Two devices that differ only in their queue families get the same
      verdict: missing queue roles never reject a device. */
  lemma QueueRolesDoNotDecideAcceptance(d1: PhysicalDevice, d2: PhysicalDevice, req: Requirements, query: FamilyQuery)
    requires d1.deviceType == d2.deviceType && d1.samplerAnisotropy == d2.samplerAnisotropy
    requires d1.availableExtensions == d2.availableExtensions
    requires MeetsRequirements(d1, req, query).Success? && MeetsRequirements(d2, req, query).Success?
    ensures MeetsRequirements(d1, req, query).value.accepted == MeetsRequirements(d2, req, query).value.accepted
  {
  }

  /** A device with no graphics family at all is accepted even though
      graphics is required. */
  lemma AcceptsDeviceMissingQueueRoles(device: PhysicalDevice, req: Requirements, query: FamilyQuery)
    requires device.queueFamilies == [QueueFamily(QueueTransferBit, PresentSupported(false))]
    requires req.graphics && req.present && !req.discreteGpu && req.deviceExtensionNames.None?
    ensures MeetsRequirements(device, req, query).Success?
    ensures !MeetsQueueRequirements(req, MeetsRequirements(device, req, query).value.queues)
    ensures MeetsRequirements(device, req, query).value.accepted
  {
  }

  // ---------------------------------------------------------------------
  // Selecting a device

  /** The requirements the backend uses: all four roles, anisotropy, any
      device type, and a name vector that is never filled. */
  const EngineRequirements: Requirements := Requirements(
    graphics := true, present := true, compute := true, transfer := true,
    deviceExtensionNames := None, samplerAnisotropy := true, discreteGpu := false)

  predicate Accepted(device: PhysicalDevice, req: Requirements, query: FamilyQuery)
  {
    var e := MeetsRequirements(device, req, query);
    e.Success? && e.value.accepted
  }

  predicate Rejected(device: PhysicalDevice, req: Requirements, query: FamilyQuery)
  {
    var e := MeetsRequirements(device, req, query);
    e.Success? && !e.value.accepted
  }

  /** The selection stores the chosen device's graphics, present and
      transfer indices and its surface support. */
  predicate StoresDevice(s: Selection, device: PhysicalDevice, req: Requirements, query: FamilyQuery)
  {
    var e := MeetsRequirements(device, req, query);
    && e.Success?
    && s.graphics == e.value.queues.graphics
    && s.present == e.value.queues.present
    && s.transfer == e.value.queues.transfer
    && s.swapchainSupport == device.swapchainSupport
  }

  /** The device loop over the evaluations of the devices from index `k`
      on: the first acceptable device wins, and an evaluation that throws
      ends the loop. The result is the index of the winner. */
  function SelectFirstAccepted(evals: seq<Result<Evaluation, DeviceError>>, k: nat): (r: Result<Option<nat>, DeviceError>)
    requires k <= |evals|
    ensures r.Success? && r.value.Some? ==>
              && k <= r.value.value < |evals|
              && evals[r.value.value].Success? && evals[r.value.value].value.accepted
              && forall j :: k <= j < r.value.value ==> evals[j].Success? && !evals[j].value.accepted
    ensures r.Success? && r.value.None? ==>
              forall j :: k <= j < |evals| ==> evals[j].Success? && !evals[j].value.accepted
    ensures r.Failure? ==>
              exists m :: k <= m < |evals| && evals[m] == Failure(r.error)
                          && forall j :: k <= j < m ==> evals[j].Success? && !evals[j].value.accepted
    decreases |evals| - k
  {
    if k == |evals| then Success(None)
    else
      match evals[k]
      case Failure(e) => Failure(e)
      case Success(ev) => if ev.accepted then Success(Some(k)) else SelectFirstAccepted(evals, k + 1)
  }

  /** `select_physical_device`: `Success(None)` is the `false` return,
      `Failure` the exception an evaluation throws. */
  function SelectPhysicalDevice(devices: seq<PhysicalDevice>, query: FamilyQuery): (r: Result<Option<Selection>, DeviceError>)
    ensures |devices| == 0 ==> r == Success(None)
    ensures r.Success? && r.value.Some? ==>
              && r.value.value.deviceIndex < |devices|
              && Accepted(devices[r.value.value.deviceIndex], EngineRequirements, query)
              && StoresDevice(r.value.value, devices[r.value.value.deviceIndex], EngineRequirements, query)
              && forall j :: 0 <= j < r.value.value.deviceIndex ==> Rejected(devices[j], EngineRequirements, query)
    ensures r.Success? && r.value.None? ==> forall j :: 0 <= j < |devices| ==> Rejected(devices[j], EngineRequirements, query)
    ensures r.Failure? ==>
              exists m :: 0 <= m < |devices| && MeetsRequirements(devices[m], EngineRequirements, query) == Failure(r.error)
                          && forall j :: 0 <= j < m ==> Rejected(devices[j], EngineRequirements, query)
  {
    var evals := seq(|devices|, j requires 0 <= j < |devices| => MeetsRequirements(devices[j], EngineRequirements, query));
    match SelectFirstAccepted(evals, 0)
    case Failure(e) => Failure(e)
    case Success(None) => Success(None)
    case Success(Some(i)) =>
      var queues := evals[i].value.queues;
      Success(Some(Selection(i, queues.graphics, queues.present, queues.transfer, devices[i].swapchainSupport)))
  }

  /** Under the backend's own requirements every device whose evaluation
      does not throw is accepted. */
  lemma EngineAcceptsEveryScannedDevice(device: PhysicalDevice, query: FamilyQuery)
    requires forall j :: 0 <= j < |Queried(query, device)| ==> !QueryFails(Queried(query, device)[j])
    ensures Accepted(device, EngineRequirements, query)
  {
  }

  /** Hence the first enumerated device is selected unless its evaluation
      throws. */
  lemma EngineSelectsFirstDevice(devices: seq<PhysicalDevice>, query: FamilyQuery)
    requires |devices| > 0
    requires forall j :: 0 <= j < |Queried(query, devices[0])| ==> !QueryFails(Queried(query, devices[0])[j])
    ensures SelectPhysicalDevice(devices, query).Success?
    ensures SelectPhysicalDevice(devices, query).value.Some?
    ensures SelectPhysicalDevice(devices, query).value.value.deviceIndex == 0
  {
  }

  // ---------------------------------------------------------------------
  // Logical device

  datatype QueueCreateInfo = QueueCreateInfo(familyIndex: U32, queueCount: nat)

  /** A queue fetched from the logical device: family and index within it. */
  datatype QueueRef = QueueRef(family: U32, index: nat)

  datatype LogicalDeviceConfig = LogicalDeviceConfig(
    queueCreateInfos: seq<QueueCreateInfo>,
    enabledExtensions: seq<string>,
    samplerAnisotropy: bool,
    graphicsQueue: QueueRef,
    presentQueue: QueueRef)

  datatype DeviceContext = DeviceContext(selection: Selection, config: LogicalDeviceConfig)

  /** The queue-create list: the graphics family, then the present and
      transfer families each when it differs from graphics; an entry for
      the graphics family asks for two queues, any other for one. */
  function QueueCreateInfos(graphics: U32, present: U32, transfer: U32): (r: seq<QueueCreateInfo>)
    ensures |r| == 1 + (if present != graphics then 1 else 0) + (if transfer != graphics then 1 else 0)
    ensures r[0] == QueueCreateInfo(graphics, 2)
    ensures forall i :: 1 <= i < |r| ==> r[i].familyIndex != graphics && r[i].queueCount == 1
    ensures present != graphics ==> r[1].familyIndex == present
    ensures transfer != graphics ==> r[|r| - 1].familyIndex == transfer
  {
    var indices := [graphics] + (if present != graphics then [present] else [])
                              + (if transfer != graphics then [transfer] else []);
    seq(|indices|, i requires 0 <= i < |indices| =>
      QueueCreateInfo(indices[i], if indices[i] == graphics then 2 else 1))
  }

  /** Queue `q` lies within what some entry of `infos` asks for. */
  predicate QueueRequested(infos: seq<QueueCreateInfo>, q: QueueRef)
  {
    exists i :: 0 <= i < |infos| && infos[i].familyIndex == q.family && q.index < infos[i].queueCount
  }

  /** Every family the backend uses gets at least one queue. */
  lemma QueueCreateInfosCoverRoles(graphics: U32, present: U32, transfer: U32)
    ensures QueueRequested(QueueCreateInfos(graphics, present, transfer), QueueRef(graphics, 1))
    ensures QueueRequested(QueueCreateInfos(graphics, present, transfer), QueueRef(present, 0))
    ensures QueueRequested(QueueCreateInfos(graphics, present, transfer), QueueRef(transfer, 0))
  {
  }

  /** Present and transfer are not merged with each other: distinct from
      graphics but equal to each other, they get two entries for one
      family. */
  lemma QueueCreateInfosKeepPresentTransferDuplicate(graphics: U32, shared: U32)
    requires shared != graphics
    ensures |QueueCreateInfos(graphics, shared, shared)| == 3
    ensures QueueCreateInfos(graphics, shared, shared)[1] == QueueCreateInfos(graphics, shared, shared)[2]
  {
  }

  /** `vulkan_device_create`: select a device, plan its queues, enable the
      swapchain extension and anisotropic sampling, and fetch queue 0 of
      the graphics and present families. */
  function CreateDevice(devices: seq<PhysicalDevice>, query: FamilyQuery): (r: Result<Option<DeviceContext>, DeviceError>)
    ensures SelectPhysicalDevice(devices, query).Failure? <==> r.Failure?
    ensures r.Success? ==> (r.value.Some? <==> SelectPhysicalDevice(devices, query).value.Some?)
    ensures r.Success? && r.value.Some? ==>
              var ctx := r.value.value;
              && Some(ctx.selection) == SelectPhysicalDevice(devices, query).value
              && ctx.config.queueCreateInfos == QueueCreateInfos(ctx.selection.graphics, ctx.selection.present, ctx.selection.transfer)
              && |ctx.config.queueCreateInfos| > 0
              && ctx.config.queueCreateInfos[0] == QueueCreateInfo(ctx.selection.graphics, 2)
              && QueueRequested(ctx.config.queueCreateInfos, ctx.config.graphicsQueue)
              && QueueRequested(ctx.config.queueCreateInfos, ctx.config.presentQueue)
              && ctx.config.graphicsQueue.family == ctx.selection.graphics
              && ctx.config.presentQueue.family == ctx.selection.present
              && ctx.config.enabledExtensions == [SwapchainExtensionName]
              && ctx.config.samplerAnisotropy
  {
    match SelectPhysicalDevice(devices, query)
    case Failure(e) => Failure(e)
    case Success(None) => Success(None)
    case Success(Some(sel)) =>
      QueueCreateInfosCoverRoles(sel.graphics, sel.present, sel.transfer);
      var infos := QueueCreateInfos(sel.graphics, sel.present, sel.transfer);
      Success(Some(DeviceContext(sel, LogicalDeviceConfig(
        infos, [SwapchainExtensionName], true, QueueRef(sel.graphics, 0), QueueRef(sel.present, 0)))))
  }

  /** End to end with the query as written: no family is ever seen, so
      the scan cannot throw, the first enumerated device is selected with
      every role at the sentinel, and the logical device asks for two
      queues of family 0xFFFFFFFF and nothing else. */
  lemma AsWrittenSelectsFirstDeviceWithoutFamilies(devices: seq<PhysicalDevice>)
    requires |devices| > 0
    ensures CreateDevice(devices, CountAsWritten).Success?
    ensures CreateDevice(devices, CountAsWritten).value.Some?
    ensures var ctx := CreateDevice(devices, CountAsWritten).value.value;
            && ctx.selection == Selection(0, NoFamily, NoFamily, NoFamily, devices[0].swapchainSupport)
            && ctx.config.queueCreateInfos == [QueueCreateInfo(NoFamily, 2)]
            && ctx.config.graphicsQueue == QueueRef(NoFamily, 0)
            && ctx.config.presentQueue == QueueRef(NoFamily, 0)
  {
  }
}
