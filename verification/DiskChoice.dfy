/** Choosing the target disk from the configuration (`disk.rs`, `run.rs`). */
module DiskChoice {
  import opened Wrappers

  /** A detected device; `ssd` as `is_ssd` reports it. */
  datatype Device = Device(path: string, size: nat, ssd: bool)

  datatype Strategy = LargestSsd | Largest | Smallest
  datatype Selector = ByPath(path: string) | ByStrategy(strategy: Strategy)

  datatype ChoiceError = NoEligible | NotFound(path: string) | NoSsd

  /** The devices that are not the boot device, in order. */
  function Eligible(devices: seq<Device>, boot: Option<string>): seq<Device> {
    if devices == [] then []
    else (if boot == Some(devices[0].path) then [] else [devices[0]]) + Eligible(devices[1..], boot)
  }

  function Ssds(devices: seq<Device>): seq<Device> {
    if devices == [] then []
    else (if devices[0].ssd then [devices[0]] else []) + Ssds(devices[1..])
  }

  function WithPath(devices: seq<Device>, path: string): seq<Device> {
    if devices == [] then []
    else (if devices[0].path == path then [devices[0]] else []) + WithPath(devices[1..], path)
  }

  /** `max_by_key`: the last of the largest. */
  function MaxBySize(devices: seq<Device>): (d: Device)
    requires devices != []
  {
    var last := devices[|devices| - 1];
    if |devices| == 1 then last
    else
      var best := MaxBySize(devices[..|devices| - 1]);
      if best.size <= last.size then last else best
  }

  /** `min_by_key`: the first of the smallest. */
  function MinBySize(devices: seq<Device>): (d: Device)
    requires devices != []
  {
    var last := devices[|devices| - 1];
    if |devices| == 1 then last
    else
      var best := MinBySize(devices[..|devices| - 1]);
      if last.size < best.size then last else best
  }

  function FirstWithPath(devices: seq<Device>, path: string): Option<Device> {
    if devices == [] then None
    else if devices[0].path == path then Some(devices[0])
    else FirstWithPath(devices[1..], path)
  }

  /** `resolve_disk`. */
  function ResolveDisk(selector: Selector, devices: seq<Device>, boot: Option<string>): Result<Device, ChoiceError> {
    var eligible := Eligible(devices, boot);
    if eligible == [] then Failure(NoEligible)
    else
      match selector
      case ByPath(path) =>
        (match FirstWithPath(eligible, path)
         case Some(d) => Success(d)
         case None => Failure(NotFound(path)))
      case ByStrategy(LargestSsd) =>
        if Ssds(eligible) == [] then Failure(NoSsd) else Success(MaxBySize(Ssds(eligible)))
      case ByStrategy(Largest) => Success(MaxBySize(eligible))
      case ByStrategy(Smallest) => Success(MinBySize(eligible))
  }

  // ---- What is chosen ----

  /** The devices a selector can choose from. */
  function Candidates(selector: Selector, devices: seq<Device>, boot: Option<string>): seq<Device> {
    var eligible := Eligible(devices, boot);
    match selector
    case ByPath(path) => WithPath(eligible, path)
    case ByStrategy(s) => if s.LargestSsd? then Ssds(eligible) else eligible
  }

  predicate Qualifies(d: Device, selector: Selector, boot: Option<string>) {
    && boot != Some(d.path)
    && (selector.ByPath? ==> d.path == selector.path)
    && (selector == ByStrategy(LargestSsd) ==> d.ssd)
  }

  lemma {:induction false} EligibleMeans(devices: seq<Device>, boot: Option<string>, d: Device)
    ensures d in Eligible(devices, boot) <==> d in devices && boot != Some(d.path)
  {
    if devices != [] {
      EligibleMeans(devices[1..], boot, d);
    }
  }

  lemma {:induction false} FiltersMean(devices: seq<Device>, path: string, d: Device)
    ensures d in Ssds(devices) <==> d in devices && d.ssd
    ensures d in WithPath(devices, path) <==> d in devices && d.path == path
  {
    if devices != [] {
      FiltersMean(devices[1..], path, d);
    }
  }

  /** The candidates are the devices that qualify; the boot device never does. */
  lemma CandidatesQualify(selector: Selector, devices: seq<Device>, boot: Option<string>, d: Device)
    ensures d in Candidates(selector, devices, boot) <==> d in devices && Qualifies(d, selector, boot)
  {
    EligibleMeans(devices, boot, d);
    FiltersMean(Eligible(devices, boot), if selector.ByPath? then selector.path else "", d);
  }

  /** Candidate `i` is preferred: the first with the path, the last of the largest, the first of the smallest. */
  predicate Preferred(selector: Selector, c: seq<Device>, i: nat)
    requires i < |c|
  {
    match selector
    case ByPath(_) => i == 0
    case ByStrategy(s) =>
      if s.Smallest? then forall j :: 0 <= j < |c| ==> c[i].size < c[j].size || (c[i].size == c[j].size && i <= j)
      else forall j :: 0 <= j < |c| ==> c[j].size < c[i].size || (c[j].size == c[i].size && j <= i)
  }

  lemma {:induction false} MaxIsPreferred(c: seq<Device>) returns (i: nat)
    requires c != []
    ensures i < |c| && c[i] == MaxBySize(c)
    ensures forall j :: 0 <= j < |c| ==> c[j].size < c[i].size || (c[j].size == c[i].size && j <= i)
  {
    i := |c| - 1;
    if |c| > 1 {
      var k := MaxIsPreferred(c[..|c| - 1]);
      if c[k].size > c[i].size {
        i := k;
      }
    }
  }

  lemma {:induction false} MinIsPreferred(c: seq<Device>) returns (i: nat)
    requires c != []
    ensures i < |c| && c[i] == MinBySize(c)
    ensures forall j :: 0 <= j < |c| ==> c[i].size < c[j].size || (c[i].size == c[j].size && i <= j)
  {
    i := |c| - 1;
    if |c| > 1 {
      var k := MinIsPreferred(c[..|c| - 1]);
      if c[k].size <= c[i].size {
        i := k;
      }
    }
  }

  lemma {:induction false} FirstIsFirst(devices: seq<Device>, path: string)
    ensures var c := WithPath(devices, path);
      FirstWithPath(devices, path) == if c == [] then None else Some(c[0])
  {
    if devices != [] {
      FirstIsFirst(devices[1..], path);
    }
  }

  /** Resolving fails exactly if no device qualifies, and otherwise gives the preferred one. */
  lemma ResolveExact(selector: Selector, devices: seq<Device>, boot: Option<string>)
    ensures var c := Candidates(selector, devices, boot);
      && (ResolveDisk(selector, devices, boot).Failure? <==> c == [])
      && (c != [] ==> exists i ::
            0 <= i < |c| && Preferred(selector, c, i) && ResolveDisk(selector, devices, boot) == Success(c[i]))
  {
    var eligible, c := Eligible(devices, boot), Candidates(selector, devices, boot);
    match selector
    case ByPath(path) =>
      FirstIsFirst(eligible, path);
      assert c != [] ==> Preferred(selector, c, 0);
    case ByStrategy(s) =>
      if c != [] {
        var i;
        if s.Smallest? {
          i := MinIsPreferred(c);
        } else {
          i := MaxIsPreferred(c);
        }
        assert Preferred(selector, c, i);
      }
  }

  // ---- The disk selected at first ----

  function PathPosition(devices: seq<Device>, path: string): (k: nat)
    ensures k <= |devices|
    ensures k < |devices| ==> devices[k].path == path
    ensures forall i :: 0 <= i < k ==> devices[i].path != path
  {
    if devices == [] || devices[0].path == path then 0 else 1 + PathPosition(devices[1..], path)
  }

  /** `default_disk_index`: the position of the configured disk, if it resolves. */
  function DefaultDisk(selector: Option<Selector>, devices: seq<Device>, boot: Option<string>): (k: Option<nat>)
    ensures k.Some? ==> k.value < |devices|
  {
    if selector.None? then None
    else
      match ResolveDisk(selector.value, devices, boot)
      case Failure(_) => None
      case Success(d) =>
        var k := PathPosition(devices, d.path);
        if k < |devices| then Some(k) else None
  }

  /** The disk selected at first exists, qualifies by its path, and is the resolved
      one if no two devices share a path. */
  lemma DefaultDiskOk(selector: Selector, devices: seq<Device>, boot: Option<string>)
    ensures var k := DefaultDisk(Some(selector), devices, boot);
      && (k.None? <==> forall d :: d in devices ==> !Qualifies(d, selector, boot))
      && (k.Some? ==> boot != Some(devices[k.value].path))
      && (k.Some? && (forall i, j :: 0 <= i < j < |devices| ==> devices[i].path != devices[j].path) ==>
            ResolveDisk(selector, devices, boot) == Success(devices[k.value]))
  {
    hide ResolveDisk, Candidates, Qualifies;
    ResolveExact(selector, devices, boot);
    var c := Candidates(selector, devices, boot);
    forall d
      ensures d in c <==> d in devices && Qualifies(d, selector, boot)
    {
      CandidatesQualify(selector, devices, boot, d);
    }
    if c != [] {
      var i :| 0 <= i < |c| && ResolveDisk(selector, devices, boot) == Success(c[i]);
      assert c[i] in devices;
      NotBoot(c[i], selector, boot);
    } else {
      assert forall d :: d in devices ==> d !in c;
    }
  }

  lemma NotBoot(d: Device, selector: Selector, boot: Option<string>)
    requires Qualifies(d, selector, boot)
    ensures boot != Some(d.path)
  {
  }
}
