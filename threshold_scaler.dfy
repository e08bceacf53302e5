/**
 * The threshold-action autoscaler: optional per-instance metrics are compared
 * with fixed integer thresholds to pick one action per resource, and an
 * action adjusts an application instance's allocations in place.
 *
 * The `u64` fields are unbounded `nat`s here; the saturating subtractions of
 * the source are written out.
 */
module ThresholdScaler {
  import opened Common

  // ---------------------------------------------------------------------
  // Metrics
  // ---------------------------------------------------------------------

  /** The metrics one instance may report; each is absent when unsupported. */
  datatype InstanceMetrics = InstanceMetrics(
    cpu_load: Option<nat>,
    ram_pressure: Option<nat>,
    ram_usage: Option<nat>,
    clients: Option<nat>,
    app_response_time: Option<nat>,
    network_latency: Option<nat>,
    disk_bandwidth: Option<nat>)
  {
    /** `get_fields`: the seven (name, value) pairs, in declaration order. */
    function GetFields(): (fields: seq<(string, Option<nat>)>)
      ensures |fields| == |FieldNames|
      ensures forall i :: 0 <= i < |fields| ==> fields[i].0 == FieldNames[i]
      ensures FromFields(fields) == this
    {
      [ ("cpu_load", cpu_load),
        ("ram_pressure", ram_pressure),
        ("ram_usage", ram_usage),
        ("clients", clients),
        ("app_response_time", app_response_time),
        ("network_latency", network_latency),
        ("disk_bandwith", disk_bandwidth) ]
    }
  }

  /** The names `get_fields` reports; the last keeps the source's spelling "disk_bandwith". */
  const FieldNames: seq<string> :=
    ["cpu_load", "ram_pressure", "ram_usage", "clients", "app_response_time", "network_latency", "disk_bandwith"]

  /** The field names are pairwise distinct, so each reported pair identifies one field. */
  lemma FieldNamesDistinct()
    ensures forall i, j :: 0 <= i < j < |FieldNames| ==> FieldNames[i] != FieldNames[j]
  {
  }

  /** Rebuilds the metrics from pairs laid out as `get_fields` lays them out. */
  function FromFields(fields: seq<(string, Option<nat>)>): InstanceMetrics
    requires |fields| == |FieldNames|
  {
    InstanceMetrics(fields[0].1, fields[1].1, fields[2].1, fields[3].1, fields[4].1, fields[5].1, fields[6].1)
  }

  // ---------------------------------------------------------------------
  // Deciding actions
  // ---------------------------------------------------------------------

  datatype ScaleAction = ScaleUp | ScaleDown | ScaleLeft | ScaleRight | NoAction

  datatype ResourceType = CPU | RAM | Clients | ResponseTime

  /** The metric is present and strictly above `t`. */
  predicate Exceeds(m: Option<nat>, t: nat)
  {
    m.Some? && m.value > t
  }

  /** The metric is present and strictly below `t`. */
  predicate Under(m: Option<nat>, t: nat)
  {
    m.Some? && m.value < t
  }

  datatype AutoscalerThresholds = AutoscalerThresholds(
    cpu_threshold: nat,
    ram_threshold: nat,
    client_threshold: nat,
    response_time_threshold: nat)
  {
    /**
     * `decide_all`: one action for each of the four resources. CPU scales up
     * above its threshold and down below half of it (integer division); RAM
     * is judged on `ram_usage` and scales up or left; clients and response
     * time can only scale right. An absent metric gives no action.
     */
    function DecideAll(metrics: InstanceMetrics): (actions: map<ResourceType, ScaleAction>)
      ensures actions.Keys == {CPU, RAM, Clients, ResponseTime}
      ensures actions[CPU] == ScaleUp <==> Exceeds(metrics.cpu_load, cpu_threshold)
      ensures actions[CPU] == ScaleDown <==> Under(metrics.cpu_load, cpu_threshold / 2)
      ensures actions[CPU] in {ScaleUp, ScaleDown, NoAction}
      ensures actions[RAM] == ScaleUp <==> Exceeds(metrics.ram_usage, ram_threshold)
      ensures actions[RAM] == ScaleLeft <==> Under(metrics.ram_usage, ram_threshold / 2)
      ensures actions[RAM] in {ScaleUp, ScaleLeft, NoAction}
      ensures actions[Clients] == ScaleRight <==> Exceeds(metrics.clients, client_threshold)
      ensures actions[Clients] in {ScaleRight, NoAction}
      ensures actions[ResponseTime] == ScaleRight <==> Exceeds(metrics.app_response_time, response_time_threshold)
      ensures actions[ResponseTime] in {ScaleRight, NoAction}
    {
      var cpuAction :=
        match metrics.cpu_load
        case Some(load) =>
          if load > cpu_threshold then ScaleUp
          else if load < cpu_threshold / 2 then ScaleDown
          else NoAction
        case None => NoAction;
      var ramAction :=
        match metrics.ram_usage
        case Some(usage) =>
          if usage > ram_threshold then ScaleUp
          else if usage < ram_threshold / 2 then ScaleLeft
          else NoAction
        case None => NoAction;
      var clientAction :=
        match metrics.clients
        case Some(count) => if count > client_threshold then ScaleRight else NoAction
        case None => NoAction;
      var responseTimeAction :=
        match metrics.app_response_time
        case Some(time) => if time > response_time_threshold then ScaleRight else NoAction
        case None => NoAction;
      map[][CPU := cpuAction][RAM := ramAction][Clients := clientAction][ResponseTime := responseTimeAction]
    }
  }

  /** Orders the actions a single metric can produce from "shrink" through "hold" to "grow". */
  function Rank(a: ScaleAction): int
  {
    match a
    case ScaleDown => -1
    case ScaleLeft => -1
    case NoAction => 0
    case ScaleUp => 1
    case ScaleRight => 1
  }

  /** A higher CPU load or RAM usage never yields a smaller action. */
  lemma DecideMonotone(t: AutoscalerThresholds, m: InstanceMetrics, cpu: nat, cpu': nat, ram: nat, ram': nat)
    requires cpu <= cpu' && ram <= ram'
    ensures Rank(t.DecideAll(m.(cpu_load := Some(cpu)))[CPU]) <= Rank(t.DecideAll(m.(cpu_load := Some(cpu')))[CPU])
    ensures Rank(t.DecideAll(m.(ram_usage := Some(ram)))[RAM]) <= Rank(t.DecideAll(m.(ram_usage := Some(ram')))[RAM])
  {
  }

  /** The decision never reads `ram_pressure`, `network_latency` or `disk_bandwidth`. */
  lemma DecideIgnoresUnreadMetrics(t: AutoscalerThresholds, m: InstanceMetrics, p: Option<nat>, n: Option<nat>, d: Option<nat>)
    ensures t.DecideAll(m) == t.DecideAll(m.(ram_pressure := p, network_latency := n, disk_bandwidth := d))
  {
  }

  /**
   * The source's example run: metrics (75, 60, 100, 150, 200, 50, 100)
   * against thresholds (80, 75, 100, 180) leave CPU alone and scale RAM up
   * and clients and response time right.
   */
  lemma ExampleRunDecisions()
    ensures var m := InstanceMetrics(Some(75), Some(60), Some(100), Some(150), Some(200), Some(50), Some(100));
            AutoscalerThresholds(80, 75, 100, 180).DecideAll(m) ==
              map[CPU := NoAction, RAM := ScaleUp, Clients := ScaleRight, ResponseTime := ScaleRight]
  {
    var m := InstanceMetrics(Some(75), Some(60), Some(100), Some(150), Some(200), Some(50), Some(100));
    var actions := AutoscalerThresholds(80, 75, 100, 180).DecideAll(m);
    assert actions[CPU] == NoAction;
  }

  // ---------------------------------------------------------------------
  // Applying actions to an instance
  // ---------------------------------------------------------------------

  datatype ApplicationState = Healthy | Suspicious | Erroneous | Blacklisted | Down

  datatype ScaleResult = Success

  /** The four allocations of an instance, as one value. */
  datatype Allocation = Allocation(memory: nat, cpu: nat, disk_bandwidth: nat, network_bandwidth: nat)

  /** `u64::saturating_sub`: the difference, or 0 when it would be negative. */
  function SaturatingSub(x: nat, y: nat): (r: nat)
    ensures r <= x
    ensures x >= y ==> r + y == x
    ensures x < y ==> r == 0
  {
    if x >= y then x - y else 0
  }

  /** CPU step of ScaleUp/ScaleDown, in percent of a core. */
  const CpuStep: nat := 10
  /** Memory step of ScaleUp/ScaleDown, in MB. */
  const MemoryStep: nat := 1024
  /** Bandwidth step of ScaleLeft/ScaleRight, in MB/s. */
  const BandwidthStep: nat := 10

  /** What an action does to the allocations of an instance. */
  function Scaled(a: Allocation, action: ScaleAction): (r: Allocation)
    ensures action == ScaleUp ==>
      r == a.(cpu := a.cpu + CpuStep, memory := a.memory + MemoryStep)
    ensures action == ScaleDown ==>
      r.disk_bandwidth == a.disk_bandwidth && r.network_bandwidth == a.network_bandwidth &&
      r.cpu <= a.cpu && r.memory <= a.memory &&
      (a.cpu >= CpuStep ==> r.cpu + CpuStep == a.cpu) && (a.cpu < CpuStep ==> r.cpu == 0) &&
      (a.memory >= MemoryStep ==> r.memory + MemoryStep == a.memory) && (a.memory < MemoryStep ==> r.memory == 0)
    ensures action == ScaleLeft ==>
      r == a.(disk_bandwidth := SaturatingSub(a.disk_bandwidth, BandwidthStep))
    ensures action == ScaleRight ==>
      r == a.(network_bandwidth := a.network_bandwidth + BandwidthStep)
    ensures action == NoAction ==> r == a
  {
    match action
    case ScaleUp => a.(cpu := a.cpu + CpuStep, memory := a.memory + MemoryStep)
    case ScaleDown => a.(cpu := SaturatingSub(a.cpu, CpuStep), memory := SaturatingSub(a.memory, MemoryStep))
    case ScaleLeft => a.(disk_bandwidth := SaturatingSub(a.disk_bandwidth, BandwidthStep))
    case ScaleRight => a.(network_bandwidth := a.network_bandwidth + BandwidthStep)
    case NoAction => a
  }

  /** Scaling down undoes scaling up. */
  lemma ScaleDownUndoesScaleUp(a: Allocation)
    ensures Scaled(Scaled(a, ScaleUp), ScaleDown) == a
  {
  }

  /** Scaling up undoes scaling down exactly when neither subtraction saturated. */
  lemma ScaleUpUndoesScaleDownIff(a: Allocation)
    ensures Scaled(Scaled(a, ScaleDown), ScaleUp) == a <==> a.cpu >= CpuStep && a.memory >= MemoryStep
  {
  }

  /**
   * Low RAM usage is answered with ScaleLeft, which lowers only the disk
   * bandwidth: the memory allocation is left as it was.
   */
  lemma LowRamShrinksDiskNotMemory(t: AutoscalerThresholds, m: InstanceMetrics, a: Allocation)
    requires Under(m.ram_usage, t.ram_threshold / 2)
    ensures var r := Scaled(a, t.DecideAll(m)[RAM]);
            r.memory == a.memory && r.disk_bandwidth == SaturatingSub(a.disk_bandwidth, BandwidthStep)
  {
  }

  /** An application instance; the scaler changes its allocations in place. */
  class AppInstance {
    var state: ApplicationState
    var allocated_memory: nat
    var allocated_cpu: nat
    var allocated_disk_bandwidth: nat
    var allocated_network_bandwidth: nat

    constructor (state: ApplicationState, a: Allocation)
      ensures this.state == state && Allocations() == a
    {
      this.state := state;
      allocated_memory := a.memory;
      allocated_cpu := a.cpu;
      allocated_disk_bandwidth := a.disk_bandwidth;
      allocated_network_bandwidth := a.network_bandwidth;
    }

    /** The current allocations, as one value. */
    function Allocations(): Allocation
      reads this
    {
      Allocation(allocated_memory, allocated_cpu, allocated_disk_bandwidth, allocated_network_bandwidth)
    }
  }

  /** The example scaler, holding the metrics it last recorded (the mutex is plain field access here). */
  class ExampleScaler {
    var metrics: InstanceMetrics

    constructor (metrics: InstanceMetrics)
      ensures this.metrics == metrics
    {
      this.metrics := metrics;
    }

    /** `scale`: applies one action to the instance's allocations and always reports success. */
    method Scale(instance: AppInstance, action: ScaleAction) returns (r: ScaleResult)
      modifies instance
      ensures instance.Allocations() == Scaled(old(instance.Allocations()), action)
      ensures instance.state == old(instance.state)
      ensures r == Success
    {
      match action {
        case ScaleUp =>
          instance.allocated_cpu := instance.allocated_cpu + CpuStep;
          instance.allocated_memory := instance.allocated_memory + MemoryStep;
        case ScaleDown =>
          instance.allocated_cpu := SaturatingSub(instance.allocated_cpu, CpuStep);
          instance.allocated_memory := SaturatingSub(instance.allocated_memory, MemoryStep);
        case ScaleLeft =>
          instance.allocated_disk_bandwidth := SaturatingSub(instance.allocated_disk_bandwidth, BandwidthStep);
        case ScaleRight =>
          instance.allocated_network_bandwidth := instance.allocated_network_bandwidth + BandwidthStep;
        case NoAction =>
      }
      r := Success;
    }

    /** `reallocate_memory`: records the new memory figure as the RAM usage. */
    method ReallocateMemory(megabytes: nat)
      modifies this
      ensures metrics == old(metrics).(ram_usage := Some(megabytes))
    {
      metrics := metrics.(ram_usage := Some(megabytes));
    }

    /** `reallocate_cpu`: records the new CPU figure as the CPU load. */
    method ReallocateCpu(percentage: nat)
      modifies this
      ensures metrics == old(metrics).(cpu_load := Some(percentage))
    {
      metrics := metrics.(cpu_load := Some(percentage));
    }

    /** `reallocate_disk_bandwidth`: records the new figure as the disk bandwidth. */
    method ReallocateDiskBandwidth(megabytesPerSecond: nat)
      modifies this
      ensures metrics == old(metrics).(disk_bandwidth := Some(megabytesPerSecond))
    {
      metrics := metrics.(disk_bandwidth := Some(megabytesPerSecond));
    }

    /** `reallocate_network_bandwidth`: records the new figure in the network latency field, as the source does. */
    method ReallocateNetworkBandwidth(megabytesPerSecond: nat)
      modifies this
      ensures metrics == old(metrics).(network_latency := Some(megabytesPerSecond))
    {
      metrics := metrics.(network_latency := Some(megabytesPerSecond));
    }
  }

  /** Each reallocation shows up in exactly one of the reported fields. */
  lemma ReallocationVisibleInFields(m: InstanceMetrics, v: nat)
    ensures m.(ram_usage := Some(v)).GetFields() == m.GetFields()[2 := ("ram_usage", Some(v))]
    ensures m.(cpu_load := Some(v)).GetFields() == m.GetFields()[0 := ("cpu_load", Some(v))]
    ensures m.(disk_bandwidth := Some(v)).GetFields() == m.GetFields()[6 := ("disk_bandwith", Some(v))]
    ensures m.(network_latency := Some(v)).GetFields() == m.GetFields()[5 := ("network_latency", Some(v))]
  {
  }
}
