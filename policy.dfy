/**
 The provisioning policy that the controller applies to a new namespace, as
 values: the two generated object names, the two request bodies, the create
 calls the handler issues and the log lines it emits for given outcomes.
 The handler itself, which issues the calls one after the other against a
 client, is in module Controller and is proved against these functions.
 */
module Policy {
  import opened Matching

  /** A resource list maps a resource name to a quantity. Quantities are
      plain integers here (bytes for memory, a count for object kinds). */
  type ResourceList = map<string, int>

  /** The kinds of limit a LimitRange item can carry. */
  datatype LimitType = Pod | Container | PersistentVolumeClaim

  /** The part of an object's metadata the controller sets. */
  datatype ObjectMeta = ObjectMeta(name: string, namespace: string)

  datatype LimitRangeItem = LimitRangeItem(
    kind: LimitType,
    default: ResourceList,
    defaultRequest: ResourceList)

  datatype LimitRange = LimitRange(meta: ObjectMeta, limits: seq<LimitRangeItem>)

  datatype ResourceQuota = ResourceQuota(meta: ObjectMeta, hard: ResourceList)

  /** A create call as the cluster receives it: the namespace of the typed
      client it goes through (`LimitRanges(ns)`, `ResourceQuotas(ns)`) and
      the object to create. */
  datatype CreateRequest =
    | CreateLimitRange(target: string, limitRange: LimitRange)
    | CreateResourceQuota(target: string, quota: ResourceQuota)

  /** What a create call returns: success, or an error with its text. */
  datatype Outcome = Created | Failed(message: string)

  /** The kinds of line the handler logs. A failure line carries the error
      text only; a success or skip line carries the namespace name. */
  datatype LogLine =
    | SkipAdmin(namespace: string)
    | LimitRangeCreated(namespace: string)
    | LimitRangeFailed(message: string)
    | QuotaCreated(namespace: string)
    | QuotaFailed(message: string)
  {
    predicate ReportsFailure() { LimitRangeFailed? || QuotaFailed? }
  }

  const LimitRangePrefix: string := "lr-auto-"
  const QuotaPrefix: string := "rq-auto-"

  /** 128 MiB, the default and default request for container memory. */
  const DefaultMemory: int := 128 * 1024 * 1024

  const MemoryResource: string := "memory"
  const LoadBalancersResource: string := "services.loadbalancers"
  const NodePortsResource: string := "services.nodeports"

  /** The name of the LimitRange created in namespace `ns`. */
  function LimitRangeName(ns: string): (r: string)
    ensures |r| == |LimitRangePrefix| + |ns|
    ensures r[..|LimitRangePrefix|] == LimitRangePrefix && r[|LimitRangePrefix|..] == ns
  {
    LimitRangePrefix + ns
  }

  /** The name of the ResourceQuota created in namespace `ns`. */
  function ResourceQuotaName(ns: string): (r: string)
    ensures |r| == |QuotaPrefix| + |ns|
    ensures r[..|QuotaPrefix|] == QuotaPrefix && r[|QuotaPrefix|..] == ns
  {
    QuotaPrefix + ns
  }

  /** Each generated name determines its namespace, and no LimitRange name
      is ever a ResourceQuota name, so the two objects never collide. */
  lemma GeneratedNamesDistinct(a: string, b: string)
    ensures LimitRangeName(a) == LimitRangeName(b) <==> a == b
    ensures ResourceQuotaName(a) == ResourceQuotaName(b) <==> a == b
    ensures LimitRangeName(a) != ResourceQuotaName(b)
  {
  }

  /** The LimitRange requested for namespace `ns`. */
  function LimitRangeFor(ns: string): (lr: LimitRange)
    ensures lr.meta == ObjectMeta(LimitRangeName(ns), ns)
    ensures |lr.limits| == 1 && lr.limits[0].kind == Container
    ensures lr.limits[0].default == map["memory" := 134217728]
    ensures lr.limits[0].defaultRequest == map["memory" := 134217728]
  {
    LimitRange(
      ObjectMeta(LimitRangeName(ns), ns),
      [LimitRangeItem(Container,
                      map[MemoryResource := DefaultMemory],
                      map[MemoryResource := DefaultMemory])])
  }

  /** The ResourceQuota requested for namespace `ns`. */
  function QuotaFor(ns: string): (q: ResourceQuota)
    ensures q.meta == ObjectMeta(ResourceQuotaName(ns), ns)
    ensures q.hard.Keys == {"services.loadbalancers", "services.nodeports"}
    ensures forall r | r in q.hard :: q.hard[r] == 0
  {
    ResourceQuota(
      ObjectMeta(ResourceQuotaName(ns), ns),
      map[LoadBalancersResource := 0, NodePortsResource := 0])
  }

  /** Only the metadata of the two bodies depends on the namespace. */
  lemma BodiesIndependentOfName(a: string, b: string)
    ensures LimitRangeFor(a).limits == LimitRangeFor(b).limits
    ensures QuotaFor(a).hard == QuotaFor(b).hard
    ensures LimitRangeFor(a).meta == LimitRangeFor(b).meta <==> a == b
    ensures QuotaFor(a).meta == QuotaFor(b).meta <==> a == b
  {
  }

  /** The create calls the handler issues for namespace `ns`, in order. */
  function Requests(ns: string): (rs: seq<CreateRequest>)
    ensures |rs| == if IsAdmin(ns) then 0 else 2
    ensures forall i | 0 <= i < |rs| :: rs[i].target == ns
  {
    if IsAdmin(ns) then []
    else [CreateLimitRange(ns, LimitRangeFor(ns)), CreateResourceQuota(ns, QuotaFor(ns))]
  }

  /** The line logged after the LimitRange create returned `o`. */
  function LimitRangeReport(ns: string, o: Outcome): (line: LogLine)
    ensures line.LimitRangeCreated? || line.LimitRangeFailed?
    ensures line.LimitRangeFailed? <==> o.Failed?
  {
    match o
    case Created => LimitRangeCreated(ns)
    case Failed(message) => LimitRangeFailed(message)
  }

  /** The line logged after the ResourceQuota create returned `o`. */
  function QuotaReport(ns: string, o: Outcome): (line: LogLine)
    ensures line.QuotaCreated? || line.QuotaFailed?
    ensures line.QuotaFailed? <==> o.Failed?
  {
    match o
    case Created => QuotaCreated(ns)
    case Failed(message) => QuotaFailed(message)
  }

  /** The lines the handler logs for namespace `ns` when its create calls
      return `outcomes`, one outcome per request of `Requests(ns)`. */
  function HandlerLog(ns: string, outcomes: seq<Outcome>): (log: seq<LogLine>)
    requires |outcomes| == |Requests(ns)|
    ensures |log| == if IsAdmin(ns) then 1 else |outcomes|
    ensures forall i | 0 <= i < |log| :: log[i].SkipAdmin? <==> IsAdmin(ns)
  {
    if IsAdmin(ns) then [SkipAdmin(ns)]
    else [LimitRangeReport(ns, outcomes[0]), QuotaReport(ns, outcomes[1])]
  }

  /** An administrative namespace gets no create call and one skip line. */
  lemma AdminNamespaceSkipped(ns: string)
    requires IsAdmin(ns)
    ensures Requests(ns) == []
    ensures HandlerLog(ns, []) == [SkipAdmin(ns)]
  {
  }

  /** Any other namespace gets exactly two create calls, the LimitRange
      first, then the ResourceQuota, each sent to the namespace itself and
      each naming an object of that namespace. */
  lemma OtherNamespaceProvisioned(ns: string)
    requires !IsAdmin(ns)
    ensures |Requests(ns)| == 2
    ensures Requests(ns)[0].CreateLimitRange? && Requests(ns)[1].CreateResourceQuota?
    ensures Requests(ns)[0].target == ns && Requests(ns)[0].limitRange.meta.namespace == ns
    ensures Requests(ns)[0].limitRange.meta.name == "lr-auto-" + ns
    ensures Requests(ns)[1].target == ns && Requests(ns)[1].quota.meta.namespace == ns
    ensures Requests(ns)[1].quota.meta.name == "rq-auto-" + ns
  {
  }

  /** Each create attempt is reported by exactly one line, a failure line
      exactly when that attempt failed; the skip line appears exactly for
      administrative namespaces. */
  lemma LogReportsEachAttempt(ns: string, outcomes: seq<Outcome>)
    requires |outcomes| == |Requests(ns)|
    ensures |HandlerLog(ns, outcomes)| == if IsAdmin(ns) then 1 else |outcomes|
    ensures !IsAdmin(ns) ==> forall i | 0 <= i < |outcomes| ::
              HandlerLog(ns, outcomes)[i].ReportsFailure() <==> outcomes[i].Failed?
    ensures (exists i | 0 <= i < |HandlerLog(ns, outcomes)| :: HandlerLog(ns, outcomes)[i].SkipAdmin?)
              <==> IsAdmin(ns)
  {
    if IsAdmin(ns) {
      assert HandlerLog(ns, outcomes)[0].SkipAdmin?;
    }
  }

  /** A failure line carries the error text of the attempt that failed, and
      a success line names the namespace. */
  lemma ReportsCarryDetails(ns: string, o: Outcome)
    ensures LimitRangeReport(ns, o).LimitRangeFailed? <==> o.Failed?
    ensures QuotaReport(ns, o).QuotaFailed? <==> o.Failed?
    ensures o.Failed? ==> LimitRangeReport(ns, o).message == o.message == QuotaReport(ns, o).message
    ensures o.Created? ==> LimitRangeReport(ns, o).namespace == ns == QuotaReport(ns, o).namespace
  {
  }
}
