/**
 The namespace-added handler of the controller, step by step: classify the
 name, issue the LimitRange create, log its outcome, issue the ResourceQuota
 create, log its outcome. The cluster API is a client object that records
 every create call it receives and answers each with an outcome it chooses
 freely; the process log is a sink object that records every line.
 */
module Controller {
  import opened Matching
  import opened Policy

  /** One create call received by the client, with the answer it gave. */
  datatype Call = Call(request: CreateRequest, outcome: Outcome)

  /** The requests of `calls`, in order. */
  function RequestsOf(calls: seq<Call>): seq<CreateRequest>
  {
    seq(|calls|, i requires 0 <= i < |calls| => calls[i].request)
  }

  /** The outcomes of `calls`, in order. */
  function OutcomesOf(calls: seq<Call>): seq<Outcome>
  {
    seq(|calls|, i requires 0 <= i < |calls| => calls[i].outcome)
  }

  /** The cluster API. Whether a create succeeds is up to the cluster (an
      object of that name may already exist, the request may be refused, the
      network may fail), so each call may return either outcome. */
  class ApiClient {
    var calls: seq<Call>

    constructor ()
      ensures calls == []
    {
      calls := [];
    }

    /** `LimitRanges(namespace).Create(body)`. */
    method CreateLimitRange(namespace: string, body: LimitRange) returns (outcome: Outcome)
      modifies this
      ensures calls == old(calls) + [Call(CreateRequest.CreateLimitRange(namespace, body), outcome)]
    {
      outcome := *;
      calls := calls + [Call(CreateRequest.CreateLimitRange(namespace, body), outcome)];
    }

    /** `ResourceQuotas(namespace).Create(body)`. */
    method CreateResourceQuota(namespace: string, body: ResourceQuota) returns (outcome: Outcome)
      modifies this
      ensures calls == old(calls) + [Call(CreateRequest.CreateResourceQuota(namespace, body), outcome)]
    {
      outcome := *;
      calls := calls + [Call(CreateRequest.CreateResourceQuota(namespace, body), outcome)];
    }
  }

  /** The process-wide log. */
  class LogSink {
    var lines: seq<LogLine>

    constructor ()
      ensures lines == []
    {
      lines := [];
    }

    method Println(line: LogLine)
      modifies this
      ensures lines == old(lines) + [line]
    {
      lines := lines + [line];
    }
  }

  class NamespaceController {
    const client: ApiClient
    const log: LogSink

    constructor (client: ApiClient, log: LogSink)
      ensures this.client == client && this.log == log
    {
      this.client := client;
      this.log := log;
    }

    /** The handler for a namespace-added event. It returns nothing and
        raises nothing: whatever the cluster answers, the calls it issues
        are exactly `Requests(namespaceName)`, each once and in order, and
        the answers only decide which lines are logged. */
    method CreateCustomRules(namespaceName: string)
      modifies client, log
      ensures |client.calls| == |old(client.calls)| + |Requests(namespaceName)|
      ensures client.calls[..|old(client.calls)|] == old(client.calls)
      ensures RequestsOf(client.calls[|old(client.calls)|..]) == Requests(namespaceName)
      ensures log.lines ==
                old(log.lines) + HandlerLog(namespaceName, OutcomesOf(client.calls[|old(client.calls)|..]))
    {
      ghost var before := client.calls;
      var adminNamespace := IsAdmin(namespaceName);
      var limitRangeName := LimitRangeName(namespaceName);
      if !adminNamespace {
        var limit := LimitRange(
          ObjectMeta(limitRangeName, namespaceName),
          [LimitRangeItem(Container,
                          map[MemoryResource := DefaultMemory],
                          map[MemoryResource := DefaultMemory])]);
        var outcome := client.CreateLimitRange(namespaceName, limit);
        if outcome.Failed? {
          log.Println(LimitRangeFailed(outcome.message));
        } else {
          log.Println(LimitRangeCreated(namespaceName));
        }

        var resourceQuotaName := ResourceQuotaName(namespaceName);
        var quota := ResourceQuota(
          ObjectMeta(resourceQuotaName, namespaceName),
          map[LoadBalancersResource := 0, NodePortsResource := 0]);
        var outcome' := client.CreateResourceQuota(namespaceName, quota);
        if outcome'.Failed? {
          log.Println(QuotaFailed(outcome'.message));
        } else {
          log.Println(QuotaCreated(namespaceName));
        }
        assert client.calls[|before|..] == [Call(Requests(namespaceName)[0], outcome), Call(Requests(namespaceName)[1], outcome')];
      } else {
        log.Println(SkipAdmin(namespaceName));
        assert client.calls[|before|..] == [];
      }
    }
  }

  /** What a caller can conclude from the handler's contract alone: a
      tenant namespace gets both objects requested, and whatever the
      LimitRange create returned, the ResourceQuota is still requested. */
  method HandleTenantNamespace()
  {
    var client := new ApiClient();
    var log := new LogSink();
    var controller := new NamespaceController(client, log);
    NonAdminExamples();

    controller.CreateCustomRules("team-a");
    var calls := client.calls;
    assert calls[0..] == calls;
    assert |calls| == 2;
    assert RequestsOf(calls)[0] == calls[0].request;
    assert RequestsOf(calls)[1] == calls[1].request;
    assert calls[0].request == CreateLimitRange("team-a", LimitRangeFor("team-a"));
    assert calls[1].request == CreateResourceQuota("team-a", QuotaFor("team-a"));
    assert OutcomesOf(calls)[1] == calls[1].outcome;
    assert |log.lines| == 2 && log.lines[1] == QuotaReport("team-a", calls[1].outcome);
  }

  /** An administrative namespace gets no create call, only a skip line. */
  method HandleAdminNamespace()
  {
    var client := new ApiClient();
    var log := new LogSink();
    var controller := new NamespaceController(client, log);
    AdminExamples();

    controller.CreateCustomRules("kube-system");
    assert client.calls == [];
    assert log.lines == [SkipAdmin("kube-system")];
  }
}
