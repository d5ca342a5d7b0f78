/** Properties of the per-service alert status. */
module AlertProperties {
  import opened Wrappers
  import opened PyValues
  import opened Alert
  import opened Formatable
  import opened FormatableProperties

  /** `n` raises of one service, with the given status infos, one after the other. */
  function RaiseAll(st: Statuses, service: Option<string>, infos: seq<Value>): Statuses
    decreases |infos|
  {
    if infos == [] then st
    else RaiseSpec(RaiseAll(st, service, infos[..|infos| - 1]), service, infos[|infos| - 1])
  }

  /** Each raise adds one to the service's count (from 0 for an unseen service) and keeps
      the last status info; the other services are untouched. */
  lemma {:induction false} RaisesCount(st: Statuses, service: Option<string>, infos: seq<Value>)
    requires infos != []
    ensures var st' := RaiseAll(st, service, infos);
      && service in st'
      && st'[service].0 == (if service in st then st[service].0 else 0) + |infos|
      && st'[service].1 == infos[|infos| - 1]
      && (forall s :: s != service ==> (s in st' <==> s in st) && (s in st ==> st'[s] == st[s]))
    decreases |infos|
  {
    if |infos| > 1 {
      RaisesCount(st, service, infos[..|infos| - 1]);
    }
  }

  /** Resolving sets the count to 0 whatever it was, so the next raise counts 1 again. */
  lemma ResolveResets(st: Statuses, service: Option<string>, info: Value, next: Value)
    ensures ResolveSpec(st, service, info)[service] == (0, info)
    ensures RaiseSpec(ResolveSpec(st, service, info), service, next)[service] == (1, next)
    ensures service !in st ==> RaiseSpec(st, service, next)[service] == (1, next)
  {
  }

  /** The fields DynamicAlert declares, in order, each with default None. */
  function DynamicAlertFields(): (fs: seq<Field>)
    ensures DistinctNames(fs)
  {
    var fs := [Field("name", VNone, "name"), Field("severity", VNone, "severity"),
               Field("hostname", VNone, "hostname"), Field("status_info", VNone, "status_info"),
               Field("agent_id", VNone, "agent_id")];
    assert forall i, j :: 0 <= i < j < |fs| ==> fs[i].name != fs[j].name by {
      assert fs[0].name == "name" && fs[1].name == "severity" && fs[2].name == "hostname";
      assert fs[3].name == "status_info" && fs[4].name == "agent_id";
    }
    fs
  }

  /** The keyword arguments DynamicAlert.__call__ passes for the four plain values. */
  function CallKwargs(name: string, hostname: string, agentId: string, statusInfo: Value): map<string, Value> {
    map["name" := VStr(name), "hostname" := VStr(hostname), "agent_id" := VStr(agentId),
        "status_info" := statusInfo]
  }

  /** The alert a DynamicAlert produces holds what a formatable instance of DynamicAlert's
      fields built from the same keyword arguments holds: `type(self)(name=..., ...)`. */
  lemma DynamicAlertIsFormatable(f: AlertFactory, hostname: string, agentId: string, statusInfo: Value,
                                 attrs: map<string, Value>)
    requires f.kind == Dynamic && f.name.Some? && f.severity.Some?
    ensures var a := FillSpec(attrs, DynamicAlertFields(), CallKwargs(f.name.value, hostname, agentId, statusInfo), false);
      var alert := CallFactory(f, hostname, agentId, statusInfo).value;
      && "name" in a && a["name"] == alert.name
      && "hostname" in a && a["hostname"] == alert.hostname
      && "agent_id" in a && a["agent_id"] == alert.agentId
      && "status_info" in a && a["status_info"] == alert.statusInfo
  {
    var fields := DynamicAlertFields();
    var kwargs := CallKwargs(f.name.value, hostname, agentId, statusInfo);
    assert kwargs["name"] == VStr(f.name.value) && kwargs["hostname"] == VStr(hostname);
    assert kwargs["agent_id"] == VStr(agentId) && kwargs["status_info"] == statusInfo;
    FillAt(attrs, fields, kwargs, false, 0);
    FillAt(attrs, fields, kwargs, false, 2);
    FillAt(attrs, fields, kwargs, false, 3);
    FillAt(attrs, fields, kwargs, false, 4);
  }

  /** A DynamicAlert raised with a false status info (an empty string, 0, an empty dict)
      posts None as its status info; an alert class posts it as given. */
  lemma FalseStatusInfoBecomesNone(f: AlertFactory, hostname: string, agentId: string, statusInfo: Value)
    requires f.name.Some? && f.severity.Some? && !Truthy(statusInfo)
    ensures f.kind == Dynamic ==> CallFactory(f, hostname, agentId, statusInfo).value.statusInfo == VNone
    ensures f.kind == AlertClass ==> CallFactory(f, hostname, agentId, statusInfo).value.statusInfo == statusInfo
  {
  }
}
