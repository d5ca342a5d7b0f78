/**
  Agent alerts, src/feat/agents/base/alert.py: an agent keeps the alert factories it may
  raise alerts with, per service name, and a status per service (a count of raises since
  the last resolution, and the last status info). Raising or resolving notifies the alert
  poster with an alert the service's factory produces.
*/
module Alert {
  import opened Wrappers
  import opened PyValues

  /** The severities the agents in this repository use. */
  datatype Severity = warn | critical

  /** What kind of alert factory is registered: an alert class (a BaseAlert subclass),
      whose instances keep the values they are built with, or a DynamicAlert value, whose
      instances are formatable records with every field defaulting to None, so that a
      false value given for a field becomes None. */
  datatype FactoryKind = AlertClass | Dynamic

  /** An alert factory; either kind's name and severity may be unset. */
  datatype AlertFactory = AlertFactory(kind: FactoryKind, name: Option<string>, severity: Option<Severity>)

  /** The attributes of a raised alert, as the Python values they hold. */
  datatype RaisedAlert = RaisedAlert(name: Value, severity: Severity, hostname: Value,
                                     agentId: Value, statusInfo: Value)

  /** The assertion a call fails. */
  datatype AlertError = UnknownService | NoName | NoSeverity

  datatype Action = Raised | Resolved

  /** The value a DynamicAlert field ends up holding: the formatable rule
      `value or copy.copy(None)`. */
  function Formatted(v: Value): Value {
    Or(v, VNone)
  }

  /** Calling a factory (DynamicAlert.__call__, or instantiating a BaseAlert class): the
      factory's name and severity must be set. An alert class keeps the name, severity,
      hostname, agent id and status info as given; a DynamicAlert keeps each one only when
      it is true and holds None in its place otherwise. */
  function CallFactory(f: AlertFactory, hostname: string, agentId: string, statusInfo: Value)
    : (r: Result<RaisedAlert, AlertError>)
    ensures r.Ok? <==> f.name.Some? && f.severity.Some?
    ensures f.name.None? ==> r == Err(NoName)
    ensures f.name.Some? && f.severity.None? ==> r == Err(NoSeverity)
    ensures r.Ok? ==> r.value.severity == f.severity.value
    ensures r.Ok? && f.kind == AlertClass ==>
      r.value == RaisedAlert(VStr(f.name.value), f.severity.value, VStr(hostname), VStr(agentId), statusInfo)
    ensures r.Ok? && f.kind == Dynamic ==>
      && r.value.name == (if f.name.value != "" then VStr(f.name.value) else VNone)
      && r.value.hostname == (if hostname != "" then VStr(hostname) else VNone)
      && r.value.agentId == (if agentId != "" then VStr(agentId) else VNone)
      && r.value.statusInfo == (if Truthy(statusInfo) then statusInfo else VNone)
  {
    if f.name.None? then Err(NoName)
    else if f.severity.None? then Err(NoSeverity)
    else if f.kind == AlertClass then
      Ok(RaisedAlert(VStr(f.name.value), f.severity.value, VStr(hostname), VStr(agentId), statusInfo))
    else
      Ok(RaisedAlert(Formatted(VStr(f.name.value)), f.severity.value, Formatted(VStr(hostname)),
                     Formatted(VStr(agentId)), Formatted(statusInfo)))
  }

  type Statuses = map<Option<string>, (nat, Value)>

  /** The status after raise_alert: one more raise than before (the first raise counts 1). */
  function RaiseSpec(st: Statuses, service: Option<string>, info: Value): Statuses {
    st[service := ((if service in st then st[service].0 + 1 else 1), info)]
  }

  /** The status after resolve_alert: the count goes back to 0. */
  function ResolveSpec(st: Statuses, service: Option<string>, info: Value): Statuses {
    st[service := (0, info)]
  }

  /** The alert factories an agent class declares with may_raise (a class-level registry). */
  class AlertFactories {
    var factories: map<Option<string>, AlertFactory>

    constructor ()
      ensures factories == map[]
    {
      factories := map[];
    }

    /** _register_alert_factory. */
    method Register(f: AlertFactory)
      modifies this
      ensures factories == old(factories)[f.name := f]
    {
      factories := factories[f.name := f];
    }
  }

  /** The alert part of an agent's state (AgentMixin). */
  class AlertingAgent {
    const hostname: string
    const agentId: string
    var factories: map<Option<string>, AlertFactory>
    var statuses: Statuses
    /** What the agent has posted to the alert poster. */
    var notifications: seq<(Action, RaisedAlert)>

    /** initiate(): the agent starts from a copy of its class's factories and no statuses. */
    constructor (declared: AlertFactories, hostname: string, agentId: string)
      ensures factories == declared.factories && statuses == map[] && notifications == []
      ensures this.hostname == hostname && this.agentId == agentId
    {
      this.hostname := hostname;
      this.agentId := agentId;
      factories := declared.factories;
      statuses := map[];
      notifications := [];
    }

    /** _generate_alert: the factory registered for the service must exist. */
    function GenerateAlert(service: Option<string>, info: Value): (r: Result<RaisedAlert, AlertError>)
      reads this
      ensures service !in factories ==> r == Err(UnknownService)
      ensures service in factories ==> r == CallFactory(factories[service], hostname, agentId, info)
    {
      if service !in factories then Err(UnknownService)
      else CallFactory(factories[service], hostname, agentId, info)
    }

    method RaiseAlert(service: Option<string>, info: Value) returns (r: Result<(), AlertError>)
      modifies this
      ensures var g := old(GenerateAlert(service, info));
        && (r.Ok? <==> g.Ok?)
        && (g.Err? ==> r == Err(g.error) && statuses == old(statuses) && notifications == old(notifications))
        && (g.Ok? ==> statuses == RaiseSpec(old(statuses), service, info)
                      && notifications == old(notifications) + [(Raised, g.value)])
      ensures factories == old(factories)
    {
      var alert := GenerateAlert(service, info);
      if alert.Err? {
        return Err(alert.error);
      }
      notifications := notifications + [(Raised, alert.value)];
      var count := if service in statuses then statuses[service].0 + 1 else 1;
      statuses := statuses[service := (count, info)];
      return Ok(());
    }

    method ResolveAlert(service: Option<string>, info: Value) returns (r: Result<(), AlertError>)
      modifies this
      ensures var g := old(GenerateAlert(service, info));
        && (r.Ok? <==> g.Ok?)
        && (g.Err? ==> r == Err(g.error) && statuses == old(statuses) && notifications == old(notifications))
        && (g.Ok? ==> statuses == ResolveSpec(old(statuses), service, info)
                      && notifications == old(notifications) + [(Resolved, g.value)])
      ensures factories == old(factories)
    {
      var alert := GenerateAlert(service, info);
      if alert.Err? {
        return Err(alert.error);
      }
      notifications := notifications + [(Resolved, alert.value)];
      statuses := statuses[service := (0, info)];
      return Ok(());
    }

    /** may_raise_alert: a factory added to this agent only. */
    method MayRaiseAlert(f: AlertFactory)
      modifies this
      ensures factories == old(factories)[f.name := f]
      ensures statuses == old(statuses) && notifications == old(notifications)
    {
      factories := factories[f.name := f];
    }
  }

  /** A factory added to an agent after initiate() does not reach the class's registry. */
  method AgentAdditionsStayLocal(declared: AlertFactories, f: AlertFactory) returns (agent: AlertingAgent)
    ensures declared.factories == old(declared.factories)
    ensures agent.factories == old(declared.factories)[f.name := f]
  {
    agent := new AlertingAgent(declared, "host", "agent");
    agent.MayRaiseAlert(f);
  }
}
