/** `AgentOrchestrator`: the state record it keeps for one wallet and its
    operations, as pure functions from the old state to the new one. */
module Orchestrator {
  import opened Wrappers
  import opened Allocations
  import opened Alerts
  import opened Agents
  import Text

  const HistoryCapacity: nat := 100
  const SmsMessageLimit: nat := 120

  /** The keys of `notification_channels` the orchestrator reads. */
  datatype Channel = Push | Email | Sms

  datatype Orchestrator = Orchestrator(
    walletAddress: string,
    channels: map<Channel, bool>,
    phoneNumber: string,
    riskTolerance: string,
    agents: seq<Agent>,
    history: seq<Alert>,
    targetAllocation: Allocation)

  /** The constructor: no agents, empty history, and the target allocation
      looked up from the tolerance tag. */
  function NewOrchestrator(wallet: string, channels: map<Channel, bool>, phone: string := "",
                           tolerance: string := "moderate"): (o: Orchestrator)
    ensures o.history == [] && o.agents == []
    ensures o.walletAddress == wallet && o.channels == channels
    ensures o.phoneNumber == phone && o.riskTolerance == tolerance
    ensures o.targetAllocation.Valid()
    ensures o.targetAllocation == AllocationFor(tolerance)
  {
    Orchestrator(wallet, channels, phone, tolerance, [], [], AllocationFor(tolerance))
  }

  // ---------------------------------------------------------------------
  // Agent lifecycle

  const AgentKinds: seq<AgentKind> :=
    [IdleAssetMonitor, OpportunityScout, RiskMonitor, AutoRebalancer, YieldHarvester,
     PriceMovementMonitor]

  /** `activate_all_agents`: replaces the agent list with six new, started
      agents. It never refuses a second call. */
  function ActivateAllAgents(o: Orchestrator): (r: Orchestrator)
    ensures |r.agents| == 6
    ensures forall i :: 0 <= i < 6 ==> r.agents[i] == Agent(AgentKinds[i], true)
    ensures r == o.(agents := r.agents)
  {
    o.(agents := seq(6, i requires 0 <= i < 6 => Start(NewAgent(AgentKinds[i]))))
  }

  /** `deactivate_all_agents`: stops every agent in the current list. */
  function DeactivateAllAgents(o: Orchestrator): (r: Orchestrator)
    ensures |r.agents| == |o.agents|
    ensures forall i :: 0 <= i < |o.agents| ==> r.agents[i] == Agent(o.agents[i].kind, false)
    ensures r == o.(agents := r.agents)
  {
    o.(agents := seq(|o.agents|, i requires 0 <= i < |o.agents| => Stop(o.agents[i])))
  }

  lemma ActivateTwiceAccepted(o: Orchestrator)
    ensures ActivateAllAgents(ActivateAllAgents(o)) == ActivateAllAgents(o)
  {
  }

  lemma DeactivateIdempotent(o: Orchestrator)
    ensures DeactivateAllAgents(DeactivateAllAgents(o)) == DeactivateAllAgents(o)
  {
  }

  // ---------------------------------------------------------------------
  // Routing

  /** `notification_channels.get(c, default)`. */
  function ChannelFlag(channels: map<Channel, bool>, c: Channel, default: bool): bool {
    if c in channels then channels[c] else default
  }

  datatype SmsMessage = SmsMessage(to: string, body: string)

  /** Which channels one alert is sent to. `sms` is None both when the SMS
      sender is not called and when it returns early for lack of a phone
      number. */
  datatype Dispatch = Dispatch(push: bool, email: bool, sms: Option<SmsMessage>)

  function SmsPrefix(p: Priority): string {
    "[" + p.Name() + "] Stellar Compass: "
  }

  /** The SMS text: the priority tag and brand, then at most 120
      characters of the alert message. */
  function SmsBody(p: Priority, message: string): (body: string)
    ensures |body| == |SmsPrefix(p)| + if |message| <= SmsMessageLimit then |message| else SmsMessageLimit
    ensures |body| <= |SmsPrefix(p)| + SmsMessageLimit
    ensures body[..|SmsPrefix(p)|] == SmsPrefix(p)
    ensures body[|SmsPrefix(p)|..] <= message
  {
    var body := SmsPrefix(p) + Text.Prefix(message, SmsMessageLimit);
    assert body[|SmsPrefix(p)|..] == Text.Prefix(message, SmsMessageLimit);
    body
  }

  /** The routing decision of `_handle_notification` together with the
      phone guard of `_send_sms_notification`. */
  function Route(channels: map<Channel, bool>, phone: string, alert: Alert): (d: Dispatch)
    ensures d.push <==> (Push !in channels || channels[Push])
    ensures d.email <==> (Email !in channels || channels[Email])
    ensures d.sms.Some? <==>
              Sms in channels && channels[Sms] && alert.priority.IsUrgent() && phone != ""
    ensures d.sms.Some? ==> d.sms.value == SmsMessage(phone, SmsBody(alert.priority, alert.message))
  {
    var smsCalled := ChannelFlag(channels, Sms, false) && alert.priority.IsUrgent();
    Dispatch(ChannelFlag(channels, Push, true),
             ChannelFlag(channels, Email, true),
             if smsCalled && phone != ""
             then Some(SmsMessage(phone, SmsBody(alert.priority, alert.message)))
             else None)
  }

  /** Priority gates only the SMS channel. */
  lemma PriorityNeverGatesPushOrEmail(channels: map<Channel, bool>, phone: string, a: Alert, b: Alert)
    ensures Route(channels, phone, a).push == Route(channels, phone, b).push
    ensures Route(channels, phone, a).email == Route(channels, phone, b).email
  {
  }

  lemma NoSmsBelowHigh(channels: map<Channel, bool>, phone: string, a: Alert)
    requires a.priority == LowPriority || a.priority == Medium
    ensures Route(channels, phone, a).sms == None
  {
  }

  // ---------------------------------------------------------------------
  // History

  /** The newest `n` items of `s`, oldest first. */
  function Newest<T>(s: seq<T>, n: nat): (r: seq<T>)
    ensures |r| == if |s| <= n then |s| else n
    ensures r == s[|s| - |r|..]
  {
    if |s| <= n then s else s[|s| - n..]
  }

  datatype Handled = Handled(state: Orchestrator, dispatch: Dispatch)

  /** `_handle_notification`: append, keep the newest 100, then route. */
  function HandleNotification(o: Orchestrator, alert: Alert): (r: Handled)
    ensures |r.state.history| == if |o.history| < HistoryCapacity then |o.history| + 1 else HistoryCapacity
    ensures r.state.history[|r.state.history| - 1] == alert
    ensures r.state.history == (o.history + [alert])[|o.history| + 1 - |r.state.history|..]
    ensures r.state == o.(history := r.state.history)
    ensures r.dispatch == Route(o.channels, o.phoneNumber, alert)
  {
    var h := o.history + [alert];
    var trimmed := if |h| > HistoryCapacity then h[|h| - HistoryCapacity..] else h;
    Handled(o.(history := trimmed), Route(o.channels, o.phoneNumber, alert))
  }

  /** A run of alerts handled one after another. */
  function HandleAll(o: Orchestrator, alerts: seq<Alert>): (r: Orchestrator)
    decreases |alerts|
  {
    if alerts == [] then o
    else HandleAll(HandleNotification(o, alerts[0]).state, alerts[1..])
  }

  /** Keeping the newest `n` before appending more changes nothing about
      the newest `n` after. */
  lemma NewestAppend<T>(s: seq<T>, t: seq<T>, n: nat)
    ensures Newest(Newest(s, n) + t, n) == Newest(s + t, n)
  {
    if |s| > n {
      var u := Newest(s, n) + t;
      var v := s + t;
      assert u == v[|s| - n..];
      assert Newest(u, n) == v[|v| - n..];
    }
  }

  lemma HandleIsNewest(o: Orchestrator, x: Alert)
    ensures HandleNotification(o, x).state.history == Newest(o.history + [x], HistoryCapacity)
  {
  }

  /** Starting from a history within capacity, the history after any run
      of alerts holds the newest (at most) 100 of all alerts ever appended,
      in insertion order with the newest last, and nothing else of the
      state changes. */
  lemma {:induction false} HistoryKeepsNewest(o: Orchestrator, alerts: seq<Alert>)
    requires |o.history| <= HistoryCapacity
    ensures HandleAll(o, alerts).history == Newest(o.history + alerts, HistoryCapacity)
    decreases |alerts|
  {
    if alerts == [] {
      assert o.history + alerts == o.history;
    } else {
      var x := alerts[0];
      var rest := alerts[1..];
      var o1 := HandleNotification(o, x).state;
      HandleIsNewest(o, x);
      HistoryKeepsNewest(o1, rest);
      NewestAppend(o.history + [x], rest, HistoryCapacity);
      assert o.history + alerts == (o.history + [x]) + rest;
    }
  }

  /** Handling alerts changes nothing but the history. */
  lemma {:induction false} HandleAllOnlyHistory(o: Orchestrator, alerts: seq<Alert>)
    ensures var r := HandleAll(o, alerts);
            r.walletAddress == o.walletAddress && r.channels == o.channels
            && r.phoneNumber == o.phoneNumber && r.riskTolerance == o.riskTolerance
            && r.agents == o.agents && r.targetAllocation == o.targetAllocation
    decreases |alerts|
  {
    if alerts != [] {
      HandleAllOnlyHistory(HandleNotification(o, alerts[0]).state, alerts[1..]);
    }
  }

  // ---------------------------------------------------------------------
  // Queries and settings

  /** Python's `s[start:]`: a negative start counts from the end, and both
      ends are clamped to the sequence. */
  function PySliceFrom<T>(s: seq<T>, start: int): (r: seq<T>)
    ensures |r| <= |s| && r == s[|s| - |r|..]
  {
    var k := if start < 0 then (if start + |s| < 0 then 0 else start + |s|)
             else (if start > |s| then |s| else start);
    s[k..]
  }

  /** `get_recent_alerts(limit)`, i.e. `alert_history[-limit:]`. A positive
      limit gives the newest `limit` alerts oldest first; 0 gives the whole
      history (`[-0:]` is `[0:]`); a negative limit drops the oldest
      `-limit` alerts. */
  function GetRecentAlerts(o: Orchestrator, limit: int := 20): (r: seq<Alert>)
    ensures limit >= 1 ==>
              |r| == (if |o.history| <= limit then |o.history| else limit)
              && r == o.history[|o.history| - |r|..]
    ensures limit == 0 ==> r == o.history
    ensures limit < 0 ==>
              r == o.history[(if -limit <= |o.history| then -limit else |o.history|)..]
  {
    PySliceFrom(o.history, -limit)
  }

  lemma RecentAlertsExamples(o: Orchestrator)
    ensures |o.history| == 3 ==> GetRecentAlerts(o, 5) == o.history
    ensures |o.history| == 150 ==> GetRecentAlerts(o, 5) == o.history[145..]
    ensures GetRecentAlerts(o, 0) == o.history
    ensures |o.history| == 150 ==> GetRecentAlerts(o) == o.history[130..]
  {
  }

  /** The keys `update_settings` looks for; None for an absent key. */
  datatype Settings = Settings(
    phoneNumber: Option<string>,
    riskTolerance: Option<string>,
    emailNotifications: Option<bool>,
    smsNotifications: Option<bool>,
    pushNotifications: Option<bool>)

  function SettingFor(s: Settings, c: Channel): Option<bool> {
    match c
    case Push => s.pushNotifications
    case Email => s.emailNotifications
    case Sms => s.smsNotifications
  }

  function Override(channels: map<Channel, bool>, c: Channel, v: Option<bool>): map<Channel, bool> {
    if v.Some? then channels[c := v.value] else channels
  }

  /** `update_settings`: each present key overwrites its field, absent keys
      leave theirs alone; the target allocation, history, agents and wallet
      never change, even when the risk tolerance does. */
  function UpdateSettings(o: Orchestrator, s: Settings): (r: Orchestrator)
    ensures s.phoneNumber.Some? ==> r.phoneNumber == s.phoneNumber.value
    ensures s.phoneNumber.None? ==> r.phoneNumber == o.phoneNumber
    ensures s.riskTolerance.Some? ==> r.riskTolerance == s.riskTolerance.value
    ensures s.riskTolerance.None? ==> r.riskTolerance == o.riskTolerance
    ensures forall c :: c in r.channels <==> c in o.channels || SettingFor(s, c).Some?
    ensures forall c :: SettingFor(s, c).Some? ==> r.channels[c] == SettingFor(s, c).value
    ensures forall c :: SettingFor(s, c).None? && c in o.channels ==> r.channels[c] == o.channels[c]
    ensures r.targetAllocation == o.targetAllocation
    ensures r.history == o.history && r.agents == o.agents && r.walletAddress == o.walletAddress
  {
    var channels := Override(Override(Override(o.channels, Email, s.emailNotifications),
                                      Sms, s.smsNotifications),
                             Push, s.pushNotifications);
    o.(phoneNumber := s.phoneNumber.GetOr(o.phoneNumber),
       riskTolerance := s.riskTolerance.GetOr(o.riskTolerance),
       channels := channels)
  }

  /** Switching a moderate orchestrator to "aggressive" leaves the moderate
      target allocation in place. */
  lemma ToleranceChangeKeepsTarget(wallet: string, channels: map<Channel, bool>, phone: string)
    ensures var o := UpdateSettings(NewOrchestrator(wallet, channels, phone, "moderate"),
                                     Settings(None, Some("aggressive"), None, None, None));
            o.riskTolerance == "aggressive"
            && o.targetAllocation == Allocation(0.50, 0.40, 0.10)
            && o.targetAllocation != AllocationFor("aggressive")
  {
    assert Text.Lower("moderate") == "moderate";
    assert Text.Lower("aggressive") == "aggressive";
  }

  // ---------------------------------------------------------------------
  // State invariant

  ghost predicate Valid(o: Orchestrator) {
    |o.history| <= HistoryCapacity && o.targetAllocation.Valid()
  }

  /** The constructor's defaults: no phone number and the moderate tolerance. */
  lemma ConstructorDefaults(wallet: string, channels: map<Channel, bool>)
    ensures NewOrchestrator(wallet, channels).phoneNumber == ""
    ensures NewOrchestrator(wallet, channels).riskTolerance == "moderate"
    ensures NewOrchestrator(wallet, channels).targetAllocation == Allocation(0.50, 0.40, 0.10)
  {
    assert Text.Lower("moderate") == "moderate";
  }

  lemma NewOrchestratorValid(wallet: string, channels: map<Channel, bool>, phone: string, tolerance: string)
    ensures Valid(NewOrchestrator(wallet, channels, phone, tolerance))
  {
  }

  /** Every operation keeps the history within capacity and the target
      allocation a valid table row. */
  lemma OperationsPreserveValid(o: Orchestrator, a: Alert, s: Settings)
    requires Valid(o)
    ensures Valid(HandleNotification(o, a).state)
    ensures Valid(UpdateSettings(o, s))
    ensures Valid(ActivateAllAgents(o))
    ensures Valid(DeactivateAllAgents(o))
  {
  }
}
