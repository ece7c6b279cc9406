/** The alert triage view: the list of alerts for the chosen visibility, the resolve and dismiss
    handlers (which change the list only after the server accepts), and how a card is classified. */
module Alerts {
  import opened Api
  import JsArray

  type AlertId = int

  /** An alert as the server lists it. `severity` is the server's text; `details` stands for the
      optional structured payload and `timestamp` for the instant, neither of which is interpreted. */
  datatype Alert = Alert(
    id: AlertId,
    title: string,
    description: string,
    severity: string,
    timestamp: string,
    resolved: bool,
    details: Option<string>,
    suggestion: Option<string>)

  /** The requests the view issues; `ListAlerts` carries the `showResolved` query value. */
  datatype Request =
    | ListAlerts(showResolved: bool)
    | ResolveAlert(target: AlertId)
    | DismissAlert(target: AlertId)

  const FetchFailed := "获取告警信息失败，请重试"
  const ResolveFailed := "处理告警失败，请重试"
  const DismissFailed := "忽略告警失败，请重试"

  function ResolveIfId(id: AlertId): Alert -> Alert
  {
    (a: Alert) => if a.id == id then a.(resolved := true) else a
  }

  function OtherThan(id: AlertId): Alert -> bool
  {
    (a: Alert) => a.id != id
  }

  /** `alerts.map(alert => alert.id === id ? {...alert, resolved: true} : alert)`. */
  function MarkResolved(alerts: seq<Alert>, id: AlertId): (r: seq<Alert>)
    ensures |r| == |alerts|
    ensures forall i :: 0 <= i < |alerts| ==>
              r[i].resolved == (alerts[i].resolved || alerts[i].id == id)
              && r[i].(resolved := alerts[i].resolved) == alerts[i]
  {
    JsArray.Map(alerts, ResolveIfId(id))
  }

  /** `alerts.filter(alert => alert.id !== id)`. */
  function Dismiss(alerts: seq<Alert>, id: AlertId): (r: seq<Alert>)
    ensures |r| <= |alerts|
    ensures forall a :: a in r <==> a in alerts && a.id != id
  {
    JsArray.Filter(alerts, OtherThan(id))
  }

  /** Resolving twice is resolving once. */
  lemma ResolveIdempotent(alerts: seq<Alert>, id: AlertId)
    ensures MarkResolved(MarkResolved(alerts, id), id) == MarkResolved(alerts, id)
  {
  }

  /** Resolving an id that is not listed leaves the list as it was. */
  lemma ResolveAbsent(alerts: seq<Alert>, id: AlertId)
    requires forall a :: a in alerts ==> a.id != id
    ensures MarkResolved(alerts, id) == alerts
  {
  }

  /** Dismissing keeps the survivors in their order: it distributes over concatenation. */
  lemma DismissKeepsOrder(front: seq<Alert>, back: seq<Alert>, id: AlertId)
    ensures Dismiss(front + back, id) == Dismiss(front, id) + Dismiss(back, id)
  {
    JsArray.FilterConcat(front, back, OtherThan(id));
  }

  /** Dismissing an id that is not listed leaves the list as it was; so a second dismiss is a no-op. */
  lemma DismissAbsent(alerts: seq<Alert>, id: AlertId)
    requires forall a :: a in alerts ==> a.id != id
    ensures Dismiss(alerts, id) == alerts
  {
    forall i | 0 <= i < |alerts| ensures OtherThan(id)(alerts[i]) {
      assert alerts[i] in alerts;
    }
    JsArray.FilterKeepsAll(alerts, OtherThan(id));
  }

  /** Dismissing twice is dismissing once. */
  lemma DismissIdempotent(alerts: seq<Alert>, id: AlertId)
    ensures Dismiss(Dismiss(alerts, id), id) == Dismiss(alerts, id)
  {
    JsArray.FilterIdempotent(alerts, OtherThan(id));
  }

  /** The class of an alert card: a resolved alert is `resolved` whatever its severity; otherwise
      `high` and `medium` name themselves and any other severity text gives `low`. */
  function CardClass(a: Alert): (c: string)
    ensures c in {"resolved", "high", "medium", "low"}
    ensures c == "resolved" <==> a.resolved
  {
    if a.resolved then "resolved"
    else if a.severity == "high" then "high"
    else if a.severity == "medium" then "medium"
    else "low"
  }

  /** The resolve and dismiss buttons are rendered only for an unresolved alert. */
  predicate ActionsOffered(a: Alert)
    ensures ActionsOffered(a) <==> CardClass(a) != "resolved"
  {
    !a.resolved
  }

  /** An unresolved card's class depends on its severity alone: `high` and `medium` name
      themselves, and any other text gives `low`. */
  lemma CardClassification(a: Alert)
    ensures ActionsOffered(a) ==> CardClass(a) == (if a.severity in {"high", "medium"} then a.severity else "low")
  {
  }

  /** After a successful resolve every card with that id is drawn as resolved and offers no action;
      every other card is drawn as before. */
  lemma ResolveWithdrawsActions(alerts: seq<Alert>, id: AlertId, i: nat)
    requires i < |alerts|
    ensures alerts[i].id == id ==>
              CardClass(MarkResolved(alerts, id)[i]) == "resolved" && !ActionsOffered(MarkResolved(alerts, id)[i])
    ensures alerts[i].id != id ==> CardClass(MarkResolved(alerts, id)[i]) == CardClass(alerts[i])
  {
  }

  /** The component's state: `alerts`, `loading`, `error`, `showResolved`. */
  class AlertSystem {
    var alerts: seq<Alert>
    var loading: bool
    var error: string
    var showResolved: bool

    /** The state of the first render, before the mount effect's fetch. */
    constructor ()
      ensures alerts == [] && loading && error == "" && !showResolved
    {
      alerts := [];
      loading := true;
      error := "";
      showResolved := false;
    }

    /** `fetchAlerts`: run on mount and whenever `showResolved` changes; replaces the list wholesale. */
    method FetchAlerts(reply: Reply<seq<Alert>>) returns (req: Request)
      modifies this
      ensures req == ListAlerts(showResolved)
      ensures !loading && showResolved == old(showResolved)
      ensures reply.Ok? ==> alerts == reply.payload && error == ""
      ensures reply.Err? ==> alerts == old(alerts) && error == FetchFailed
    {
      loading := true;
      req := ListAlerts(showResolved);
      if reply.Ok? {
        alerts := reply.payload;
        error := "";
      } else {
        error := FetchFailed;
      }
      loading := false;
    }

    /** The history button: negate `showResolved`; the effect then fetches once with the new value. */
    method ToggleShowResolved(reply: Reply<seq<Alert>>) returns (req: Request)
      modifies this
      ensures showResolved == !old(showResolved)
      ensures req == ListAlerts(showResolved)
      ensures !loading
      ensures reply.Ok? ==> alerts == reply.payload && error == ""
      ensures reply.Err? ==> alerts == old(alerts) && error == FetchFailed
    {
      showResolved := !showResolved;
      req := FetchAlerts(reply);
    }

    /** `handleResolveAlert`: the list changes only once the server has accepted. */
    method HandleResolveAlert(id: AlertId, reply: Reply<()>) returns (req: Request)
      modifies this
      ensures req == ResolveAlert(id)
      ensures reply.Ok? ==> alerts == MarkResolved(old(alerts), id) && error == old(error)
      ensures reply.Err? ==> alerts == old(alerts) && error == ResolveFailed
      ensures showResolved == old(showResolved) && loading == old(loading)
    {
      req := ResolveAlert(id);
      if reply.Ok? {
        alerts := MarkResolved(alerts, id);
      } else {
        error := ResolveFailed;
      }
    }

    /** `handleDismissAlert`: the list changes only once the server has accepted. */
    method HandleDismissAlert(id: AlertId, reply: Reply<()>) returns (req: Request)
      modifies this
      ensures req == DismissAlert(id)
      ensures reply.Ok? ==> alerts == Dismiss(old(alerts), id) && error == old(error)
      ensures reply.Err? ==> alerts == old(alerts) && error == DismissFailed
      ensures showResolved == old(showResolved) && loading == old(loading)
    {
      req := DismissAlert(id);
      if reply.Ok? {
        alerts := Dismiss(alerts, id);
      } else {
        error := DismissFailed;
      }
    }
  }
}
