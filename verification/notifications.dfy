/**
 * The notification store: notifications, their actions, their dictionary
 * form, the per-type handlers, the service that indexes notifications by
 * user, and the factories for common scheduler events.
 */
module Notifications {
  import opened Options
  import opened Sorting
  import opened Sequences
  import Models

  // ---------------------------------------------------------------------------
  // Enumerations and their value strings

  datatype NotificationType =
    | STEP_READY | STEP_COMPLETED | STEP_PAUSED | STEP_TIMEOUT | RESOURCE_CONFLICT
    | USER_ATTENTION_REQUIRED | GENERAL_INFO | ERROR | CUSTOM

  datatype NotificationPriority = LOW | MEDIUM | HIGH | CRITICAL

  datatype DeliveryMethod = IN_APP | EMAIL | PUSH | SMS

  datatype ActionType = LINK | BUTTON | FORM | DISMISS | SNOOZE

  function TypeValue(t: NotificationType): string
  {
    match t
    case STEP_READY => "step_ready"
    case STEP_COMPLETED => "step_completed"
    case STEP_PAUSED => "step_paused"
    case STEP_TIMEOUT => "step_timeout"
    case RESOURCE_CONFLICT => "resource_conflict"
    case USER_ATTENTION_REQUIRED => "user_attention_required"
    case GENERAL_INFO => "general_info"
    case ERROR => "error"
    case CUSTOM => "custom"
  }

  /** `NotificationType(s)`: None where Python raises ValueError. */
  function ParseType(s: string): Option<NotificationType>
  {
    if s == "step_ready" then Some(STEP_READY)
    else if s == "step_completed" then Some(STEP_COMPLETED)
    else if s == "step_paused" then Some(STEP_PAUSED)
    else if s == "step_timeout" then Some(STEP_TIMEOUT)
    else if s == "resource_conflict" then Some(RESOURCE_CONFLICT)
    else if s == "user_attention_required" then Some(USER_ATTENTION_REQUIRED)
    else if s == "general_info" then Some(GENERAL_INFO)
    else if s == "error" then Some(ERROR)
    else if s == "custom" then Some(CUSTOM)
    else None
  }

  function PriorityValue(p: NotificationPriority): string
  {
    match p
    case LOW => "low"
    case MEDIUM => "medium"
    case HIGH => "high"
    case CRITICAL => "critical"
  }

  function ParsePriority(s: string): Option<NotificationPriority>
  {
    if s == "low" then Some(LOW)
    else if s == "medium" then Some(MEDIUM)
    else if s == "high" then Some(HIGH)
    else if s == "critical" then Some(CRITICAL)
    else None
  }

  function DeliveryValue(d: DeliveryMethod): string
  {
    match d
    case IN_APP => "in_app"
    case EMAIL => "email"
    case PUSH => "push"
    case SMS => "sms"
  }

  function ParseDelivery(s: string): Option<DeliveryMethod>
  {
    if s == "in_app" then Some(IN_APP)
    else if s == "email" then Some(EMAIL)
    else if s == "push" then Some(PUSH)
    else if s == "sms" then Some(SMS)
    else None
  }

  function ActionTypeValue(a: ActionType): string
  {
    match a
    case LINK => "link"
    case BUTTON => "button"
    case FORM => "form"
    case DISMISS => "dismiss"
    case SNOOZE => "snooze"
  }

  function ParseActionType(s: string): Option<ActionType>
  {
    if s == "link" then Some(LINK)
    else if s == "button" then Some(BUTTON)
    else if s == "form" then Some(FORM)
    else if s == "dismiss" then Some(DISMISS)
    else if s == "snooze" then Some(SNOOZE)
    else None
  }

  /** Each notification type's value string parses back to it, and only its own value does. */
  lemma TypeValueRoundTrip(t: NotificationType, s: string)
    ensures ParseType(TypeValue(t)) == Some(t)
    ensures ParseType(s) == Some(t) <==> s == TypeValue(t)
  {
  }

  lemma PriorityValueRoundTrip(p: NotificationPriority, s: string)
    ensures ParsePriority(PriorityValue(p)) == Some(p)
    ensures ParsePriority(s) == Some(p) <==> s == PriorityValue(p)
  {
  }

  lemma DeliveryValueRoundTrip(d: DeliveryMethod, s: string)
    ensures ParseDelivery(DeliveryValue(d)) == Some(d)
    ensures ParseDelivery(s) == Some(d) <==> s == DeliveryValue(d)
  {
  }

  lemma ActionTypeValueRoundTrip(a: ActionType, s: string)
    ensures ParseActionType(ActionTypeValue(a)) == Some(a)
    ensures ParseActionType(s) == Some(a) <==> s == ActionTypeValue(a)
  {
  }

  // ---------------------------------------------------------------------------
  // JSON-like values of the dictionary form

  datatype Json =
    | JNull
    | JBool(b: bool)
    | JInt(i: int)
    | JStr(s: string)
    | JList(items: seq<Json>)
    | JObj(fields: map<string, Json>)

  /** Python truthiness of a JSON value. */
  predicate Falsy(j: Json)
  {
    match j
    case JNull => true
    case JBool(b) => !b
    case JInt(i) => i == 0
    case JStr(s) => s == []
    case JList(items) => items == []
    case JObj(fields) => fields == map[]
  }

  /** `d.get(key)` where a missing key reads as `null`. */
  function Get(d: map<string, Json>, key: string): (r: Json)
    ensures key !in d ==> r == JNull
    ensures key in d ==> r == d[key]
  {
    if key in d then d[key] else JNull
  }

  /** A required string entry `d[key]`: None when missing or not a string. */
  function RequiredStr(d: map<string, Json>, key: string): (r: Option<string>)
    ensures r.Some? <==> key in d && d[key].JStr?
    ensures r.Some? ==> d[key] == JStr(r.value)
  {
    if key in d && d[key].JStr? then Some(d[key].s) else None
  }

  /** An optional string entry `d.get(key)`: null or missing reads as None. */
  function OptionalStr(d: map<string, Json>, key: string): (r: Option<Option<string>>)
    ensures r == Some(None) <==> Get(d, key) == JNull
    ensures forall s :: r == Some(Some(s)) <==> Get(d, key) == JStr(s)
  {
    match Get(d, key)
    case JNull => Some(None)
    case JStr(s) => Some(Some(s))
    case _ => None
  }

  /** `d.get(key, {})` followed by `or {}`: a falsy value reads as the empty dictionary. */
  function ObjectOrEmpty(d: map<string, Json>, key: string): (r: Option<map<string, Json>>)
    ensures Falsy(Get(d, key)) ==> r == Some(map[])
    ensures forall m :: Get(d, key) == JObj(m) ==> r == Some(m)
  {
    var j := Get(d, key);
    if Falsy(j) then Some(map[]) else if j.JObj? then Some(j.fields) else None
  }

  /** `d.get(key, default)` for a flag. */
  function FlagOr(d: map<string, Json>, key: string, default: bool): (r: Option<bool>)
    ensures key !in d ==> r == Some(default)
    ensures forall b :: key in d && d[key] == JBool(b) ==> r == Some(b)
  {
    if key !in d then Some(default) else if d[key].JBool? then Some(d[key].b) else None
  }

  function StrList(xs: seq<string>): (r: seq<Json>)
    ensures |r| == |xs|
    ensures forall i :: 0 <= i < |xs| ==> r[i] == JStr(xs[i])
  {
    seq(|xs|, i requires 0 <= i < |xs| => JStr(xs[i]))
  }

  /** A list of strings read back; None if an item is not a string. */
  function StrsFromJson(items: seq<Json>): (r: Option<seq<string>>)
    ensures r.Some? <==> forall i :: 0 <= i < |items| ==> items[i].JStr?
    ensures r.Some? ==> |r.value| == |items| && forall i :: 0 <= i < |items| ==> items[i] == JStr(r.value[i])
    decreases |items|
  {
    if items == [] then Some([])
    else if !items[0].JStr? then None
    else
      match StrsFromJson(items[1..])
      case None => None
      case Some(rest) => Some([items[0].s] + rest)
  }

  // ---------------------------------------------------------------------------
  // NotificationAction

  datatype NotificationAction = NotificationAction(id: string, actionType: ActionType, labelText: string,
                                                   data: map<string, Json>)

  function ActionToDict(a: NotificationAction): (r: Json)
    ensures r.JObj? && r.fields.Keys == {"id", "type", "label", "data"}
    ensures r.fields["type"] == JStr(ActionTypeValue(a.actionType))
  {
    JObj(map["id" := JStr(a.id), "type" := JStr(ActionTypeValue(a.actionType)), "label" := JStr(a.labelText),
             "data" := JObj(a.data)])
  }

  /** The action part of `from_dict`: "id", "type" and "label" are required, "data" defaults to `{}`. */
  function ActionFromDict(j: Json): (r: Option<NotificationAction>)
    ensures r.Some? ==> j.JObj? && "id" in j.fields && "type" in j.fields && "label" in j.fields
  {
    if !j.JObj? then None
    else
      var d := j.fields;
      var id := RequiredStr(d, "id");
      var typ := RequiredStr(d, "type");
      var labelText := RequiredStr(d, "label");
      var data := ObjectOrEmpty(d, "data");
      if id.None? || typ.None? || labelText.None? || data.None? then None
      else
        match ParseActionType(typ.value)
        case None => None
        case Some(t) => Some(NotificationAction(id.value, t, labelText.value, data.value))
  }

  lemma ActionRoundTrip(a: NotificationAction)
    ensures ActionFromDict(ActionToDict(a)) == Some(a)
  {
    ActionTypeValueRoundTrip(a.actionType, "");
  }

  function ActionsToJson(actions: seq<NotificationAction>): (r: seq<Json>)
    ensures |r| == |actions|
    ensures forall i :: 0 <= i < |actions| ==> r[i] == ActionToDict(actions[i])
  {
    seq(|actions|, i requires 0 <= i < |actions| => ActionToDict(actions[i]))
  }

  function ActionsFromJson(items: seq<Json>): (r: Option<seq<NotificationAction>>)
    ensures r.Some? <==> forall i :: 0 <= i < |items| ==> ActionFromDict(items[i]).Some?
    ensures r.Some? ==> |r.value| == |items| &&
                        forall i :: 0 <= i < |items| ==> ActionFromDict(items[i]) == Some(r.value[i])
    decreases |items|
  {
    if items == [] then Some([])
    else
      match ActionFromDict(items[0])
      case None => None
      case Some(a) =>
        match ActionsFromJson(items[1..])
        case None => None
        case Some(rest) => Some([a] + rest)
  }

  lemma ActionsRoundTrip(actions: seq<NotificationAction>)
    ensures ActionsFromJson(ActionsToJson(actions)) == Some(actions)
  {
    var items := ActionsToJson(actions);
    forall i | 0 <= i < |items|
      ensures ActionFromDict(items[i]) == Some(actions[i])
    {
      ActionRoundTrip(actions[i]);
    }
    var r := ActionsFromJson(items);
    assert r.Some?;
    assert r.value == actions by {
      forall i | 0 <= i < |actions|
        ensures r.value[i] == actions[i]
      {
        assert ActionFromDict(items[i]) == Some(r.value[i]);
      }
    }
  }

  function DeliveriesToJson(ms: seq<DeliveryMethod>): (r: seq<Json>)
    ensures |r| == |ms|
    ensures forall i :: 0 <= i < |ms| ==> r[i] == JStr(DeliveryValue(ms[i]))
  {
    seq(|ms|, i requires 0 <= i < |ms| => JStr(DeliveryValue(ms[i])))
  }

  /** `[DeliveryMethod(m) for m in items]`: None if an item is not a valid value string. */
  function DeliveriesFromJson(items: seq<Json>): (r: Option<seq<DeliveryMethod>>)
    ensures r.Some? <==> forall i :: 0 <= i < |items| ==> items[i].JStr? && ParseDelivery(items[i].s).Some?
    ensures r.Some? ==> |r.value| == |items| &&
                        forall i :: 0 <= i < |items| ==> items[i] == JStr(DeliveryValue(r.value[i]))
    decreases |items|
  {
    if items == [] then Some([])
    else if !items[0].JStr? then None
    else
      match ParseDelivery(items[0].s)
      case None => None
      case Some(m) =>
        DeliveryValueRoundTrip(m, items[0].s);
        match DeliveriesFromJson(items[1..])
        case None => None
        case Some(rest) => Some([m] + rest)
  }

  // ---------------------------------------------------------------------------
  // Notification

  /** A notification; `createdAt` is a time in seconds, standing for the source's datetime. */
  datatype Notification = Notification(
    id: string,
    title: string,
    message: string,
    ntype: NotificationType,
    priority: NotificationPriority,
    targetUsers: seq<string>,
    experimentId: Option<string>,
    stepId: Option<string>,
    metadata: map<string, Json>,
    actions: seq<NotificationAction>,
    deliveryMethods: seq<DeliveryMethod>,
    createdAt: int,
    isRead: bool,
    isDismissed: bool)

  /**
   * `Notification(...)` with id `id` (the source's uuid) created at `now`.
   * Absent targets, metadata and actions are passed as empty values; an empty
   * delivery list is replaced by `[IN_APP]`, as `or` does in the source.
   */
  function NewNotification(id: string, now: int, title: string, message: string, ntype: NotificationType,
                           priority: NotificationPriority, targetUsers: seq<string>,
                           experimentId: Option<string>, stepId: Option<string>, metadata: map<string, Json>,
                           actions: seq<NotificationAction>, deliveryMethods: seq<DeliveryMethod>): (n: Notification)
    ensures n.id == id && n.createdAt == now && n.ntype == ntype && n.priority == priority
    ensures n.title == title && n.message == message
    ensures n.targetUsers == targetUsers && n.experimentId == experimentId && n.stepId == stepId
    ensures n.metadata == metadata && n.actions == actions
    ensures n.deliveryMethods != []
    ensures deliveryMethods == [] ==> n.deliveryMethods == [IN_APP]
    ensures deliveryMethods != [] ==> n.deliveryMethods == deliveryMethods
    ensures !n.isRead && !n.isDismissed
  {
    Notification(id, title, message, ntype, priority, targetUsers, experimentId, stepId, metadata, actions,
                 if deliveryMethods == [] then [IN_APP] else deliveryMethods, now, false, false)
  }

  function OptStrToJson(o: Option<string>): Json
  {
    if o.Some? then JStr(o.value) else JNull
  }

  /** `to_dict`: every field under its key, enums as value strings. */
  function ToDict(n: Notification): (r: Json)
    ensures r.JObj?
  {
    JObj(map[
      "id" := JStr(n.id),
      "title" := JStr(n.title),
      "message" := JStr(n.message),
      "type" := JStr(TypeValue(n.ntype)),
      "priority" := JStr(PriorityValue(n.priority)),
      "target_users" := JList(StrList(n.targetUsers)),
      "experiment_id" := OptStrToJson(n.experimentId),
      "step_id" := OptStrToJson(n.stepId),
      "metadata" := JObj(n.metadata),
      "actions" := JList(ActionsToJson(n.actions)),
      "delivery_methods" := JList(DeliveriesToJson(n.deliveryMethods)),
      "created_at" := JInt(n.createdAt),
      "is_read" := JBool(n.isRead),
      "is_dismissed" := JBool(n.isDismissed)
    ])
  }

  /** "target_users": missing or falsy reads as `[]`. */
  function TargetsFromDict(d: map<string, Json>): (r: Option<seq<string>>)
    ensures Falsy(Get(d, "target_users")) ==> r == Some([])
  {
    var j := Get(d, "target_users");
    if Falsy(j) then Some([]) else if j.JList? then StrsFromJson(j.items) else None
  }

  /** "delivery_methods": missing reads as `["in_app"]`, and an empty list becomes `[IN_APP]`. */
  function DeliveriesFromDict(d: map<string, Json>): (r: Option<seq<DeliveryMethod>>)
    ensures "delivery_methods" !in d ==> r == Some([IN_APP])
    ensures r.Some? ==> r.value != []
  {
    if "delivery_methods" !in d then Some([IN_APP])
    else
      var j := d["delivery_methods"];
      if !j.JList? then None
      else
        match DeliveriesFromJson(j.items)
        case None => None
        case Some(ms) => Some(if ms == [] then [IN_APP] else ms)
  }

  /** "actions": missing reads as `[]`. */
  function ActionsFromDict(d: map<string, Json>): (r: Option<seq<NotificationAction>>)
    ensures "actions" !in d ==> r == Some([])
  {
    if "actions" !in d then Some([])
    else if !d["actions"].JList? then None
    else ActionsFromJson(d["actions"].items)
  }

  /**
   * `from_dict`: "title", "message", "type", "priority", "id" and
   * "created_at" are required and the enum strings must be valid; None stands
   * for the exception Python raises. Optional keys take the source's defaults.
   */
  function FromDict(j: Json): (r: Option<Notification>)
    ensures r.Some? ==> j.JObj? && "title" in j.fields && "message" in j.fields && "type" in j.fields &&
                        "priority" in j.fields && "id" in j.fields && "created_at" in j.fields
    ensures r.Some? ==> r.value.deliveryMethods != []
    ensures r.Some? ==> j.fields["id"] == JStr(r.value.id) && j.fields["title"] == JStr(r.value.title) &&
                        j.fields["message"] == JStr(r.value.message)
    ensures r.Some? ==> j.fields["type"] == JStr(TypeValue(r.value.ntype)) &&
                        j.fields["priority"] == JStr(PriorityValue(r.value.priority))
    ensures r.Some? ==> j.fields["created_at"] == JInt(r.value.createdAt)
  {
    if !j.JObj? then None
    else
      var d := j.fields;
      var title := RequiredStr(d, "title");
      var message := RequiredStr(d, "message");
      var typ := RequiredStr(d, "type");
      var priority := RequiredStr(d, "priority");
      var id := RequiredStr(d, "id");
      var targets := TargetsFromDict(d);
      var experimentId := OptionalStr(d, "experiment_id");
      var stepId := OptionalStr(d, "step_id");
      var metadata := ObjectOrEmpty(d, "metadata");
      var deliveries := DeliveriesFromDict(d);
      var actions := ActionsFromDict(d);
      var isRead := FlagOr(d, "is_read", false);
      var isDismissed := FlagOr(d, "is_dismissed", false);
      if || title.None? || message.None? || typ.None? || priority.None? || id.None?
         || targets.None? || experimentId.None? || stepId.None? || metadata.None? || deliveries.None?
         || actions.None? || isRead.None? || isDismissed.None?
         || "created_at" !in d || !d["created_at"].JInt?
      then None
      else
        match (ParseType(typ.value), ParsePriority(priority.value))
        case (Some(t), Some(p)) =>
          TypeValueRoundTrip(t, typ.value);
          PriorityValueRoundTrip(p, priority.value);
          Some(Notification(id.value, title.value, message.value, t, p, targets.value, experimentId.value,
                            stepId.value, metadata.value, actions.value, deliveries.value,
                            d["created_at"].i, isRead.value, isDismissed.value))
        case _ => None
  }

  /** The entries `to_dict` writes, key by key. */
  predicate HasEntries(d: map<string, Json>, n: Notification)
  {
    HasHeaderEntries(d, n) && HasBodyEntries(d, n)
  }

  predicate HasHeaderEntries(d: map<string, Json>, n: Notification)
  {
    && "id" in d && d["id"] == JStr(n.id)
    && "title" in d && d["title"] == JStr(n.title)
    && "message" in d && d["message"] == JStr(n.message)
    && "type" in d && d["type"] == JStr(TypeValue(n.ntype))
    && "priority" in d && d["priority"] == JStr(PriorityValue(n.priority))
    && "experiment_id" in d && d["experiment_id"] == OptStrToJson(n.experimentId)
    && "step_id" in d && d["step_id"] == OptStrToJson(n.stepId)
  }

  predicate HasBodyEntries(d: map<string, Json>, n: Notification)
  {
    && "target_users" in d && d["target_users"] == JList(StrList(n.targetUsers))
    && "metadata" in d && d["metadata"] == JObj(n.metadata)
    && "actions" in d && d["actions"] == JList(ActionsToJson(n.actions))
    && "delivery_methods" in d && d["delivery_methods"] == JList(DeliveriesToJson(n.deliveryMethods))
    && "created_at" in d && d["created_at"] == JInt(n.createdAt)
    && "is_read" in d && d["is_read"] == JBool(n.isRead)
    && "is_dismissed" in d && d["is_dismissed"] == JBool(n.isDismissed)
  }

  lemma ToDictEntries(n: Notification)
    ensures HasEntries(ToDict(n).fields, n)
  {
    ToDictHeader(n);
    ToDictBody(n);
  }

  lemma ToDictHeader(n: Notification)
    ensures HasHeaderEntries(ToDict(n).fields, n)
  {
  }

  lemma ToDictBody(n: Notification)
    ensures HasBodyEntries(ToDict(n).fields, n)
  {
  }

  /** Reading back the target list `to_dict` wrote. */
  lemma TargetsRoundTrip(xs: seq<string>)
    ensures StrsFromJson(StrList(xs)) == Some(xs)
  {
    var r := StrsFromJson(StrList(xs));
    assert r.Some?;
    assert r.value == xs by {
      forall i | 0 <= i < |xs|
        ensures r.value[i] == xs[i]
      {
        assert StrList(xs)[i] == JStr(r.value[i]);
      }
    }
  }

  /** Reading back the delivery list `to_dict` wrote. */
  lemma DeliveriesRoundTrip(ms: seq<DeliveryMethod>)
    ensures DeliveriesFromJson(DeliveriesToJson(ms)) == Some(ms)
  {
    var items := DeliveriesToJson(ms);
    forall i | 0 <= i < |items|
      ensures ParseDelivery(items[i].s).Some?
    {
      DeliveryValueRoundTrip(ms[i], "");
    }
    assert DeliveriesFromJson(items).Some?;
    var r := DeliveriesFromJson(items).value;
    assert r == ms by {
      forall i | 0 <= i < |r|
        ensures r[i] == ms[i]
      {
        DeliveryValueRoundTrip(r[i], DeliveryValue(ms[i]));
      }
    }
  }

  /** The required entries read back. */
  lemma RequiredEntries(d: map<string, Json>, n: Notification)
    requires HasEntries(d, n)
    ensures RequiredStr(d, "title") == Some(n.title) && RequiredStr(d, "message") == Some(n.message)
    ensures RequiredStr(d, "type") == Some(TypeValue(n.ntype))
    ensures RequiredStr(d, "priority") == Some(PriorityValue(n.priority))
    ensures RequiredStr(d, "id") == Some(n.id)
    ensures ParseType(TypeValue(n.ntype)) == Some(n.ntype)
    ensures ParsePriority(PriorityValue(n.priority)) == Some(n.priority)
  {
    TypeValueRoundTrip(n.ntype, "");
    PriorityValueRoundTrip(n.priority, "");
  }

  /** The optional entries read back. */
  lemma OptionalEntries(d: map<string, Json>, n: Notification)
    requires HasEntries(d, n)
    ensures TargetsFromDict(d) == Some(n.targetUsers)
    ensures OptionalStr(d, "experiment_id") == Some(n.experimentId)
    ensures OptionalStr(d, "step_id") == Some(n.stepId)
    ensures ObjectOrEmpty(d, "metadata") == Some(n.metadata)
    ensures DeliveriesFromDict(d) == Some(if n.deliveryMethods == [] then [IN_APP] else n.deliveryMethods)
    ensures ActionsFromDict(d) == Some(n.actions)
    ensures FlagOr(d, "is_read", false) == Some(n.isRead)
    ensures FlagOr(d, "is_dismissed", false) == Some(n.isDismissed)
  {
    ActionsRoundTrip(n.actions);
    DeliveriesRoundTrip(n.deliveryMethods);
    if n.targetUsers != [] {
      TargetsRoundTrip(n.targetUsers);
    }
  }

  /** `from_dict` of any dictionary holding `to_dict`'s entries gives `n`, up to the empty-delivery default. */
  lemma FromEntries(d: map<string, Json>, n: Notification)
    requires HasEntries(d, n)
    ensures FromDict(JObj(d)) == Some(n.(deliveryMethods := if n.deliveryMethods == [] then [IN_APP]
                                                                else n.deliveryMethods))
  {
    RequiredEntries(d, n);
    OptionalEntries(d, n);
  }

  /** `from_dict(to_dict(n))` gives back `n` exactly when its delivery list is not empty. */
  lemma DictRoundTrip(n: Notification)
    ensures n.deliveryMethods != [] ==> FromDict(ToDict(n)) == Some(n)
    ensures n.deliveryMethods == [] ==> FromDict(ToDict(n)) == Some(n.(deliveryMethods := [IN_APP]))
  {
    ToDictEntries(n);
    FromEntries(ToDict(n).fields, n);
  }

  /** Every notification the constructor builds survives the dictionary round trip. */
  lemma NewNotificationRoundTrip(id: string, now: int, title: string, message: string, ntype: NotificationType,
                                 priority: NotificationPriority, targetUsers: seq<string>,
                                 experimentId: Option<string>, stepId: Option<string>, metadata: map<string, Json>,
                                 actions: seq<NotificationAction>, deliveryMethods: seq<DeliveryMethod>)
    ensures var n := NewNotification(id, now, title, message, ntype, priority, targetUsers, experimentId, stepId,
                                     metadata, actions, deliveryMethods);
            FromDict(ToDict(n)) == Some(n)
  {
    DictRoundTrip(NewNotification(id, now, title, message, ntype, priority, targetUsers, experimentId, stepId,
                                  metadata, actions, deliveryMethods));
  }

  // ---------------------------------------------------------------------------
  // Per-type handlers (`_handle_*`)

  /** `if notification.step_id:` */
  predicate StepIdSet(n: Notification)
  {
    n.stepId.Some? && n.stepId.value != ""
  }

  /** `notification.metadata.get("conflicting_step_id")` is truthy. */
  predicate ConflictSet(n: Notification)
  {
    "conflicting_step_id" in n.metadata && !Falsy(n.metadata["conflicting_step_id"])
  }

  function StepButton(actionId: string, labelText: string, stepId: Json): (a: NotificationAction)
    ensures a.actionType == BUTTON && a.data.Keys == {"step_id"} && a.data["step_id"] == stepId
  {
    NotificationAction(actionId, BUTTON, labelText, map["step_id" := stepId])
  }

  /** The text of `None` in an f-string, or the string itself. */
  function OptStrText(o: Option<string>): string
  {
    if o.Some? then o.value else "None"
  }

  /** The notification with `added` appended to its actions and nothing else changed. */
  ghost predicate Appended(n: Notification, r: Notification, added: seq<NotificationAction>)
  {
    r == n.(actions := n.actions + added)
  }

  /** The shared shape of the step-ready, step-paused and step-timeout handlers: one button for the step. */
  function WithStepButton(n: Notification, actionId: string, labelText: string): (r: Notification)
    ensures StepIdSet(n) ==> Appended(n, r, [StepButton(actionId, labelText, JStr(n.stepId.value))])
    ensures !StepIdSet(n) ==> r == n
  {
    if StepIdSet(n) then n.(actions := n.actions + [StepButton(actionId, labelText, JStr(n.stepId.value))])
    else n
  }

  function HandleStepReady(n: Notification): (r: Notification)
    ensures StepIdSet(n) ==> Appended(n, r, [StepButton("start_step", "Start Step", JStr(n.stepId.value))])
    ensures !StepIdSet(n) ==> r == n
  {
    WithStepButton(n, "start_step", "Start Step")
  }

  function HandleStepPaused(n: Notification): (r: Notification)
    ensures StepIdSet(n) ==> Appended(n, r, [StepButton("resume_step", "Resume Step", JStr(n.stepId.value))])
    ensures !StepIdSet(n) ==> r == n
  {
    WithStepButton(n, "resume_step", "Resume Step")
  }

  function HandleStepTimeout(n: Notification): (r: Notification)
    ensures StepIdSet(n) ==> Appended(n, r, [StepButton("complete_step", "Mark as Complete", JStr(n.stepId.value))])
    ensures !StepIdSet(n) ==> r == n
  {
    WithStepButton(n, "complete_step", "Mark as Complete")
  }

  /** Two pause buttons, only when both the step id and the conflicting step id are set. */
  function HandleResourceConflict(n: Notification): (r: Notification)
    ensures StepIdSet(n) && ConflictSet(n) ==>
              Appended(n, r, [StepButton("pause_step", "Pause Current Step", JStr(n.stepId.value)),
                              StepButton("pause_conflicting_step", "Pause Conflicting Step",
                                         n.metadata["conflicting_step_id"])])
    ensures !(StepIdSet(n) && ConflictSet(n)) ==> r == n
  {
    if StepIdSet(n) && ConflictSet(n) then
      n.(actions := n.actions + [StepButton("pause_step", "Pause Current Step", JStr(n.stepId.value)),
                                 StepButton("pause_conflicting_step", "Pause Conflicting Step",
                                            n.metadata["conflicting_step_id"])])
    else n
  }

  /** The link action `/run/<experiment id>?focus=<step id>`; a missing experiment id prints as "None". */
  function HandleUserAttention(n: Notification): (r: Notification)
    ensures StepIdSet(n) ==>
              Appended(n, r, [NotificationAction("view_step", LINK, "View Step",
                                                 map["link" := JStr("/run/" + OptStrText(n.experimentId) +
                                                                    "?focus=" + n.stepId.value)])])
    ensures !StepIdSet(n) ==> r == n
  {
    if StepIdSet(n) then
      var link := "/run/" + OptStrText(n.experimentId) + "?focus=" + n.stepId.value;
      n.(actions := n.actions + [NotificationAction("view_step", LINK, "View Step", map["link" := JStr(link)])])
    else n
  }

  function HandleError(n: Notification): (r: Notification)
    ensures r == n.(priority := HIGH)
  {
    n.(priority := HIGH)
  }

  /** How many actions the handler table adds to `n`. */
  function ExpectedActions(n: Notification): nat
  {
    match n.ntype
    case STEP_READY | STEP_PAUSED | STEP_TIMEOUT | USER_ATTENTION_REQUIRED => if StepIdSet(n) then 1 else 0
    case RESOURCE_CONFLICT => if StepIdSet(n) && ConflictSet(n) then 2 else 0
    case _ => 0
  }

  /**
   * The handler table of `create_notification`: STEP_COMPLETED's handler does
   * nothing, and GENERAL_INFO and CUSTOM have none.
   */
  function Handle(n: Notification): (r: Notification)
    ensures |r.actions| == |n.actions| + ExpectedActions(n) && r.actions[..|n.actions|] == n.actions
    ensures r.priority == if n.ntype == ERROR then HIGH else n.priority
    ensures r == n.(actions := r.actions, priority := r.priority)
  {
    match n.ntype
    case STEP_READY => HandleStepReady(n)
    case STEP_COMPLETED => n
    case STEP_PAUSED => HandleStepPaused(n)
    case STEP_TIMEOUT => HandleStepTimeout(n)
    case RESOURCE_CONFLICT => HandleResourceConflict(n)
    case USER_ATTENTION_REQUIRED => HandleUserAttention(n)
    case ERROR => HandleError(n)
    case GENERAL_INFO => n
    case CUSTOM => n
  }

  // ---------------------------------------------------------------------------
  // The per-user index

  /** `user_notifications.get(user, [])`. */
  function Ids(m: map<string, seq<string>>, user: string): (r: seq<string>)
    ensures user in m ==> r == m[user]
    ensures user !in m ==> r == []
  {
    if user in m then m[user] else []
  }

  function Repeat(x: string, k: nat): (r: seq<string>)
    ensures |r| == k && forall i :: 0 <= i < k ==> r[i] == x
  {
    if k == 0 then [] else Repeat(x, k - 1) + [x]
  }

  /** The loop of `create_notification`: `id` appended to each target's list, creating missing lists. */
  function AddToUsers(m: map<string, seq<string>>, users: seq<string>, id: string): map<string, seq<string>>
    decreases |users|
  {
    if users == [] then m
    else
      var m' := AddToUsers(m, users[..|users| - 1], id);
      var u := users[|users| - 1];
      m'[u := Ids(m', u) + [id]]
  }

  /** How often `u` is named in `init + [last]`. */
  lemma CountSnoc(init: seq<string>, last: string, u: string)
    ensures multiset(init + [last])[u] == multiset(init)[u] + if last == u then 1 else 0
  {
  }

  /** Appending one more copy to a run of copies. */
  lemma RepeatSnoc(prefix: seq<string>, x: string, k: nat)
    ensures (prefix + Repeat(x, k)) + [x] == prefix + Repeat(x, k + 1)
  {
  }

  /** Each target's list gains one copy of `id` per time it is named; no other list changes. */
  lemma {:induction false} AddToUsersAt(m: map<string, seq<string>>, users: seq<string>, id: string, u: string)
    ensures u in AddToUsers(m, users, id) <==> u in m || u in users
    ensures Ids(AddToUsers(m, users, id), u) == Ids(m, u) + Repeat(id, multiset(users)[u])
    decreases |users|
  {
    if users != [] {
      var init := users[..|users| - 1];
      var last := users[|users| - 1];
      assert users == init + [last];
      CountSnoc(init, last, u);
      AddToUsersAt(m, init, id, u);
      if last == u {
        RepeatSnoc(Ids(m, u), id, multiset(init)[u]);
      }
    }
  }

  /** `list.remove(x)`: drops the first occurrence of `x`. */
  function RemoveFirst(s: seq<string>, x: string): (r: seq<string>)
    ensures x in s ==> |r| == |s| - 1 && multiset(r) == multiset(s) - multiset{x}
    ensures x !in s ==> r == s
  {
    if s == [] then []
    else
      assert s == [s[0]] + s[1..];
      if s[0] == x then s[1..]
      else [s[0]] + RemoveFirst(s[1..], x)
  }

  /** The occurrence `list.remove` drops is the first one, at `i`: the rest of the list keeps its order. */
  lemma {:induction false} RemoveFirstDropsFirst(s: seq<string>, x: string, i: nat)
    requires i < |s| && s[i] == x && x !in s[..i]
    ensures RemoveFirst(s, x) == s[..i] + s[i + 1..]
    decreases i
  {
    if i > 0 {
      assert s[0] in s[..i];
      var t := s[1..];
      assert t[..i - 1] == s[1..i];
      assert x !in t[..i - 1] by {
        assert forall y :: y in s[1..i] ==> y in s[..i];
      }
      RemoveFirstDropsFirst(t, x, i - 1);
      assert RemoveFirst(s, x) == [s[0]] + (t[..i - 1] + t[i..]);
      ConsSlices(s, i - 1);
      assert [s[0]] + (t[..i - 1] + t[i..]) == ([s[0]] + t[..i - 1]) + t[i..];
    }
  }

  function RemoveFirstN(s: seq<string>, x: string, k: nat): seq<string>
    decreases k
  {
    if k == 0 then s else RemoveFirstN(RemoveFirst(s, x), x, k - 1)
  }

  /** The loop of `delete_notification`: one `remove(id)` per time a user is named, if the list holds `id`. */
  function RemoveFromUsers(m: map<string, seq<string>>, users: seq<string>, id: string): map<string, seq<string>>
    decreases |users|
  {
    if users == [] then m
    else
      var m' := RemoveFromUsers(m, users[..|users| - 1], id);
      var u := users[|users| - 1];
      if u in m' && id in m'[u] then m'[u := RemoveFirst(m'[u], id)] else m'
  }

  /** No list is created or dropped; each named list loses up to one `id` per time it is named. */
  lemma {:induction false} RemoveFromUsersAt(m: map<string, seq<string>>, users: seq<string>, id: string, u: string)
    ensures u in RemoveFromUsers(m, users, id) <==> u in m
    ensures u in m ==> RemoveFromUsers(m, users, id)[u] == RemoveFirstN(m[u], id, multiset(users)[u])
    decreases |users|
  {
    if users != [] {
      var init := users[..|users| - 1];
      var last := users[|users| - 1];
      assert users == init + [last];
      CountSnoc(init, last, u);
      RemoveFromUsersAt(m, init, id, u);
      if u in m && last == u {
        RemoveFirstNStep(m[u], id, multiset(init)[u]);
      }
    }
  }

  lemma {:induction false} RemoveFirstNStep(s: seq<string>, x: string, k: nat)
    ensures RemoveFirst(RemoveFirstN(s, x, k), x) == RemoveFirstN(s, x, k + 1)
    decreases k
  {
    if k > 0 {
      RemoveFirstNStep(RemoveFirst(s, x), x, k - 1);
    }
  }

  /** Removing the first `x` from `s + [x, ..]` when `s` has none takes one from the tail. */
  lemma {:induction false} RemoveFirstPastPrefix(s: seq<string>, x: string, k: nat)
    requires x !in s && k > 0
    ensures RemoveFirst(s + Repeat(x, k), x) == s + Repeat(x, k - 1)
    decreases |s|
  {
    if s == [] {
      assert Repeat(x, k)[0] == x;
      assert Repeat(x, k)[1..] == Repeat(x, k - 1);
    } else {
      assert (s + Repeat(x, k))[1..] == s[1..] + Repeat(x, k);
      RemoveFirstPastPrefix(s[1..], x, k);
      assert s == [s[0]] + s[1..];
    }
  }

  lemma {:induction false} RemoveRepeats(s: seq<string>, x: string, k: nat)
    requires x !in s
    ensures RemoveFirstN(s + Repeat(x, k), x, k) == s
    decreases k
  {
    if k > 0 {
      RemoveFirstPastPrefix(s, x, k);
      RemoveRepeats(s, x, k - 1);
    }
  }

  /** `m` with an empty list added for each user of `users` that has none. */
  function WithListsFor(m: map<string, seq<string>>, users: seq<string>): (r: map<string, seq<string>>)
    ensures forall u :: u in r <==> u in m || u in users
    ensures forall u :: u in m ==> r[u] == m[u]
  {
    map u | u in (m.Keys + (set v | v in users)) :: Ids(m, u)
  }

  /**
   * Deleting right after creating restores every list that existed and
   * leaves an empty list for each target that had none.
   */
  lemma IndexRoundTrip(m: map<string, seq<string>>, users: seq<string>, id: string)
    requires forall u :: u in m ==> id !in m[u]
    ensures RemoveFromUsers(AddToUsers(m, users, id), users, id) ==
            WithListsFor(m, users)
  {
    var added := AddToUsers(m, users, id);
    var r := RemoveFromUsers(added, users, id);
    var expected := WithListsFor(m, users);
    forall u
      ensures u in r <==> u in expected
      ensures u in r ==> r[u] == expected[u]
    {
      AddToUsersAt(m, users, id, u);
      RemoveFromUsersAt(added, users, id, u);
      if u in r {
        assert added[u] == Ids(m, u) + Repeat(id, multiset(users)[u]);
        RemoveRepeats(Ids(m, u), id, multiset(users)[u]);
      }
    }
  }

  /** The stored notifications a user's ids lead to, unread ones only if asked, in list order. */
  ghost function Feed(store: map<string, Notification>, ids: seq<string>, unreadOnly: bool): (r: seq<Notification>)
    ensures forall x :: x in r ==> (unreadOnly ==> !x.isRead) && exists k :: k in ids && k in store && store[k] == x
    ensures forall k :: k in ids && k in store && (!unreadOnly || !store[k].isRead) ==> store[k] in r
    decreases |ids|
  {
    if ids == [] then []
    else
      var init := ids[..|ids| - 1];
      var last := ids[|ids| - 1];
      assert forall k :: k in ids ==> k in init || k == last;
      Feed(store, init, unreadOnly) +
        (if last in store && (!unreadOnly || !store[last].isRead) then [store[last]] else [])
  }

  /** `sort(key=created_at, reverse=True)` as an ascending sort on the negated time. */
  function NewestFirst(n: Notification): int
  {
    -n.createdAt
  }

  /** A created notification appears in the feed of each of its targets. */
  lemma CreatedIsListed(store: map<string, Notification>, m: map<string, seq<string>>, n: Notification, u: string)
    requires u in n.targetUsers
    ensures Handle(n) in Feed(store[n.id := Handle(n)], Ids(AddToUsers(m, n.targetUsers, n.id), u), false)
  {
    AddToUsersAt(m, n.targetUsers, n.id, u);
    var ids := Ids(AddToUsers(m, n.targetUsers, n.id), u);
    assert ids[|Ids(m, u)|] == n.id;
  }

  function MarkRead(store: map<string, Notification>, id: string): (r: map<string, Notification>)
    ensures r.Keys == store.Keys
    ensures forall k :: k in store && k != id ==> r[k] == store[k]
    ensures id in store ==> r[id] == store[id].(isRead := true)
  {
    if id in store then store[id := store[id].(isRead := true)] else store
  }

  function MarkDismissed(store: map<string, Notification>, id: string): (r: map<string, Notification>)
    ensures r.Keys == store.Keys
    ensures forall k :: k in store && k != id ==> r[k] == store[k]
    ensures id in store ==> r[id] == store[id].(isDismissed := true)
  {
    if id in store then store[id := store[id].(isDismissed := true)] else store
  }

  /** Marking twice is marking once. */
  lemma MarkIdempotent(store: map<string, Notification>, id: string)
    ensures MarkRead(MarkRead(store, id), id) == MarkRead(store, id)
    ensures MarkDismissed(MarkDismissed(store, id), id) == MarkDismissed(store, id)
  {
  }

  /** The notification store. */
  class NotificationService {
    var notifications: map<string, Notification>
    var userNotifications: map<string, seq<string>>

    /** Each notification is stored under its own id. */
    ghost predicate Valid()
      reads this
    {
      forall id :: id in notifications ==> notifications[id].id == id
    }

    constructor()
      ensures Valid() && notifications == map[] && userNotifications == map[]
    {
      notifications := map[];
      userNotifications := map[];
    }

    /**
     * `create_notification`: stores the notification under its id, appends
     * the id to each target's list and runs the type's handler on the stored
     * notification; returns the id.
     */
    method CreateNotification(n: Notification) returns (id: string)
      requires Valid()
      modifies this
      ensures Valid()
      ensures id == n.id
      ensures notifications == old(notifications)[n.id := Handle(n)]
      ensures userNotifications == AddToUsers(old(userNotifications), n.targetUsers, n.id)
    {
      notifications := notifications[n.id := n];
      userNotifications := AddAll(userNotifications, n.targetUsers, n.id);
      notifications := notifications[n.id := Handle(n)];
      id := n.id;
    }

    /** The loop of `create_notification` over the targets. */
    static method AddAll(m0: map<string, seq<string>>, users: seq<string>, id: string)
      returns (m: map<string, seq<string>>)
      ensures m == AddToUsers(m0, users, id)
    {
      m := m0;
      for i := 0 to |users|
        invariant m == AddToUsers(m0, users[..i], id)
      {
        TakeSnoc(users, i);
        assert users[..i + 1][..i] == users[..i];
        var user := users[i];
        if user !in m {
          m := m[user := []];
        }
        m := m[user := m[user] + [id]];
      }
      TakeAll(users);
    }

    /**
     * `get_user_notifications`: the stored notifications the user's ids lead
     * to, read ones dropped when `unreadOnly`, newest first.
     */
    method GetUserNotifications(username: string, unreadOnly: bool) returns (result: seq<Notification>)
      ensures multiset(result) == multiset(Feed(notifications, Ids(userNotifications, username), unreadOnly))
      ensures forall i, j :: 0 <= i < j < |result| ==> result[i].createdAt >= result[j].createdAt
      ensures forall x :: x in result ==> x in notifications.Values && (unreadOnly ==> !x.isRead)
      ensures forall k :: (k in Ids(userNotifications, username) && k in notifications &&
                           (!unreadOnly || !notifications[k].isRead)) ==> notifications[k] in result
    {
      result := SelectFeed(notifications, Ids(userNotifications, username), unreadOnly);
    }

    /** The filter loop and sort of `get_user_notifications`. */
    static method SelectFeed(store: map<string, Notification>, ids: seq<string>, unreadOnly: bool)
      returns (result: seq<Notification>)
      ensures multiset(result) == multiset(Feed(store, ids, unreadOnly))
      ensures forall i, j :: 0 <= i < j < |result| ==> result[i].createdAt >= result[j].createdAt
      ensures forall x :: x in result ==> x in store.Values && (unreadOnly ==> !x.isRead)
      ensures forall k :: k in ids && k in store && (!unreadOnly || !store[k].isRead) ==> store[k] in result
    {
      var selected: seq<Notification> := [];
      for i := 0 to |ids|
        invariant selected == Feed(store, ids[..i], unreadOnly)
      {
        TakeSnoc(ids, i);
        var nid := ids[i];
        if nid in store {
          var notification := store[nid];
          if !unreadOnly || !notification.isRead {
            selected := selected + [notification];
          }
        }
      }
      TakeAll(ids);
      result := SortByKey(selected, NewestFirst);
      SameMembers(result, selected);
      forall i, j | 0 <= i < j < |result|
        ensures result[i].createdAt >= result[j].createdAt
      {
        assert NewestFirst(result[i]) <= NewestFirst(result[j]);
      }
      forall x | x in result
        ensures x in store.Values
      {
        var k :| k in ids && k in store && store[k] == x;
      }
    }

    /** `mark_as_read`: true iff the id is stored; only that notification's read flag changes. */
    method MarkAsRead(notificationId: string) returns (found: bool)
      requires Valid()
      modifies this
      ensures Valid()
      ensures found == (notificationId in old(notifications))
      ensures notifications == MarkRead(old(notifications), notificationId)
      ensures userNotifications == old(userNotifications)
    {
      if notificationId in notifications {
        notifications := notifications[notificationId := notifications[notificationId].(isRead := true)];
        return true;
      }
      return false;
    }

    /** `mark_as_dismissed`: true iff the id is stored; only that notification's dismissed flag changes. */
    method MarkAsDismissed(notificationId: string) returns (found: bool)
      requires Valid()
      modifies this
      ensures Valid()
      ensures found == (notificationId in old(notifications))
      ensures notifications == MarkDismissed(old(notifications), notificationId)
      ensures userNotifications == old(userNotifications)
    {
      if notificationId in notifications {
        notifications := notifications[notificationId := notifications[notificationId].(isDismissed := true)];
        return true;
      }
      return false;
    }

    /**
     * `delete_notification`: false and no change for an unknown id; otherwise
     * the id leaves its targets' lists and the entry is removed.
     */
    method DeleteNotification(notificationId: string) returns (found: bool)
      requires Valid()
      modifies this
      ensures Valid()
      ensures found == (notificationId in old(notifications))
      ensures !found ==> notifications == old(notifications) && userNotifications == old(userNotifications)
      ensures found ==> notifications == old(notifications) - {notificationId}
      ensures found ==> userNotifications ==
                          RemoveFromUsers(old(userNotifications), old(notifications)[notificationId].targetUsers,
                                          notificationId)
    {
      if notificationId !in notifications {
        return false;
      }
      var notification := notifications[notificationId];
      userNotifications := RemoveAll(userNotifications, notification.targetUsers, notificationId);
      notifications := notifications - {notificationId};
      return true;
    }

    /** The loop of `delete_notification` over the targets. */
    static method RemoveAll(m0: map<string, seq<string>>, users: seq<string>, id: string)
      returns (m: map<string, seq<string>>)
      ensures m == RemoveFromUsers(m0, users, id)
    {
      m := m0;
      for i := 0 to |users|
        invariant m == RemoveFromUsers(m0, users[..i], id)
      {
        TakeSnoc(users, i);
        assert users[..i + 1][..i] == users[..i];
        var user := users[i];
        if user in m && id in m[user] {
          m := m[user := RemoveFirst(m[user], id)];
        }
      }
      TakeAll(users);
    }
  }

  /**
   * Creating a notification with a fresh id that no list holds and then
   * deleting it gives back the store, and the index up to empty lists for
   * targets that had none.
   */
  lemma CreateDeleteRoundTrip(store: map<string, Notification>, m: map<string, seq<string>>, n: Notification)
    requires n.id !in store && forall u :: u in m ==> n.id !in m[u]
    ensures store[n.id := Handle(n)] - {n.id} == store
    ensures RemoveFromUsers(AddToUsers(m, n.targetUsers, n.id), Handle(n).targetUsers, n.id) ==
            WithListsFor(m, n.targetUsers)
  {
    IndexRoundTrip(m, n.targetUsers, n.id);
  }

  // ---------------------------------------------------------------------------
  // Factories (`create_notification_factories`)
  //
  // Experiments have no `owner` attribute, so the target users are the ones
  // given (an absent list is the empty list). `id` and `now` stand for the
  // constructor's uuid and clock.

  /** The metadata of a step-ready notification; a start time is kept as seconds. */
  function ReadyMetadata(step: Models.StepState): (r: map<string, Json>)
    ensures r.Keys == {"scheduled_start_time", "step_type"}
    ensures r["scheduled_start_time"] == (if step.scheduledStart.Some? then JInt(step.scheduledStart.value) else JNull)
    ensures r["step_type"] == JStr(Models.StepTypeValue(step.stepType))
  {
    map["scheduled_start_time" := if step.scheduledStart.Some? then JInt(step.scheduledStart.value) else JNull,
        "step_type" := JStr(Models.StepTypeValue(step.stepType))]
  }

  function StepReadyNotification(id: string, now: int, step: Models.StepState, experiment: Models.Experiment,
                                 targetUsers: seq<string>): (n: Notification)
    reads experiment
    ensures n.ntype == STEP_READY && n.priority == MEDIUM && n.targetUsers == targetUsers
    ensures n.experimentId == Some(experiment.id) && n.stepId == Some(step.id) && n.actions == []
    ensures n.metadata == ReadyMetadata(step)
  {
    NewNotification(id, now, "Step Ready: " + step.name,
                    "The step '" + step.name + "' in experiment '" + experiment.name + "' is ready to start.",
                    STEP_READY, MEDIUM, targetUsers, Some(experiment.id), Some(step.id), ReadyMetadata(step), [], [])
  }

  function StepCompletedNotification(id: string, now: int, step: Models.StepState, experiment: Models.Experiment,
                                     targetUsers: seq<string>): (n: Notification)
    reads experiment
    ensures n.ntype == STEP_COMPLETED && n.priority == LOW && n.targetUsers == targetUsers
    ensures n.experimentId == Some(experiment.id) && n.stepId == Some(step.id)
    ensures n.metadata == map[] && n.actions == []
  {
    NewNotification(id, now, "Step Completed: " + step.name,
                    "The step '" + step.name + "' in experiment '" + experiment.name + "' has been completed.",
                    STEP_COMPLETED, LOW, targetUsers, Some(experiment.id), Some(step.id), map[], [], [])
  }

  function ResourceConflictNotification(id: string, now: int, step1: Models.StepState, step2: Models.StepState,
                                        experiment: Models.Experiment, resource: string,
                                        targetUsers: seq<string>): (n: Notification)
    reads experiment
    ensures n.ntype == RESOURCE_CONFLICT && n.priority == HIGH && n.targetUsers == targetUsers
    ensures n.experimentId == Some(experiment.id) && n.stepId == Some(step1.id) && n.actions == []
    ensures n.metadata.Keys == {"resource", "conflicting_step_id", "conflicting_step_name"}
    ensures n.metadata["conflicting_step_id"] == JStr(step2.id)
  {
    NewNotification(id, now, "Resource Conflict: " + resource,
                    "Resource conflict detected: '" + step1.name + "' and '" + step2.name + "' both need '" +
                    resource + "'.",
                    RESOURCE_CONFLICT, HIGH, targetUsers, Some(experiment.id), Some(step1.id),
                    map["resource" := JStr(resource), "conflicting_step_id" := JStr(step2.id),
                        "conflicting_step_name" := JStr(step2.name)], [], [])
  }

  function UserAttentionNotification(id: string, now: int, step: Models.StepState, experiment: Models.Experiment,
                                     targetUsers: seq<string>): (n: Notification)
    reads experiment
    ensures n.ntype == USER_ATTENTION_REQUIRED && n.priority == HIGH && n.targetUsers == targetUsers
    ensures n.experimentId == Some(experiment.id) && n.stepId == Some(step.id)
    ensures n.metadata == map[] && n.actions == []
  {
    NewNotification(id, now, "Attention Required: " + step.name,
                    "Your attention is required for step '" + step.name + "' in experiment '" + experiment.name +
                    "'.",
                    USER_ATTENTION_REQUIRED, HIGH, targetUsers, Some(experiment.id), Some(step.id), map[], [], [])
  }

  function StepTimeoutNotification(id: string, now: int, step: Models.StepState, experiment: Models.Experiment,
                                   targetUsers: seq<string>): (n: Notification)
    reads experiment
    ensures n.ntype == STEP_TIMEOUT && n.priority == MEDIUM && n.targetUsers == targetUsers
    ensures n.experimentId == Some(experiment.id) && n.stepId == Some(step.id)
    ensures n.metadata == map[] && n.actions == []
  {
    NewNotification(id, now, "Step Timeout: " + step.name,
                    "The step '" + step.name + "' in experiment '" + experiment.name +
                    "' has exceeded its expected duration.",
                    STEP_TIMEOUT, MEDIUM, targetUsers, Some(experiment.id), Some(step.id), map[], [], [])
  }

  /** Once stored, a step-ready notification carries exactly one start button for its step, if the id is set. */
  lemma StepReadyActions(id: string, now: int, step: Models.StepState, experiment: Models.Experiment,
                         targetUsers: seq<string>)
    ensures var h := Handle(StepReadyNotification(id, now, step, experiment, targetUsers));
            && (step.id != "" ==> h.actions == [StepButton("start_step", "Start Step", JStr(step.id))])
            && (step.id == "" ==> h.actions == [])
            && h.priority == MEDIUM
  {
  }

  /** A stored timeout notification offers "Mark as Complete" for its step. */
  lemma StepTimeoutActions(id: string, now: int, step: Models.StepState, experiment: Models.Experiment,
                           targetUsers: seq<string>)
    ensures var h := Handle(StepTimeoutNotification(id, now, step, experiment, targetUsers));
            && (step.id != "" ==> h.actions == [StepButton("complete_step", "Mark as Complete", JStr(step.id))])
            && (step.id == "" ==> h.actions == [])
  {
  }

  /** A stored conflict notification offers both pause buttons exactly when both step ids are non-empty. */
  lemma ResourceConflictActions(id: string, now: int, step1: Models.StepState, step2: Models.StepState,
                                experiment: Models.Experiment, resource: string, targetUsers: seq<string>)
    ensures var h := Handle(ResourceConflictNotification(id, now, step1, step2, experiment, resource, targetUsers));
            && (step1.id != "" && step2.id != "" ==>
                  h.actions == [StepButton("pause_step", "Pause Current Step", JStr(step1.id)),
                                StepButton("pause_conflicting_step", "Pause Conflicting Step", JStr(step2.id))])
            && (step1.id == "" || step2.id == "" ==> h.actions == [])
  {
  }

  /** A stored attention notification links to its step in its experiment's run view. */
  lemma UserAttentionActions(id: string, now: int, step: Models.StepState, experiment: Models.Experiment,
                             targetUsers: seq<string>)
    ensures var h := Handle(UserAttentionNotification(id, now, step, experiment, targetUsers));
            && (step.id != "" ==>
                  h.actions == [NotificationAction("view_step", LINK, "View Step",
                                                   map["link" := JStr("/run/" + experiment.id + "?focus=" + step.id)])])
            && (step.id == "" ==> h.actions == [])
  {
  }
}
