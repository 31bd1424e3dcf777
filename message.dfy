/**
  The outgoing request body of the legacy FCM HTTP send API (`FcmMsg`) and the
  meaning of each builder setter as a function on that value.

  `Apply(m, op)` is what one setter call does to the held message; the class
  `FcmNotify.Notifier` performs the same updates in place and is specified by it.
  `ApplyAll` is a fluent chain of setter calls.
*/
module FcmMessage {
  import opened Wrappers

  /** Four weeks, in seconds: the largest time-to-live the builder stores. */
  const MaxTTL: int := 2419200

  /** The optional display payload; every field is a plain string. */
  datatype NotificationPayload = NotificationPayload(
    title: string,
    body: string,
    icon: string,
    sound: string,
    badge: string,
    tag: string,
    color: string,
    clickAction: string,
    bodyLocKey: string,
    bodyLocArgs: string,
    titleLocKey: string,
    titleLocArgs: string)

  /** The request body. `data` is the caller's opaque payload; `None` is Go's nil. */
  datatype FcmMsg<D> = FcmMsg(
    data: Option<D>,
    to: string,
    registrationIds: seq<string>,
    collapseKey: string,
    priority: string,
    notification: NotificationPayload,
    contentAvailable: bool,
    timeToLive: int,
    restrictedPackageName: string,
    dryRun: bool,
    condition: string)

  function EmptyPayload(): NotificationPayload {
    NotificationPayload("", "", "", "", "", "", "", "", "", "", "", "")
  }

  /** The zero value a new notifier holds. */
  function EmptyMsg<D>(): FcmMsg<D> {
    FcmMsg(None, "", [], "", "", EmptyPayload(), false, 0, "", false, "")
  }

  /**
    The observable parts of a message. The three payload fields a setter can
    write are separate; the nine the builder never writes are grouped together.
  */
  datatype Field =
    | Data | To | RegistrationIds | CollapseKey | Priority
    | Title | Body | Icon | OtherNotification
    | ContentAvailable | TimeToLive | RestrictedPackageName | DryRun | Condition

  /** `m` and `m'` hold the same value in field `f`. */
  ghost predicate AgreeOn<D>(m: FcmMsg<D>, m': FcmMsg<D>, f: Field) {
    match f
    case Data => m.data == m'.data
    case To => m.to == m'.to
    case RegistrationIds => m.registrationIds == m'.registrationIds
    case CollapseKey => m.collapseKey == m'.collapseKey
    case Priority => m.priority == m'.priority
    case Title => m.notification.title == m'.notification.title
    case Body => m.notification.body == m'.notification.body
    case Icon => m.notification.icon == m'.notification.icon
    case OtherNotification =>
      var n, n' := m.notification, m'.notification;
      && n.sound == n'.sound && n.badge == n'.badge && n.tag == n'.tag
      && n.color == n'.color && n.clickAction == n'.clickAction
      && n.bodyLocKey == n'.bodyLocKey && n.bodyLocArgs == n'.bodyLocArgs
      && n.titleLocKey == n'.titleLocKey && n.titleLocArgs == n'.titleLocArgs
    case ContentAvailable => m.contentAvailable == m'.contentAvailable
    case TimeToLive => m.timeToLive == m'.timeToLive
    case RestrictedPackageName => m.restrictedPackageName == m'.restrictedPackageName
    case DryRun => m.dryRun == m'.dryRun
    case Condition => m.condition == m'.condition
  }

  /** `m` and `m'` differ at most in field `f`. */
  ghost predicate AgreeExcept<D>(m: FcmMsg<D>, m': FcmMsg<D>, f: Field) {
    forall g: Field :: g != f ==> AgreeOn(m, m', g)
  }

  /**
    Two messages that agree on every field are the same message: `Field`
    covers every part of `FcmMsg`, so `AgreeExcept(m, m', f)` is a complete
    frame that leaves only field `f` free.
  */
  lemma AgreeEverywhere<D>(m: FcmMsg<D>, m': FcmMsg<D>)
    requires forall g: Field :: AgreeOn(m, m', g)
    ensures m == m'
  {
    assert AgreeOn(m, m', OtherNotification);
    assert AgreeOn(m, m', Title) && AgreeOn(m, m', Body) && AgreeOn(m, m', Icon);
    assert m.notification == m'.notification;
    assert AgreeOn(m, m', Data) && AgreeOn(m, m', To) && AgreeOn(m, m', RegistrationIds);
    assert AgreeOn(m, m', CollapseKey) && AgreeOn(m, m', Priority);
    assert AgreeOn(m, m', ContentAvailable) && AgreeOn(m, m', TimeToLive);
    assert AgreeOn(m, m', RestrictedPackageName) && AgreeOn(m, m', DryRun);
    assert AgreeOn(m, m', Condition);
  }

  /** One setter call of the builder, with the value it was given. */
  datatype Op<D> =
    | SetTopic(topic: string)
    | SetRegistrationIds(ids: seq<string>)
    | SetTitle(title: string)
    | SetBody(body: string)
    | SetIcon(icon: string)
    | SetCollapseKey(collapseKey: string)
    | SetCondition(condition: string)
    | SetContentAvailable(contentAvailable: bool)
    | SetData(data: Option<D>)
    | SetDryRun(dryRun: bool)
    | SetHighPriority
    | SetRestrictedPackageName(packageName: string)
    | SetTTL(ttl: int)

  /** The one field a setter writes. */
  function Writes<D>(op: Op<D>): Field {
    match op
    case SetTopic(_) => To
    case SetRegistrationIds(_) => RegistrationIds
    case SetTitle(_) => Title
    case SetBody(_) => Body
    case SetIcon(_) => Icon
    case SetCollapseKey(_) => CollapseKey
    case SetCondition(_) => Condition
    case SetContentAvailable(_) => ContentAvailable
    case SetData(_) => Data
    case SetDryRun(_) => DryRun
    case SetHighPriority => Priority
    case SetRestrictedPackageName(_) => RestrictedPackageName
    case SetTTL(_) => TimeToLive
  }

  /**
    The time-to-live the builder stores for a requested value: values above
    MaxTTL are cut down to it, everything else (negative values included) is
    kept as given.
  */
  function ClampTTL(value: int): (stored: int)
    ensures stored <= MaxTTL
    ensures stored <= value
    ensures stored == value <==> value <= MaxTTL
    ensures value > MaxTTL ==> stored == MaxTTL
  {
    if value > MaxTTL then MaxTTL else value
  }

  /**
    The message after one setter call: the field the setter names holds the
    given value (the clamped one for SetTTL, "high" for SetHighPriority), and
    every other field is as before.
  */
  function Apply<D>(m: FcmMsg<D>, op: Op<D>): (r: FcmMsg<D>)
    ensures AgreeExcept(m, r, Writes(op))
    ensures match op
      case SetTopic(v) => r.to == v
      case SetRegistrationIds(ids) => r.registrationIds == ids
      case SetTitle(v) => r.notification.title == v
      case SetBody(v) => r.notification.body == v
      case SetIcon(v) => r.notification.icon == v
      case SetCollapseKey(v) => r.collapseKey == v
      case SetCondition(v) => r.condition == v
      case SetContentAvailable(v) => r.contentAvailable == v
      case SetData(v) => r.data == v
      case SetDryRun(v) => r.dryRun == v
      case SetHighPriority => r.priority == "high"
      case SetRestrictedPackageName(v) => r.restrictedPackageName == v
      case SetTTL(v) => r.timeToLive == ClampTTL(v) && r.timeToLive <= MaxTTL
  {
    match op
    case SetTopic(v) => m.(to := v)
    case SetRegistrationIds(ids) => m.(registrationIds := ids)
    case SetTitle(v) => m.(notification := m.notification.(title := v))
    case SetBody(v) => m.(notification := m.notification.(body := v))
    case SetIcon(v) => m.(notification := m.notification.(icon := v))
    case SetCollapseKey(v) => m.(collapseKey := v)
    case SetCondition(v) => m.(condition := v)
    case SetContentAvailable(v) => m.(contentAvailable := v)
    case SetData(v) => m.(data := v)
    case SetDryRun(v) => m.(dryRun := v)
    case SetHighPriority => m.(priority := "high")
    case SetRestrictedPackageName(v) => m.(restrictedPackageName := v)
    case SetTTL(v) => m.(timeToLive := ClampTTL(v))
  }

  /** The field a setter writes holds a value that depends on the setter alone, not on the message before. */
  lemma WrittenValueIgnoresPast<D>(m: FcmMsg<D>, m': FcmMsg<D>, op: Op<D>)
    ensures AgreeOn(Apply(m, op), Apply(m', op), Writes(op))
  {
  }

  /** Calling the same setter twice with the same value is the same as calling it once. */
  lemma SetterIdempotent<D>(m: FcmMsg<D>, op: Op<D>)
    ensures Apply(Apply(m, op), op) == Apply(m, op)
  {
  }

  /** A fluent chain of setter calls, applied left to right. */
  function ApplyAll<D>(m: FcmMsg<D>, ops: seq<Op<D>>): FcmMsg<D>
    decreases |ops|
  {
    if ops == [] then m else ApplyAll(Apply(m, ops[0]), ops[1..])
  }

  /** Running two chains one after the other is running their concatenation. */
  lemma {:induction false} ApplyAllAppend<D>(m: FcmMsg<D>, a: seq<Op<D>>, b: seq<Op<D>>)
    ensures ApplyAll(m, a + b) == ApplyAll(ApplyAll(m, a), b)
    decreases |a|
  {
    if a == [] {
      assert a + b == b;
    } else {
      assert (a + b)[0] == a[0];
      assert (a + b)[1..] == a[1..] + b;
      ApplyAllAppend(Apply(m, a[0]), a[1..], b);
    }
  }

  /** A field that no setter of the chain names keeps its value through the whole chain. */
  lemma {:induction false} ChainFrame<D>(m: FcmMsg<D>, ops: seq<Op<D>>, f: Field)
    requires forall i :: 0 <= i < |ops| ==> Writes(ops[i]) != f
    ensures AgreeOn(m, ApplyAll(m, ops), f)
    decreases |ops|
  {
    if ops != [] {
      var next := Apply(m, ops[0]);
      assert AgreeExcept(m, next, Writes(ops[0]));
      assert AgreeOn(m, next, f);
      ChainFrame(next, ops[1..], f);
    }
  }

  /**
    The last setter for a field decides it: after `before`, `op` and a tail
    `after` that never writes op's field, that field holds what `op` wrote.
  */
  lemma {:induction false} LastWriteWins<D>(m: FcmMsg<D>, before: seq<Op<D>>, op: Op<D>, after: seq<Op<D>>)
    requires forall i :: 0 <= i < |after| ==> Writes(after[i]) != Writes(op)
    ensures AgreeOn(ApplyAll(m, before + [op] + after), Apply(m, op), Writes(op))
  {
    var mid := ApplyAll(m, before);
    ApplyAllAppend(m, before + [op], after);
    ApplyAllAppend(m, before, [op]);
    assert ApplyAll(mid, [op]) == Apply(mid, op);
    WrittenValueIgnoresPast(mid, m, op);
    ChainFrame(Apply(mid, op), after, Writes(op));
  }

  /** Once the stored time-to-live is within MaxTTL, no chain of setters can push it above. */
  lemma {:induction false} ChainKeepsTTLBound<D>(m: FcmMsg<D>, ops: seq<Op<D>>)
    requires m.timeToLive <= MaxTTL
    ensures ApplyAll(m, ops).timeToLive <= MaxTTL
    decreases |ops|
  {
    if ops != [] {
      var next := Apply(m, ops[0]);
      if Writes(ops[0]) != TimeToLive {
        assert AgreeOn(m, next, TimeToLive);
      }
      ChainKeepsTTLBound(next, ops[1..]);
    }
  }

  /**
    The targets do not exclude each other: setting a topic and a list of
    registration ids, in either order, leaves both in the message, and the
    condition untouched.
  */
  lemma TargetsCoexist<D>(m: FcmMsg<D>, topic: string, ids: seq<string>)
    ensures var r := ApplyAll(m, [SetTopic(topic), SetRegistrationIds(ids)]);
      r.to == topic && r.registrationIds == ids && r.condition == m.condition
    ensures var r := ApplyAll(m, [SetRegistrationIds(ids), SetTopic(topic)]);
      r.to == topic && r.registrationIds == ids && r.condition == m.condition
  {
    var a := Apply(m, SetTopic(topic));
    var topicFirst: seq<Op<D>> := [SetTopic(topic), SetRegistrationIds(ids)];
    assert topicFirst[1..] == [SetRegistrationIds(ids)];
    assert ApplyAll(a, [SetRegistrationIds(ids)]) == Apply(a, SetRegistrationIds(ids));
    assert ApplyAll(m, [SetTopic(topic), SetRegistrationIds(ids)]) == Apply(a, SetRegistrationIds(ids));
    var b := Apply(m, SetRegistrationIds(ids));
    var idsFirst: seq<Op<D>> := [SetRegistrationIds(ids), SetTopic(topic)];
    assert idsFirst[1..] == [SetTopic(topic)];
    assert ApplyAll(b, [SetTopic(topic)]) == Apply(b, SetTopic(topic));
    assert ApplyAll(m, [SetRegistrationIds(ids), SetTopic(topic)]) == Apply(b, SetTopic(topic));
    assert AgreeOn(a, Apply(a, SetRegistrationIds(ids)), To);
    assert AgreeOn(b, Apply(b, SetTopic(topic)), RegistrationIds);
    assert AgreeOn(m, a, Condition) && AgreeOn(a, Apply(a, SetRegistrationIds(ids)), Condition);
    assert AgreeOn(m, b, Condition) && AgreeOn(b, Apply(b, SetTopic(topic)), Condition);
  }
}
