/**
  The notifier: an API key and an outgoing message that fluent setters update
  in place, and `Send`, which encodes the message, posts it once and
  interprets the reply.

  Each setter is specified by `FcmMessage.Apply`: the abstract message `Msg()`
  after the call is the old one with that setter applied, the API key is
  unchanged, and the same notifier is returned for chaining. Only
  `SetRegistrationIds` replaces the array that holds the registration ids;
  every other setter keeps the very same array, so the copy made there stays
  unshared with the caller for the rest of the builder's life.
*/
module FcmNotify {
  import opened Wrappers
  import opened FcmMessage
  import opened FcmSend

  class Notifier<D> {
    var apiKey: string

    // The fields of the held message, updated in place by the setters.
    var data: Option<D>
    var to: string
    var registrationIds: array<string>
    var collapseKey: string
    var priority: string
    var notification: NotificationPayload
    var contentAvailable: bool
    var timeToLive: int
    var restrictedPackageName: string
    var dryRun: bool
    var condition: string

    /** The held message as a value. */
    function Msg(): FcmMsg<D>
      reads this, registrationIds
    {
      FcmMsg(data, to, registrationIds[..], collapseKey, priority, notification,
             contentAvailable, timeToLive, restrictedPackageName, dryRun, condition)
    }

    /** A notifier for the given server key, holding the empty message. */
    constructor (apiKey: string)
      ensures this.apiKey == apiKey
      ensures Msg() == EmptyMsg()
      ensures fresh(registrationIds)
    {
      this.apiKey := apiKey;
      data := None;
      to := "";
      registrationIds := new string[0];
      collapseKey := "";
      priority := "";
      notification := EmptyPayload();
      contentAvailable := false;
      timeToLive := 0;
      restrictedPackageName := "";
      dryRun := false;
      condition := "";
    }

    method SetTopic(value: string) returns (self: Notifier<D>)
      modifies this
      ensures self == this && apiKey == old(apiKey)
      ensures registrationIds == old(registrationIds)
      ensures Msg() == Apply(old(Msg()), Op.SetTopic(value))
    {
      to := value;
      self := this;
    }

    /**
      Stores a copy of `list` in freshly allocated storage, so later writes
      to the caller's array do not reach the message.
    */
    method SetRegistrationIds(list: array<string>) returns (self: Notifier<D>)
      modifies this
      ensures self == this && apiKey == old(apiKey)
      ensures fresh(registrationIds)
      ensures registrationIds[..] == list[..]
      ensures Msg() == Apply(old(Msg()), Op.SetRegistrationIds(list[..]))
    {
      var ids := new string[list.Length];
      var i := 0;
      while i < list.Length
        invariant 0 <= i <= list.Length
        invariant ids[..i] == list[..i]
        modifies ids
      {
        ids[i] := list[i];
        i := i + 1;
      }
      assert ids[..] == list[..];
      registrationIds := ids;
      self := this;
    }

    method SetTitle(value: string) returns (self: Notifier<D>)
      modifies this
      ensures self == this && apiKey == old(apiKey)
      ensures registrationIds == old(registrationIds)
      ensures Msg() == Apply(old(Msg()), Op.SetTitle(value))
    {
      notification := notification.(title := value);
      self := this;
    }

    method SetBody(value: string) returns (self: Notifier<D>)
      modifies this
      ensures self == this && apiKey == old(apiKey)
      ensures registrationIds == old(registrationIds)
      ensures Msg() == Apply(old(Msg()), Op.SetBody(value))
    {
      notification := notification.(body := value);
      self := this;
    }

    method SetIcon(value: string) returns (self: Notifier<D>)
      modifies this
      ensures self == this && apiKey == old(apiKey)
      ensures registrationIds == old(registrationIds)
      ensures Msg() == Apply(old(Msg()), Op.SetIcon(value))
    {
      notification := notification.(icon := value);
      self := this;
    }

    method SetCollapseKey(value: string) returns (self: Notifier<D>)
      modifies this
      ensures self == this && apiKey == old(apiKey)
      ensures registrationIds == old(registrationIds)
      ensures Msg() == Apply(old(Msg()), Op.SetCollapseKey(value))
    {
      collapseKey := value;
      self := this;
    }

    method SetCondition(value: string) returns (self: Notifier<D>)
      modifies this
      ensures self == this && apiKey == old(apiKey)
      ensures registrationIds == old(registrationIds)
      ensures Msg() == Apply(old(Msg()), Op.SetCondition(value))
    {
      condition := value;
      self := this;
    }

    method SetContentAvailable(value: bool) returns (self: Notifier<D>)
      modifies this
      ensures self == this && apiKey == old(apiKey)
      ensures registrationIds == old(registrationIds)
      ensures Msg() == Apply(old(Msg()), Op.SetContentAvailable(value))
    {
      contentAvailable := value;
      self := this;
    }

    method SetData(value: Option<D>) returns (self: Notifier<D>)
      modifies this
      ensures self == this && apiKey == old(apiKey)
      ensures registrationIds == old(registrationIds)
      ensures Msg() == Apply(old(Msg()), Op.SetData(value))
    {
      data := value;
      self := this;
    }

    method SetDryRun(value: bool) returns (self: Notifier<D>)
      modifies this
      ensures self == this && apiKey == old(apiKey)
      ensures registrationIds == old(registrationIds)
      ensures Msg() == Apply(old(Msg()), Op.SetDryRun(value))
    {
      dryRun := value;
      self := this;
    }

    /** Overrides the gateway's default "normal" priority; unlike the other setters it returns nothing. */
    method SetHighPriority()
      modifies this
      ensures apiKey == old(apiKey)
      ensures registrationIds == old(registrationIds)
      ensures Msg() == Apply(old(Msg()), Op.SetHighPriority)
    {
      priority := "high";
    }

    method SetRestrictedPackageName(value: string) returns (self: Notifier<D>)
      modifies this
      ensures self == this && apiKey == old(apiKey)
      ensures registrationIds == old(registrationIds)
      ensures Msg() == Apply(old(Msg()), Op.SetRestrictedPackageName(value))
    {
      restrictedPackageName := value;
      self := this;
    }

    /** Stores the requested time-to-live, cut down to MaxTTL when it is larger. */
    method SetTTL(value: int) returns (self: Notifier<D>)
      modifies this
      ensures self == this && apiKey == old(apiKey)
      ensures registrationIds == old(registrationIds)
      ensures timeToLive <= MaxTTL
      ensures Msg() == Apply(old(Msg()), Op.SetTTL(value))
    {
      if value > MaxTTL {
        timeToLive := MaxTTL;
      } else {
        timeToLive := value;
      }
      self := this;
    }

    /**
      Encodes the held message, posts it at most once and interprets the
      reply. An encoding failure returns the zero response and that error and
      posts nothing; otherwise exactly one request is posted, the one for the
      encoded body authorised with this notifier's key, and the outcome is
      `Interpret` of the reply to that post. Nothing of the notifier changes.
    */
    method Send(
      marshal: FcmMsg<D> -> Result<Bytes, Error>,
      gateway: Gateway,
      unmarshal: Bytes -> Result<ResponseFields, Error>)
      returns (response: SendResponse, err: Option<Error>)
      modifies gateway
      ensures marshal(Msg()).Failure? ==>
                && gateway.posted == old(gateway.posted)
                && response == ZeroResponse() && err == Some(marshal(Msg()).error)
      ensures marshal(Msg()).Success? ==>
                var request := NewRequest(apiKey, marshal(Msg()).value);
                && gateway.posted == old(gateway.posted) + [request]
                && SendResult(response, err) == Interpret(gateway.replies(|old(gateway.posted)|, request), unmarshal)
    {
      response := ZeroResponse();
      var encoded := marshal(Msg());
      if encoded.Failure? {
        return response, Some(encoded.error);
      }
      var request := NewRequest(apiKey, encoded.value);
      var reply := gateway.Post(request);
      if reply.TransportFailed? || reply.ReadFailed? {
        err := Some(reply.error);
      } else {
        err := None;
        response := response.(statusCode := reply.status);
        if reply.status == StatusOK {
          var decoded := unmarshal(reply.body);
          if decoded.Failure? {
            err := Some(decoded.error);
          } else {
            response := Populate(response, decoded.value);
            response := response.(ok := true);
          }
        }
      }
    }
  }

  /**
    Sending twice without touching the builder in between posts the same
    request twice: Send consumes nothing of the message, does not clear it
    and leaves the key alone. The gateway may answer the two posts
    differently, so each outcome is stated against the reply to its own post.
  */
  method SendTwice<D>(
    n: Notifier<D>,
    marshal: FcmMsg<D> -> Result<Bytes, Error>,
    gateway: Gateway,
    unmarshal: Bytes -> Result<ResponseFields, Error>)
    returns (first: SendResult, second: SendResult)
    modifies gateway
    ensures n.Msg() == old(n.Msg()) && n.apiKey == old(n.apiKey)
    ensures marshal(n.Msg()).Failure? ==>
              && gateway.posted == old(gateway.posted)
              && first == second == SendResult(ZeroResponse(), Some(marshal(n.Msg()).error))
    ensures marshal(n.Msg()).Success? ==>
              var request, k := NewRequest(n.apiKey, marshal(n.Msg()).value), |old(gateway.posted)|;
              && gateway.posted == old(gateway.posted) + [request, request]
              && first == Interpret(gateway.replies(k, request), unmarshal)
              && second == Interpret(gateway.replies(k + 1, request), unmarshal)
  {
    var r1, e1 := n.Send(marshal, gateway, unmarshal);
    var r2, e2 := n.Send(marshal, gateway, unmarshal);
    first, second := SendResult(r1, e1), SendResult(r2, e2);
  }

  /**
    A caller that keeps writing to its own list after handing it over, even
    after further setter calls, does not change the notifier's targets.
  */
  method CallerWritesAfterCopy<D>(n: Notifier<D>, list: array<string>, topic: string, ttl: int, newId: string)
    modifies n, list
    ensures n.registrationIds[..] == old(list[..])
    ensures n.to == topic && n.timeToLive <= MaxTTL && n.priority == "high"
    ensures list.Length > 0 ==> list[0] == newId
  {
    var _ := n.SetRegistrationIds(list);
    var _ := n.SetTopic(topic);
    var _ := n.SetTTL(ttl);
    n.SetHighPriority();
    if list.Length > 0 {
      list[0] := newId;
    }
  }

  /** Setting a topic and registration ids, in either order, leaves both in the message. */
  method SetBothTargets<D>(n: Notifier<D>, topic: string, list: array<string>, topicFirst: bool)
    modifies n
    ensures n.to == topic && n.registrationIds[..] == list[..]
    ensures n.condition == old(n.condition)
  {
    if topicFirst {
      var _ := n.SetTopic(topic);
      var _ := n.SetRegistrationIds(list);
    } else {
      var _ := n.SetRegistrationIds(list);
      var _ := n.SetTopic(topic);
    }
  }
}
