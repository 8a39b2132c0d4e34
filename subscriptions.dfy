/**
 * The directory entry of a subscription: the topic uri it was created for
 * and the subscription id the router assigns once it acknowledges it.
 */
module Subscriptions {
  import opened Values

  /** The id a default-constructed subscription carries: -1 read as an unsigned 64-bit number. */
  const UNSET_ID: U64 := U64_LIMIT - 1

  /**
   * A subscription. The source's subclasses only differ in `handle`; the
   * one modelled here is the functor subscription, whose handler does
   * nothing.
   */
  class Subscription {
    const uri: string
    var subscriptionId: U64

    /** The topic uri the subscription was made for. */
    function Uri(): string {
      uri
    }

    /** The router-assigned id, or whatever the entry holds before SUBSCRIBED. */
    function SubscriptionId(): U64
      reads this
    {
      subscriptionId
    }

    /** `Subscription()`: no uri, and the id set to -1. */
    constructor Default()
      ensures Uri() == "" && SubscriptionId() == UNSET_ID
    {
      uri := "";
      subscriptionId := UNSET_ID;
    }

    /** `Subscription(uri)`: the uri is stored; the id is left uninitialised. */
    constructor (uri: string)
      ensures Uri() == uri
    {
      this.uri := uri;
      subscriptionId := *;
    }

    method SetSubscriptionId(subscriptionId: U64)
      modifies this
      ensures SubscriptionId() == subscriptionId
    {
      this.subscriptionId := subscriptionId;
    }

    /** `FunctorSubscription::handle`: the call into the functor is commented out, so nothing happens. */
    method Handle(args: seq<Value>, kwargs: map<string, Value>, details: map<string, Value>)
      ensures unchanged(this)
    {
    }
  }
}
