/**
 * The directory entry of a registration and the invocation record built
 * for every INVOCATION message. registration.h is not modelled: the
 * Registration class is given the interface its callers use, which is a
 * procedure uri, a router-assigned registration id with its setter, and
 * `execute`, the application's procedure.
 */
module Registrations {
  import opened Values

  /** The application's procedure: from the argument list to a result, `Invalid` when it returns nothing. */
  type Procedure = seq<Value> -> Value

  class Registration {
    const uri: string
    const execute: Procedure
    var registrationId: U64

    function Uri(): string {
      uri
    }

    function RegistrationId(): U64
      reads this
    {
      registrationId
    }

    /** A registration for `uri` served by `execute`; its id is unset until REGISTERED. */
    constructor (uri: string, execute: Procedure)
      ensures Uri() == uri && this.execute == execute
    {
      this.uri := uri;
      this.execute := execute;
      registrationId := *;
    }

    method SetRegistrationId(registrationId: U64)
      modifies this
      ensures RegistrationId() == registrationId
    {
      this.registrationId := registrationId;
    }
  }

  /** WampInvocation: the registration an INVOCATION names, its arguments and its request id. */
  datatype WampInvocation = WampInvocation(registration: Registration, args: seq<Value>, requestId: U64)
}
