/**
 * The shared HTTP client `api`. Its transport is not modelled: each request is
 * recorded in `sent`, and how it settles is an input to the code that awaited it.
 * What is modelled is its mutable default headers, which the session store
 * changes, and the default Authorization header that each request carries.
 */
module Api {
  import opened Wrappers

  const AuthorizationHeader := "Authorization"

  datatype Verb = GET | POST | PUT | DELETE

  /** The JSON bodies the front end sends. */
  datatype Body =
    | NoBody
    | Credentials(email: string, password: string)
    | NewUser(username: string, email: string, password: string)
    | PostFields(title: string, content: string)

  /** One request as it leaves the client, with the Authorization header it carries. */
  datatype Request = Request(verb: Verb, path: string, body: Body, authorization: Option<string>)

  /** The Authorization entry of a header map, if any. */
  function Authorization(headers: map<string, string>): (a: Option<string>)
    ensures a.Some? <==> AuthorizationHeader in headers
    ensures a.Some? ==> a.value == headers[AuthorizationHeader]
  {
    if AuthorizationHeader in headers then Some(headers[AuthorizationHeader]) else None
  }

  class Client {
    /** `api.defaults.headers.common` */
    var headers: map<string, string>
    /** Every request issued so far, oldest first. */
    var sent: seq<Request>

    constructor (headers: map<string, string>)
      ensures this.headers == headers && sent == []
    {
      this.headers := headers;
      sent := [];
    }

    /** Issues one request; it carries the default Authorization header of this moment. */
    method Send(verb: Verb, path: string, body: Body)
      modifies this
      ensures headers == old(headers)
      ensures sent == old(sent) + [Request(verb, path, body, Authorization(old(headers)))]
    {
      sent := sent + [Request(verb, path, body, Authorization(headers))];
    }
  }
}
