/** The environment the core runs in, reduced to the state it touches:
    the browser's `localStorage`, the shared axios instance (its default
    Authorization header, and a log of the requests it sends in place of the
    network) and the Next.js router (a log of pushed paths). */
module Browser {
  import opened Types

  /** `localStorage`: string keys to string values. */
  class TokenStore {
    var items: map<string, string>

    constructor (persisted: map<string, string>)
      ensures items == persisted
    {
      items := persisted;
    }

    /** `getItem`: null when the key is absent. */
    method GetItem(key: string) returns (v: Option<string>)
      ensures v.Some? <==> key in items
      ensures v.Some? ==> v.value == items[key]
    {
      if key in items {
        v := Some(items[key]);
      } else {
        v := None;
      }
    }

    method SetItem(key: string, value: string)
      modifies this
      ensures items == old(items)[key := value]
    {
      items := items[key := value];
    }

    method RemoveItem(key: string)
      modifies this
      ensures items == old(items) - {key}
    {
      items := items - {key};
    }
  }

  /** The shared HTTP client. Responses are not produced here: callers are
      handed the outcome of each request as an input. */
  class ApiClient {
    var authorization: Option<string>
    var sent: seq<ApiCall>

    constructor ()
      ensures authorization == None && sent == []
    {
      authorization := None;
      sent := [];
    }

    /** `api.defaults.headers.Authorization = value` */
    method SetAuthorization(value: string)
      modifies this
      ensures authorization == Some(value) && sent == old(sent)
    {
      authorization := Some(value);
    }

    /** `delete api.defaults.headers.Authorization` */
    method DeleteAuthorization()
      modifies this
      ensures authorization == None && sent == old(sent)
    {
      authorization := None;
    }

    /** Issues one request; it carries the default header current at call time. */
    method Send(verb: Method, path: string, body: Body)
      modifies this
      ensures sent == old(sent) + [ApiCall(verb, path, body, old(authorization))]
      ensures authorization == old(authorization)
    {
      sent := sent + [ApiCall(verb, path, body, authorization)];
    }
  }

  /** `router.push`, recorded as the sequence of pushed paths. */
  class Router {
    var visited: seq<string>

    constructor ()
      ensures visited == []
    {
      visited := [];
    }

    method Push(path: string)
      modifies this
      ensures visited == old(visited) + [path]
    {
      visited := visited + [path];
    }
  }
}
