/**
 * The HTTP session, abstracted: the server is a fixed map from request to the
 * page it answers with, and the client keeps a log of every request it sent. A
 * request the map does not answer is a transport failure, which the admin client
 * lets propagate to its caller.
 */
module Http {
  import opened Dom

  /** Form parameters, in the order they are encoded. */
  type FormParams = seq<(string, string)>

  datatype Request = Get(url: string) | Post(url: string, formParams: FormParams)

  datatype Error = TransportError(request: Request)

  datatype Result<+T> = Success(value: T) | Failure(error: Error)

  /** The value of the first parameter named `key`. */
  function Lookup(params: FormParams, key: string): Option<string>
  {
    if params == [] then None
    else if params[0].0 == key then Some(params[0].1)
    else Lookup(params[1..], key)
  }

  /** The parameter at index i is the first one named `key`. */
  lemma {:induction false} LookupAt(params: FormParams, key: string, i: nat)
    requires i < |params| && params[i].0 == key
    requires forall j :: 0 <= j < i ==> params[j].0 != key
    ensures Lookup(params, key) == Some(params[i].1)
  {
    if i > 0 {
      LookupAt(params[1..], key, i - 1);
    }
  }

  class Client {
    const pages: map<Request, Document>
    var log: seq<Request>

    constructor (pages: map<Request, Document>)
      ensures this.pages == pages && log == []
    {
      this.pages := pages;
      log := [];
    }

    /** Sends one request: it is logged, and answered from the page map. */
    method Send(request: Request) returns (response: Result<Document>)
      modifies this
      ensures log == old(log) + [request]
      ensures request in pages ==> response == Success(pages[request])
      ensures request !in pages ==> response == Failure(TransportError(request))
    {
      log := log + [request];
      if request in pages {
        response := Success(pages[request]);
      } else {
        response := Failure(TransportError(request));
      }
    }
  }
}
