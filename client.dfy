/** The request object of the InvoiceXpress client: the account settings written by
    `init`, the method name and arguments of one call, and the outcome fields that
    `request()` updates and the accessors read. The transport is not run: its outcome
    is an input of `Request`. */
module Client {
  import opened Strings
  import opened Router

  datatype Option<T> = None | Some(value: T)

  /** A PHP array with string keys and string values. It stands for the arguments given
      to `post`, which only the XML encoder reads, and for the decoded response, of which
      only the `error` key is inspected. */
  type Fields = map<string, string>

  /** PHP's truth test on a string: the empty string and "0" are false. */
  predicate Falsy(s: string) {
    s == "" || s == "0"
  }

  /** The account settings `_domain` and `_token`, empty until `init` is called. */
  class Config {
    var domain: string
    var token: string

    constructor ()
      ensures domain == "" && token == ""
    {
      domain := "";
      token := "";
    }

    /** `init($domain, $token)`. */
    method Init(d: string, t: string)
      modifies this
      ensures domain == d && token == t
    {
      domain := d;
      token := t;
    }

    /** Both settings pass PHP's truth test, so `request()` does not throw. */
    predicate Configured()
      reads this
    {
      !Falsy(domain) && !Falsy(token)
    }
  }

  /** What the transport returns: an error with its message, or the HTTP status, the raw
      body and the structure the XML decoder made of that body. */
  datatype Transport = Failed(message: string) | Received(status: int, body: string, decoded: Fields)

  /** The outcome fields `_success`, `_error` and `_response`. */
  datatype Outcome = Outcome(success: bool, error: string, response: Fields)

  /** The outcome of an object that has made no request. */
  const Initial := Outcome(false, "", map[])

  const CurlErrorPrefix := "A cURL error occured: "
  const InitMessage := "You need to call InvoiceXpressRequest::init($domain, $token) with your domain and token."

  /** The body is decoded only when it passes PHP's truth test and is not a single space. */
  predicate Decodable(body: string) {
    !Falsy(body) && body != " "
  }

  /** The status test: in PHP 5 an integer status compared with '200 OK' or
      '201 Created' is compared with the number those strings begin with. */
  predicate SuccessStatus(status: int) {
    status == 200 || status == 201
  }

  /** How one transport outcome updates the outcome fields: nothing is reset first. */
  function Step(o: Outcome, t: Transport): Outcome {
    match t
    case Failed(message) => o.(error := CurlErrorPrefix + message)
    case Received(status, body, decoded) =>
      Outcome(SuccessStatus(status),
              if Decodable(body) && "error" in decoded then decoded["error"] else o.error,
              if Decodable(body) then decoded else o.response)
  }

  /** The request handed to the transport. */
  datatype HttpRequest = HttpRequest(url: string, option: VerbOption, postFields: Option<string>)

  /** Building the request for method `m`, resource id `id` and serialised arguments `xml`:
      the routed path goes into the URL, the arguments are attached unless the action is
      `get`. */
  function Prepare(domain: string, token: string, m: string, id: string, xml: string): (req: HttpRequest)
    requires WellFormedMethod(m)
    ensures req.postFields == (if Action(m) == "get" then None else Some(xml))
    ensures req.option == RouteOf(m, id).option
    ensures !Contains(domain, ClassPlaceholder) ==>
      req.url == "https://" + domain + ".invoicexpress.net/" + RouteOf(m, id).path + ".xml?api_key=" + token
  {
    var route := RouteOf(m, id);
    assert !Contains(domain, ClassPlaceholder) ==>
      Url(domain, route.path, token) == "https://" + domain + ".invoicexpress.net/" + route.path + ".xml?api_key=" + token
    by {
      if !Contains(domain, ClassPlaceholder) {
        UrlShape(domain, route.path, token);
      }
    }
    HttpRequest(Url(domain, route.path, token), route.option, if route.hasBody then Some(xml) else None)
  }

  /** What `request()` does before any transport call: throw, or send this request. */
  datatype RequestResult = ConfigurationError(message: string) | Sent(request: HttpRequest)

  /** One `InvoiceXpressRequest` object. */
  class InvoiceXpressRequest {
    var apiMethod: string
    var args: Fields
    var success: bool
    var error: string
    var response: Fields

    /** The outcome fields as one value. */
    function State(): Outcome
      reads this
    {
      Outcome(success, error, response)
    }

    /** `new InvoiceXpressRequest($method)`: every other field keeps its default. */
    constructor (m: string)
      ensures apiMethod == m && args == map[] && State() == Initial
    {
      apiMethod := m;
      args := map[];
      success := false;
      error := "";
      response := map[];
    }

    /** `post($data)`: replaces the arguments, and nothing else. */
    method Post(data: Fields)
      modifies this`args
      ensures args == data
    {
      args := data;
    }

    /** `success()`. */
    method Success() returns (b: bool)
      ensures b == State().success
    {
      b := success;
    }

    /** `getError()`. */
    method GetError() returns (e: string)
      ensures e == State().error
    {
      e := error;
    }

    /** `getResponse()`. */
    method GetResponse() returns (r: Fields)
      ensures r == State().response
    {
      r := response;
    }

    /** `getGeneratedXML()`: the arguments passed through the XML encoder. */
    method GetGeneratedXml(encode: Fields -> string) returns (xml: string)
      ensures xml == encode(args)
    {
      xml := encode(args);
    }

    /** `request($id)`. Without both settings it throws before building anything and
        changes nothing. Otherwise it sends the routed request and folds the transport's
        outcome into the outcome fields with `Step`. */
    method Request(config: Config, id: string, encode: Fields -> string, transport: Transport)
      returns (r: RequestResult)
      requires config.Configured() ==> WellFormedMethod(apiMethod)
      modifies this`success, this`error, this`response
      ensures r.ConfigurationError? <==> !config.Configured()
      ensures !config.Configured() ==> r == ConfigurationError(InitMessage) && State() == old(State())
      ensures config.Configured() ==>
        r == Sent(Prepare(config.domain, config.token, apiMethod, id, encode(args)))
        && State() == Step(old(State()), transport)
    {
      if Falsy(config.domain) || Falsy(config.token) {
        return ConfigurationError(InitMessage);
      }
      var postData := GetGeneratedXml(encode);
      var route := RouteOf(apiMethod, id);
      var url := Url(config.domain, route.path, config.token);
      r := Sent(HttpRequest(url, route.option, if route.hasBody then Some(postData) else None));
      match transport {
        case Failed(message) =>
          error := CurlErrorPrefix + message;
          return;
        case Received(status, body, decoded) =>
          if Decodable(body) {
            response := decoded;
          }
          success := SuccessStatus(status);
          if Decodable(body) && "error" in decoded {
            error := decoded["error"];
          }
      }
    }
  }

  /** A transport error sets only the error message; a fresh object keeps
      `success() == false` and an empty response. */
  lemma TransportErrorKeepsOutcome(o: Outcome, message: string)
    ensures Step(o, Failed(message)).success == o.success
    ensures Step(o, Failed(message)).response == o.response
    ensures Step(o, Failed(message)).error == CurlErrorPrefix + message
    ensures Step(Initial, Failed(message)) == Outcome(false, CurlErrorPrefix + message, map[])
  {
  }

  /** After a response, success holds exactly for status 200 or 201, whatever came before. */
  lemma SuccessIffStatus(o: Outcome, status: int, body: string, decoded: Fields)
    ensures Step(o, Received(status, body, decoded)).success <==> status == 200 || status == 201
  {
  }

  /** The response is replaced by the decoded body unless the body is "", "0" or " ". */
  lemma ResponseReplacedIffDecodable(o: Outcome, status: int, body: string, decoded: Fields)
    ensures Decodable(body) <==> body != "" && body != "0" && body != " "
    ensures Step(o, Received(status, body, decoded)).response
         == if Decodable(body) then decoded else o.response
  {
  }

  /** The error message is overwritten only by an `error` key of a decoded body. */
  lemma ErrorCopiedFromKey(o: Outcome, status: int, body: string, decoded: Fields)
    ensures Decodable(body) && "error" in decoded ==>
      Step(o, Received(status, body, decoded)).error == decoded["error"]
    ensures !(Decodable(body) && "error" in decoded) ==>
      Step(o, Received(status, body, decoded)).error == o.error
  {
  }

  /** On a fresh object, one request leaves a non-empty error only when the transport
      failed or the decoded body had an `error` key, and success implies status 200 or
      201. */
  lemma FirstRequestInvariant(t: Transport)
    ensures Step(Initial, t).error != "" ==>
      t.Failed? || (Decodable(t.body) && "error" in t.decoded)
    ensures Step(Initial, t).success ==> t.Received? && SuccessStatus(t.status)
  {
  }

  /** The fields are not reset between requests on one object: a transport error
      followed by a successful response without an `error` key leaves the object
      successful and still reporting the transport error. */
  lemma ErrorNotResetOnRetry(message: string, body: string, decoded: Fields)
    requires "error" !in decoded
    ensures Step(Step(Initial, Failed(message)), Received(200, body, decoded))
         == Outcome(true, CurlErrorPrefix + message, if Decodable(body) then decoded else map[])
  {
  }

  /** A body that is "", "0" or " " is not decoded: the response and the error keep
      their previous values and only the success flag is recomputed. */
  lemma BlankBodyKeepsPreviousResponse(o: Outcome, status: int, body: string, decoded: Fields)
    requires !Decodable(body)
    ensures body == "" || body == "0" || body == " "
    ensures Step(o, Received(status, body, decoded)) == o.(success := SuccessStatus(status))
  {
  }

  /** A caller that sets up the account and sends `clients.get` for a resource id. */
  method ClientsGetExample(domain: string, token: string, id: string, transport: Transport, encode: Fields -> string)
    returns (r: RequestResult)
    requires !Falsy(domain) && !Falsy(token) && !Contains(domain, ClassPlaceholder)
    ensures r == Sent(HttpRequest("https://" + domain + ".invoicexpress.net/" + ("clients/" + id) + ".xml?api_key=" + token,
                                  CustomGet, None))
  {
    var config := new Config();
    config.Init(domain, token);
    var req := new InvoiceXpressRequest("clients.get");
    req.Post(map["name" := "Jane"]);
    ClientsGetRequest(domain, token, id, encode(req.args));
    assert config.Configured();
    r := req.Request(config, id, encode, transport);
  }

  /** The request built for `clients.get`: a custom GET to `clients/{id}` without a body. */
  lemma ClientsGetRequest(domain: string, token: string, id: string, xml: string)
    requires !Contains(domain, ClassPlaceholder)
    ensures WellFormedMethod("clients.get")
    ensures Prepare(domain, token, "clients.get", id, xml)
         == HttpRequest("https://" + domain + ".invoicexpress.net/" + ("clients/" + id) + ".xml?api_key=" + token,
                        CustomGet, None)
  {
    assert "clients.get" + "" == "clients.get";
    RouteClientsGet("", id);
    UrlShape(domain, "clients/" + id, token);
  }
}
