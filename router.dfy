/** The method router and URL builder of `InvoiceXpressRequest::request()`: after the
    configuration check, the dotted method name and the resource id decide the URL path,
    the verb option set on the transport handle and whether a body is attached. */
module Router {
  import opened Strings

  const DomainPlaceholder := "{{ DOMAIN }}"
  const ClassPlaceholder := "{{ CLASS }}"

  /** The URL template held by every request object. */
  const ApiUrl := "https://" + DomainPlaceholder + ".invoicexpress.net/" + ClassPlaceholder + ".xml"

  /** A method name the router can read holds a resource part and an action part. */
  predicate WellFormedMethod(m: string) {
    '.' in m
  }

  /** The piece before the first '.' of the method name (`$class[0]`). */
  function Resource(m: string): string
    requires WellFormedMethod(m)
  {
    Explode(m, '.')[0]
  }

  /** The piece between the first and the second '.' of the method name (`$class[1]`). */
  function Action(m: string): string
    requires WellFormedMethod(m)
  {
    Explode(m, '.')[1]
  }

  /** The verb option a branch sets on the transport handle: none, a custom GET
      request, or the POST flag. */
  datatype VerbOption = NoVerbOption | CustomGet | PostFlag

  datatype Verb = GET | POST

  /** What the router decides for one request. */
  datatype Route = Route(path: string, option: VerbOption, hasBody: bool)

  /** The three ordered branches, and the body rule checked after them. */
  function RouteOf(m: string, id: string): (r: Route)
    requires WellFormedMethod(m)
    ensures r.hasBody <==> Action(m) != "get"
  {
    var resource, action := Resource(m), Action(m);
    var hasBody := action != "get";
    if action == "change-state" || action == "email-invoice" then
      Route("invoice/" + id + "/" + action, NoVerbOption, hasBody)
    else if resource == "clients" && action == "get" then
      Route("clients/" + id, CustomGet, hasBody)
    else
      Route(resource, PostFlag, hasBody)
  }

  /** The HTTP verb the transport uses for a route, by libcurl's rule: a custom request
      string wins, the POST flag or attached POST fields make a POST, otherwise GET. */
  function WireVerb(r: Route): Verb {
    match r.option
    case CustomGet => GET
    case PostFlag => POST
    case NoVerbOption => if r.hasBody then POST else GET
  }

  /** The final URL: both placeholders of the template substituted with `str_replace`,
      the domain first, then `?api_key=` and the token appended. */
  function Url(domain: string, path: string, token: string): string {
    ReplaceAll(ReplaceAll(ApiUrl, DomainPlaceholder, domain), ClassPlaceholder, path)
      + "?api_key=" + token
  }

  /** Reading a method name `resource.action`, possibly followed by further
      dot-separated pieces that the router ignores. */
  lemma ParseMethod(resource: string, action: string, tail: string)
    requires '.' !in resource && '.' !in action
    requires tail == [] || tail[0] == '.'
    ensures WellFormedMethod(resource + "." + action + tail)
    ensures Resource(resource + "." + action + tail) == resource
    ensures Action(resource + "." + action + tail) == action
  {
    var m := resource + "." + action + tail;
    assert m == resource + ['.'] + (action + tail);
    ExplodeFirst(resource, action + tail, '.');
    if tail == [] {
      assert action + tail == action;
      ExplodeNone(action, '.');
    } else {
      assert action + tail == action + ['.'] + tail[1..];
      ExplodeFirst(action, tail[1..], '.');
    }
    assert '.' in m by { assert m[|resource|] == '.'; }
  }

  /** `change-state` and `email-invoice` go to `invoice/{id}/{action}` whatever the
      resource, with no verb option and with a body; this branch is tried first. */
  lemma RouteInvoiceAction(resource: string, action: string, tail: string, id: string)
    requires '.' !in resource && '.' !in action && (tail == [] || tail[0] == '.')
    requires action == "change-state" || action == "email-invoice"
    ensures RouteOf(resource + "." + action + tail, id)
         == Route("invoice/" + id + "/" + action, NoVerbOption, true)
  {
    ParseMethod(resource, action, tail);
  }

  /** Exactly `clients.get` is a custom GET to `clients/{id}` without a body. */
  lemma RouteClientsGet(tail: string, id: string)
    requires tail == [] || tail[0] == '.'
    ensures RouteOf("clients.get" + tail, id) == Route("clients/" + id, CustomGet, false)
    ensures WireVerb(RouteOf("clients.get" + tail, id)) == GET
  {
    assert "clients.get" + tail == "clients" + "." + "get" + tail;
    ParseMethod("clients", "get", tail);
  }

  /** Every other method is a POST to the resource name, with a body unless the action
      is exactly `get`. */
  lemma RouteFallback(resource: string, action: string, tail: string, id: string)
    requires '.' !in resource && '.' !in action && (tail == [] || tail[0] == '.')
    requires action != "change-state" && action != "email-invoice"
    requires !(resource == "clients" && action == "get")
    ensures RouteOf(resource + "." + action + tail, id) == Route(resource, PostFlag, action != "get")
    ensures WireVerb(RouteOf(resource + "." + action + tail, id)) == POST
  {
    ParseMethod(resource, action, tail);
  }

  /** A body is attached exactly when the action is not `get`, whichever branch routes
      the method. */
  lemma {:induction false} BodyIffNotGet(resource: string, action: string, tail: string, id: string)
    requires '.' !in resource && '.' !in action && (tail == [] || tail[0] == '.')
    ensures RouteOf(resource + "." + action + tail, id).hasBody <==> action != "get"
  {
    ParseMethod(resource, action, tail);
  }

  /** `invoices.get` is not routed as a read: it is a POST to `invoices` with no body. */
  lemma RouteInvoicesGet(id: string)
    ensures RouteOf("invoices.get", id) == Route("invoices", PostFlag, false)
  {
    assert "invoices.get" == "invoices" + "." + "get" + "";
    RouteFallback("invoices", "get", "", id);
  }

  /** The transport sends a GET exactly for `clients.get`; every other method is a POST. */
  lemma WireVerbIsGetOnlyForClientsGet(m: string, id: string)
    requires WellFormedMethod(m)
    ensures WireVerb(RouteOf(m, id)) == GET <==> Resource(m) == "clients" && Action(m) == "get"
  {
  }

  /** Every URL starts with the scheme, whatever the domain, path and token. */
  lemma UrlScheme(domain: string, path: string, token: string)
    ensures |Url(domain, path, token)| >= 8 && Url(domain, path, token)[..8] == "https://"
  {
    var rest := DomainPlaceholder + ".invoicexpress.net/" + ClassPlaceholder + ".xml";
    assert ApiUrl == "https://" + rest;
    ReplaceAllSkip("https://", rest, DomainPlaceholder, domain);
    var s1 := ReplaceAll(rest, DomainPlaceholder, domain);
    ReplaceAllSkip("https://", s1, ClassPlaceholder, path);
  }

  /** The class placeholder (with the extension after it) holds no domain placeholder. */
  lemma ClassNotDomain()
    ensures !Contains(ClassPlaceholder + ".xml", DomainPlaceholder)
  {
    var c := ClassPlaceholder + ".xml";
    forall i: nat | i <= |c| ensures !OccursAt(c, DomainPlaceholder, i) {
      if i + |DomainPlaceholder| <= |c| {
        assert c[i..i + |DomainPlaceholder|][3] == c[i + 3];
      }
    }
  }

  /** Substituting the domain touches only the domain placeholder. */
  lemma DomainSubstituted(domain: string)
    ensures ReplaceAll(ApiUrl, DomainPlaceholder, domain)
         == "https://" + (domain + ".invoicexpress.net/" + (ClassPlaceholder + ".xml"))
  {
    var ext := ClassPlaceholder + ".xml";
    var afterHost := ".invoicexpress.net/" + ext;
    assert ApiUrl == "https://" + (DomainPlaceholder + afterHost);
    ReplaceAllSkip("https://", DomainPlaceholder + afterHost, DomainPlaceholder, domain);
    ReplaceAllHead(afterHost, DomainPlaceholder, domain);
    HostKept(domain);
    assert ReplaceAll(ApiUrl, DomainPlaceholder, domain) == "https://" + (domain + afterHost);
  }

  /** What follows the domain placeholder in the template holds no other one. */
  lemma HostKept(domain: string)
    ensures ReplaceAll(".invoicexpress.net/" + (ClassPlaceholder + ".xml"), DomainPlaceholder, domain)
         == ".invoicexpress.net/" + (ClassPlaceholder + ".xml")
  {
    ReplaceAllSkip(".invoicexpress.net/", ClassPlaceholder + ".xml", DomainPlaceholder, domain);
    ClassNotDomain();
    ReplaceAllAbsent(ClassPlaceholder + ".xml", DomainPlaceholder, domain);
  }

  /** Substituting the path then touches only the class placeholder, provided the
      domain put in before does not hold one. */
  lemma ClassSubstituted(domain: string, path: string)
    requires !Contains(domain, ClassPlaceholder)
    ensures ReplaceAll("https://" + (domain + ".invoicexpress.net/" + (ClassPlaceholder + ".xml")), ClassPlaceholder, path)
         == "https://" + domain + ".invoicexpress.net/" + path + ".xml"
  {
    var host := ".invoicexpress.net/";
    ReplaceAllSkip("https://", domain + host + (ClassPlaceholder + ".xml"), ClassPlaceholder, path);
    ReplaceAllPast(domain, host, ClassPlaceholder + ".xml", ClassPlaceholder, path);
    ReplaceAllHead(".xml", ClassPlaceholder, path);
    ReplaceAllSkip(".xml", [], ClassPlaceholder, path);
    assert ".xml" + [] == ".xml";
  }

  /** When the domain does not itself hold the class placeholder, the URL is
      `https://{domain}.invoicexpress.net/{path}.xml?api_key={token}`, so the token
      is the last thing in it. */
  lemma UrlShape(domain: string, path: string, token: string)
    requires !Contains(domain, ClassPlaceholder)
    ensures Url(domain, path, token)
         == "https://" + domain + ".invoicexpress.net/" + path + ".xml?api_key=" + token
  {
    DomainSubstituted(domain);
    ClassSubstituted(domain, path);
  }

  /** The condition of `UrlShape` is needed: a domain that is itself the class
      placeholder gets the path substituted into it as well. */
  lemma UrlDomainIsPlaceholder(path: string, token: string)
    ensures Url(ClassPlaceholder, path, token)
         == "https://" + path + ".invoicexpress.net/" + path + ".xml?api_key=" + token
  {
    var host := ".invoicexpress.net/";
    DomainSubstituted(ClassPlaceholder);
    ReplaceAllSkip("https://", ClassPlaceholder + host + (ClassPlaceholder + ".xml"), ClassPlaceholder, path);
    assert ClassPlaceholder + host + (ClassPlaceholder + ".xml")
        == ClassPlaceholder + (host + (ClassPlaceholder + ".xml"));
    ReplaceAllHead(host + (ClassPlaceholder + ".xml"), ClassPlaceholder, path);
    ReplaceAllSkip(host, ClassPlaceholder + ".xml", ClassPlaceholder, path);
    ReplaceAllHead(".xml", ClassPlaceholder, path);
    ReplaceAllSkip(".xml", [], ClassPlaceholder, path);
    assert ".xml" + [] == ".xml";
  }
}
