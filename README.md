# InvoiceXpress request client, modelled in Dafny

This project models the core of `InvoiceXpressRequest`, a PHP client for the
InvoiceXpress invoicing API. The core has two parts.

- **The method router and URL builder** inside `request()` (`router.dfy`). The
  dotted method name (`resource.action`) is split with `explode(".")`. Three ordered
  branches then choose the URL path and the verb option set on the curl handle. The
  request body is attached unless the action is exactly `get`. The URL is the template
  `https://{{ DOMAIN }}.invoicexpress.net/{{ CLASS }}.xml` with both placeholders
  replaced by `str_replace`, followed by `?api_key=` and the token.
- **The outcome state of a request object** (`client.dfy`). The class
  `InvoiceXpressRequest` holds the method name, the arguments set by `post`, and the
  fields `success`, `error` and `response`. `request()` updates those fields step by
  step from the transport's outcome. The account settings written by `init` are a
  `Config` object passed to `Request`.

`strings.dfy` models the two PHP string functions the router uses. `explode` is
`Explode`, proved to invert `Implode`. `str_replace` is `ReplaceAll`: a left-to-right,
non-overlapping replacement that does not rescan the text it inserts.

The transport is not run. `Request` takes its outcome as an input: either an error
message, or an HTTP status with the raw body and the structure the XML decoder made
of it. The XML encoder is a function parameter `encode`, applied to the arguments.

Behaviour of the code worth knowing:

- The code has three routing branches and never sends PUT
  (`WireVerbIsGetOnlyForClientsGet`).
- `invoices.get` is a POST to `invoices` with no body (`RouteInvoicesGet`).
- The status check compares the integer status with `'200 OK'` and `'201 Created'`.
  The file targets PHP 5, where that comparison reads the number at the start of
  the string. So success is modelled as status 200 or 201.
- The configuration check and the blank-body check use PHP's truth test. That test
  treats `"0"` like the empty string. So a domain or token of `"0"` throws, and a
  body of `"0"` is not decoded (`Falsy`, `Decodable`).
- The outcome fields are never reset. A second `request()` on the same object can
  leave `success` true next to an earlier error message
  (`ErrorNotResetOnRetry`). It can also keep an earlier response when the new body is
  blank. So the rule "the error is non-empty only after a failure" holds only for
  the first request on an object (`FirstRequestInvariant`).

## Model

| member | source | states |
|---|---|---|
| `Strings.Explode` | lib/InvoiceXpressRequest.php:158 | `explode` returns at least one piece, and at least two exactly when the separator occurs |
| `Strings.ExplodeImplode` | lib/InvoiceXpressRequest.php:158 | joining the pieces of `explode` again gives back the method name, and no piece holds a '.' |
| `Strings.ImplodeExplode` | lib/InvoiceXpressRequest.php:158 | separator-free pieces joined with '.' are split back into exactly those pieces |
| `Strings.ExplodeFirst` | lib/InvoiceXpressRequest.php:158 | the first piece is everything before the first separator, and the rest is split independently |
| `Strings.ExplodeNone` | lib/InvoiceXpressRequest.php:158 | a string without the separator is one piece |
| `Strings.ReplaceAllAbsent` | lib/InvoiceXpressRequest.php:156 | `str_replace` leaves a string that does not contain the search string unchanged |
| `Strings.ReplaceAllSkip` | lib/InvoiceXpressRequest.php:156 | a prefix without the search string's first character is copied unchanged |
| `Strings.ReplaceAllHead` | lib/InvoiceXpressRequest.php:156 | an occurrence at the front is replaced and the scan resumes after it |
| `Strings.ReplaceAllPast` | lib/InvoiceXpressRequest.php:163-168 | a placeholder-free prefix followed by a separator the placeholder cannot span is copied unchanged |
| `Strings.OccursAtTail` | lib/InvoiceXpressRequest.php:156 | an occurrence in the tail of a string is an occurrence in the string one place later |
| `Strings.NotOccursAt` | lib/InvoiceXpressRequest.php:156 | a position holding a character other than the search string's first is no occurrence |
| `Router.RouteOf` | lib/InvoiceXpressRequest.php:162-171 | the definition of the three ordered branches; its table is stated by `RouteInvoiceAction`, `RouteClientsGet` and `RouteFallback` |
| `Router.BodyIffNotGet` | lib/InvoiceXpressRequest.php:180-181 | for a method `resource.action`, a body is attached exactly when the action is not `get`, whichever branch routes it |
| `Router.ParseMethod` | lib/InvoiceXpressRequest.php:158 | for `resource.action` (and any further dotted pieces) `$class[0]` is the resource and `$class[1]` the action |
| `Router.RouteInvoiceAction` | lib/InvoiceXpressRequest.php:162-163 | `change-state` and `email-invoice` go to `invoice/{id}/{action}` whatever the resource, with no verb option and with a body |
| `Router.RouteClientsGet` | lib/InvoiceXpressRequest.php:164-166 | exactly `clients.get` is a custom GET to `clients/{id}` with no body |
| `Router.RouteFallback` | lib/InvoiceXpressRequest.php:167-169 | every other method is a POST to the resource name, with a body unless the action is `get` |
| `Router.RouteInvoicesGet` | lib/InvoiceXpressRequest.php:167-181 | `invoices.get` is a POST to `invoices` with no body |
| `Router.WireVerbIsGetOnlyForClientsGet` | lib/InvoiceXpressRequest.php:162-181 | the request goes out as GET exactly for `clients.get` and as POST otherwise |
| `Router.UrlScheme` | lib/InvoiceXpressRequest.php:30 | every URL starts with `https://`, whatever the domain, path and token |
| `Router.ClassNotDomain` | lib/InvoiceXpressRequest.php:30 | the class placeholder of the template holds no domain placeholder |
| `Router.HostKept` | lib/InvoiceXpressRequest.php:156 | substituting the domain leaves the host suffix and the class placeholder untouched |
| `Router.DomainSubstituted` | lib/InvoiceXpressRequest.php:156 | substituting the domain into the template replaces exactly its domain placeholder |
| `Router.ClassSubstituted` | lib/InvoiceXpressRequest.php:163-168 | substituting the path replaces exactly the template's class placeholder when the domain holds none |
| `Router.UrlShape` | lib/InvoiceXpressRequest.php:156-173 | the URL is `https://{domain}.invoicexpress.net/{path}.xml?api_key={token}`, with the token last, when the domain does not hold `{{ CLASS }}` |
| `Router.UrlDomainIsPlaceholder` | lib/InvoiceXpressRequest.php:156-168 | a domain that is itself `{{ CLASS }}` gets the path substituted into it as well |
| `Client.Prepare` | lib/InvoiceXpressRequest.php:152-181 | the request handed to the transport: body is the encoded arguments exactly when the action is not `get`, the route's verb option, and the URL of `UrlShape` for the routed path |
| `Client.Config.constructor` | lib/InvoiceXpressRequest.php:19-24 | the settings start empty |
| `Client.Config.Init` | lib/InvoiceXpressRequest.php:65-69 | `init` stores the domain and the token |
| `Client.InvoiceXpressRequest.constructor` | lib/InvoiceXpressRequest.php:36-80 | a new object holds the method name, no arguments, `success` false, an empty error and an empty response |
| `Client.InvoiceXpressRequest.Post` | lib/InvoiceXpressRequest.php:87-90 | `post` replaces the arguments and changes no other field |
| `Client.InvoiceXpressRequest.Success` | lib/InvoiceXpressRequest.php:97-100 | returns the stored success flag |
| `Client.InvoiceXpressRequest.GetError` | lib/InvoiceXpressRequest.php:107-110 | returns the stored error message |
| `Client.InvoiceXpressRequest.GetResponse` | lib/InvoiceXpressRequest.php:117-120 | returns the stored response |
| `Client.InvoiceXpressRequest.GetGeneratedXml` | lib/InvoiceXpressRequest.php:129-138 | returns the arguments passed through the XML encoder |
| `Client.InvoiceXpressRequest.Request` | lib/InvoiceXpressRequest.php:145-220 | without both settings it throws and changes nothing; otherwise it sends `Prepare`'s request and the outcome fields become `Step` of their old values and the transport outcome |
| `Client.TransportErrorKeepsOutcome` | lib/InvoiceXpressRequest.php:189-193 | a transport error sets the error to `A cURL error occured: ` plus the message and keeps success and response, so a fresh object stays unsuccessful with an empty response |
| `Client.SuccessIffStatus` | lib/InvoiceXpressRequest.php:212 | after a response, success holds exactly for status 200 or 201 |
| `Client.ResponseReplacedIffDecodable` | lib/InvoiceXpressRequest.php:201-210 | the response is replaced by the decoded body exactly when the body is not "", "0" or " " |
| `Client.ErrorCopiedFromKey` | lib/InvoiceXpressRequest.php:215-218 | the error is overwritten by the decoded `error` key when present and is kept otherwise |
| `Client.FirstRequestInvariant` | lib/InvoiceXpressRequest.php:186-218 | on a fresh object a non-empty error means a transport error or an `error` key, and success means status 200 or 201 |
| `Client.ErrorNotResetOnRetry` | lib/InvoiceXpressRequest.php:189-218 | a transport error then a 200 response without `error` leaves the object successful and still reporting the transport error |
| `Client.BlankBodyKeepsPreviousResponse` | lib/InvoiceXpressRequest.php:201-218 | a body of "", "0" or " " keeps the previous response and the previous error, and only the success flag is recomputed |
| `Client.ClientsGetRequest` | lib/InvoiceXpressRequest.php:164-181 | for a domain without `{{ CLASS }}`, `clients.get` builds a custom GET to `https://{domain}.invoicexpress.net/clients/{id}.xml?api_key={token}` with no body |
| `Client.ClientsGetExample` | lib/InvoiceXpressRequest.php:65-186 | a caller that runs `init`, the constructor, `post` and `request` for `clients.get` sends exactly that request |

## Left out

- The curl calls are not modelled: no network I/O, timeout, basic-auth header,
  disabled TLS check or Content-Type header. `Request` takes the transport's outcome
  as an input, and `WireVerb` applies libcurl's rule for the verb (a custom request
  string wins; the POST flag or POST fields make a POST; otherwise GET).
- The XML encoder (`XmlDomConstruct`) is not part of this model. Its output is the
  parameter `encode` applied to the arguments.
- The arguments given to `post` may be any PHP value, nested arrays included. The model
  flattens them to a map from strings to strings, because only the `encode` parameter
  reads them; what the encoder makes of nesting is not modelled.
- XML decoding (`simplexml_load_string` and the JSON round trip) is not modelled.
  The decoded body is part of the transport outcome, a map from strings to strings in
  which only the `error` key is read. Nested values, and the `false` that a failed
  parse yields, are not modelled.
- The `error_log`/`print_r` diagnostics are left out: they have no effect on the outcome.
- Method names without a '.' make PHP read an undefined index. The router requires
  a '.' in the method name instead, and so does `Request` once both settings are set.
- PHP's loose comparison is modelled only where it matters. The status test is an
  integer test for 200 or 201. The truth test on strings treats "" and "0" as false.
  The other comparisons in the router are against non-numeric strings, so they are
  plain string equality.
- The exception is modelled as the result `ConfigurationError` with the exception's
  message, not as control flow leaving the caller.
