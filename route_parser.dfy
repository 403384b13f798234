/**
 The route parser: `[instance@]service:[VERB]path` strings taken apart into
 instance, service name, HTTP method and API route. `ParseRoute` follows the
 parser step by step; `RouteOf` describes its result through the first
 occurrences of `@`, `:` and `]`, and the lemmas state what that result is.
 */
module RouteParser {
  import opened Wrappers
  import opened JsString

  const DefaultMethod := "post"
  const InvalidSegmentsError := "route field has invalid number of routable segments"
  const IllFormedVerbError := "route field has ill-formed HTTP method verb in segment"

  /** The parsed route; `error` is `None` where the parser leaves it `undefined`. */
  datatype Route = Route(instance: string, serviceName: string, httpMethod: string,
                         apiRoute: string, error: Option<string>)

  /** The instance qualifier: the text before the first `@`, if there is one. */
  function InstanceOf(toValue: string): string
  {
    if '@' in toValue then Before(toValue, '@') else []
  }

  /** What follows the instance qualifier and its `@`. */
  function AddressOf(toValue: string): string
  {
    if '@' in toValue then After(toValue, '@') else toValue
  }

  /** A first segment starting with `http` is a URL scheme and takes the next
      segment with it. */
  predicate IsUrlScheme(segment: string)
  {
    "http" <= segment
  }

  /** The service name: the first `:`-segment of the address, or for a URL
      scheme the first two rejoined by one `:`; a missing second segment reads
      as the text `undefined`. */
  function ServiceOf(address: string): string
  {
    var first := Before(address, ':');
    if IsUrlScheme(first) then
      first + ":" + (if ':' in address then Before(After(address, ':'), ':') else "undefined")
    else first
  }

  /** The API route before any verb is taken off: everything after the
      segments the service name used. */
  function PathOf(address: string): string
  {
    if IsUrlScheme(Before(address, ':')) then After(After(address, ':'), ':')
    else After(address, ':')
  }

  /** A path whose verb bracket is opened but never closed. */
  predicate Unclosed(path: string)
  {
    path != [] && path[0] == '[' && ']' !in path
  }

  /** A path that opens with a closed verb bracket. */
  predicate HasVerb(path: string)
  {
    path != [] && path[0] == '[' && ']' in path
  }

  /** The method a path names: its verb lower-cased when it opens with a
      closed bracket, `post` otherwise. */
  function MethodOf(path: string): string
  {
    if HasVerb(path) then ToLowerCase(Before(path[1..], ']')) else DefaultMethod
  }

  /** The API route: the path with a non-empty verb and its brackets taken off
      the front. */
  function ApiRouteOf(path: string): string
  {
    if HasVerb(path) && Before(path[1..], ']') != [] then After(path, ']') else path
  }

  /** The error a path raises: only an unclosed verb bracket is one. */
  function ErrorOf(path: string): Option<string>
  {
    if Unclosed(path) then Some(IllFormedVerbError) else None
  }

  /** The route a `to` value denotes. */
  function RouteOf(toValue: string): Route
  {
    var address := AddressOf(toValue);
    var path := PathOf(address);
    Route(InstanceOf(toValue), ServiceOf(address), MethodOf(path), ApiRouteOf(path), ErrorOf(path))
  }

  /** The segments after `shift()` and `segments[0] = url` in the URL-scheme case. */
  function Rejoined(segments: seq<string>): seq<string>
    requires |segments| >= 1
  {
    var url := segments[0] + ":" + (if |segments| > 1 then segments[1] else "undefined");
    var shifted := segments[1..];
    [url] + (if shifted == [] then [] else shifted[1..])
  }

  /** Without a URL scheme the first segment is the service and the rest, joined, the path. */
  lemma PlainSegments(address: string)
    requires !IsUrlScheme(Split(address, ':')[0])
    ensures Split(address, ':')[0] == ServiceOf(address)
    ensures Join(Split(address, ':')[1..], ':') == PathOf(address)
  {
    SplitHeadTail(address, ':');
  }

  /** With a URL scheme the rejoined first segment is the service and the rest, joined, the path. */
  lemma RejoinedSegments(address: string)
    requires IsUrlScheme(Split(address, ':')[0])
    ensures Rejoined(Split(address, ':'))[0] == ServiceOf(address)
    ensures Join(Rejoined(Split(address, ':'))[1..], ':') == PathOf(address)
  {
    var segments := Split(address, ':');
    SplitHeadTail(address, ':');
    if ':' in address {
      SplitHeadTail(After(address, ':'), ':');
      assert Rejoined(segments)[1..] == Split(After(address, ':'), ':')[1..];
    } else {
      assert Rejoined(segments)[1..] == [];
    }
  }

  /** The offsets the parser takes the verb out with are the cut at the first `]`. */
  lemma VerbOffsets(path: string)
    requires HasVerb(path)
    ensures 1 <= IndexOf(path, ']')
    ensures path[1..IndexOf(path, ']')] == Before(path[1..], ']')
    ensures path[IndexOf(path, ']') + 1..] == After(path, ']')
  {
    var s2 := IndexOf(path, ']');
    IndexOfCuts(path, ']');
    assert path[1..] == path[1..s2] + [']'] + path[s2 + 1..];
    FirstOccurrence(path[1..s2], ']', path[s2 + 1..]);
  }

  /** Without a closed bracket at position 0, by the positions of the first
      `[` and `]`: the default method and the whole route, with an error
      exactly when the `[` opens the route. */
  lemma NoVerbByOffsets(path: string)
    ensures IndexOf(path, '[') != 0 ==>
      MethodOf(path) == DefaultMethod && ApiRouteOf(path) == path && ErrorOf(path) == None
    ensures IndexOf(path, '[') == 0 && IndexOf(path, ']') < 0 ==>
      MethodOf(path) == DefaultMethod && ApiRouteOf(path) == path && ErrorOf(path) == Some(IllFormedVerbError)
  {
  }

  /** With `[` at position 0 and a `]` after it, the method is the text between
      them lower-cased, and the route is what follows the `]` unless that text
      is empty. */
  lemma VerbByOffsets(path: string)
    requires IndexOf(path, '[') == 0 && 0 <= IndexOf(path, ']')
    ensures 1 <= IndexOf(path, ']')
    ensures MethodOf(path) == ToLowerCase(path[1..IndexOf(path, ']')])
    ensures ApiRouteOf(path) == (if 1 < IndexOf(path, ']') then path[IndexOf(path, ']') + 1..] else path)
    ensures ErrorOf(path) == None
  {
    VerbOffsets(path);
    assert |Before(path[1..], ']')| == IndexOf(path, ']') - 1;
  }

  /** The instance qualifier taken off the front with `indexOf('@')`. */
  method CutInstance(toValue: string) returns (instance: string, urlRoute: string)
    ensures instance == InstanceOf(toValue) && urlRoute == AddressOf(toValue)
  {
    instance := "";
    urlRoute := toValue;
    var atPos := IndexOf(urlRoute, '@');
    if atPos > -1 {
      IndexOfCuts(toValue, '@');
      instance := urlRoute[..atPos];
      urlRoute := urlRoute[atPos + 1..];
    }
  }

  /** The service name and the route, through `split(':')`, the URL-scheme
      rejoin and `join(':')`. */
  method CutService(urlRoute: string) returns (serviceName: string, apiRoute: string)
    ensures serviceName == ServiceOf(urlRoute) && apiRoute == PathOf(urlRoute)
  {
    var segments := Split(urlRoute, ':');
    ghost var parts := segments;
    if |segments| < 1 {
      // Never taken: `split` always returns at least one segment.
      assert false;
    }
    if IsUrlScheme(segments[0]) {  // segments[0].indexOf('http') === 0
      var url := segments[0] + ":" + (if |segments| > 1 then segments[1] else "undefined");
      segments := segments[1..];  // segments.shift()
      segments := [url] + (if segments == [] then [] else segments[1..]);  // segments[0] = url
      assert segments == Rejoined(parts);
      RejoinedSegments(urlRoute);
    } else {
      PlainSegments(urlRoute);
    }
    serviceName := segments[0];
    segments := segments[1..];  // segments.shift()
    apiRoute := Join(segments, ':');
  }

  /** The verb taken off the front of the route with `indexOf('[')`,
      `indexOf(']')` and `substring`. */
  method CutVerb(path: string) returns (httpMethod: string, apiRoute: string, error: Option<string>)
    ensures httpMethod == MethodOf(path) && apiRoute == ApiRouteOf(path) && error == ErrorOf(path)
  {
    NoVerbByOffsets(path);
    httpMethod := DefaultMethod;
    apiRoute := path;
    error := None;
    var s1 := IndexOf(apiRoute, '[');
    if s1 == 0 {
      var s2 := IndexOf(apiRoute, ']');
      if s2 < 0 {
        error := Some(IllFormedVerbError);
      } else {
        VerbByOffsets(path);
        httpMethod := ToLowerCase(apiRoute[s1 + 1..s2]);
      }
      if error.None? {
        var s3 := |httpMethod|;
        if s3 > 0 {
          apiRoute := apiRoute[s3 + 2..];  // substring(s3 + 2, apiRoute.length)
        }
      }
    }
  }

  /** `parseRoute(toValue)`: the three cuts in the parser's order. */
  method ParseRoute(toValue: string) returns (route: Route)
    ensures route == RouteOf(toValue)
  {
    var instance, urlRoute := CutInstance(toValue);
    var serviceName, apiRoute := CutService(urlRoute);
    var httpMethod, error;
    httpMethod, apiRoute, error := CutVerb(apiRoute);
    route := Route(instance, serviceName, httpMethod, apiRoute, error);
  }

  /** With an `@`, the instance is the text before the first `@` and the rest
      of the route is read from the text after it; without one, the instance
      is empty and the whole string is read. */
  lemma RouteInstance(toValue: string)
    ensures '@' !in toValue ==> RouteOf(toValue).instance == [] && AddressOf(toValue) == toValue
    ensures '@' in toValue ==>
      && '@' !in RouteOf(toValue).instance
      && toValue == RouteOf(toValue).instance + "@" + AddressOf(toValue)
  {
  }

  /** Without an `@` and without a URL scheme, the service name is the text
      before the first `:` and the route the text after it, so that the two
      rejoined by `:` give back the input when no verb bracket follows. */
  lemma PlainRoute(toValue: string)
    requires '@' !in toValue && !IsUrlScheme(Before(toValue, ':'))
    ensures var r := RouteOf(toValue);
      && ':' !in r.serviceName
      && (':' !in toValue ==> r.serviceName == toValue && r.apiRoute == [] && r.error == None)
      && (':' in toValue && (After(toValue, ':') == [] || After(toValue, ':')[0] != '[') ==>
            r.serviceName + ":" + r.apiRoute == toValue && r.httpMethod == DefaultMethod)
  {
  }

  /** A first segment starting with `http` takes the second segment with it,
      rejoined by a single `:`; the route is what follows the second `:`. */
  lemma UrlSchemeRoute(address: string)
    requires IsUrlScheme(Before(address, ':')) && ':' in address
    ensures var first, second := Before(address, ':'), Before(After(address, ':'), ':');
      && ServiceOf(address) == first + ":" + second
      && ':' !in first && ':' !in second
    ensures ':' in After(address, ':') ==> address == ServiceOf(address) + ":" + PathOf(address)
    ensures ':' !in After(address, ':') ==> address == ServiceOf(address) && PathOf(address) == []
  {
    var first, rest := Before(address, ':'), After(address, ':');
    assert address == first + ":" + rest;
    if ':' in rest {
      var second, path := Before(rest, ':'), After(rest, ':');
      assert rest == second + ":" + path;
      assert address == (first + ":" + second) + ":" + path;
    }
  }

  /** A URL scheme with no `:` after it: the missing second segment is the
      text `undefined` and the route is empty. */
  lemma UrlSchemeWithoutPort(toValue: string)
    requires '@' !in toValue && IsUrlScheme(toValue) && ':' !in toValue
    ensures RouteOf(toValue).serviceName == toValue + ":undefined"
    ensures RouteOf(toValue).apiRoute == []
  {
    assert Before(toValue, ':') == toValue;
    assert toValue + ":" + "undefined" == toValue + ":undefined";
    assert PathOf(toValue) == [];
    assert !HasVerb([]) && !Unclosed([]);
  }

  /** A route that opens with `[verb]`: the method is the verb lower-cased, and
      a non-empty verb is taken off together with its brackets; an empty one
      leaves the route as it is. */
  lemma {:induction false} VerbBracket(verb: string, rest: string)
    requires ']' !in verb
    ensures var path := "[" + verb + "]" + rest;
      && MethodOf(path) == ToLowerCase(verb)
      && ApiRouteOf(path) == (if verb == [] then path else rest)
      && ErrorOf(path) == None
  {
    var path := "[" + verb + "]" + rest;
    assert path[1..] == verb + [']'] + rest;
    FirstOccurrence(verb, ']', rest);
    assert ']' !in "[" + verb;
    assert path == ("[" + verb) + [']'] + rest;
    FirstOccurrence("[" + verb, ']', rest);
  }

  /** The error is set exactly when the route opens a verb bracket and never
      closes it; the method then stays the default and the route is left whole.
      The "invalid number of routable segments" error is never produced. */
  lemma RouteError(toValue: string)
    ensures var r, path := RouteOf(toValue), PathOf(AddressOf(toValue));
      && (r.error.Some? <==> Unclosed(path))
      && (r.error.Some? ==> r.error.value == IllFormedVerbError && r.httpMethod == DefaultMethod && r.apiRoute == path)
      && r.error != Some(InvalidSegmentsError)
  {
  }

  /** The method is `post` unless the route opens with a closed verb bracket. */
  lemma RouteDefaultMethod(toValue: string)
    requires !HasVerb(PathOf(AddressOf(toValue)))
    ensures RouteOf(toValue).httpMethod == DefaultMethod
  {
  }

  /** The method never holds an upper-case letter. */
  lemma MethodLowerCase(path: string)
    ensures forall i | 0 <= i < |MethodOf(path)| :: !IsUpper(MethodOf(path)[i])
  {
    if !HasVerb(path) {
      assert MethodOf(path) == ['p', 'o', 's', 't'];
    }
  }

  /** A route written out of its parts, `instance@service:path`, with no `@`
      in the instance, no `:` in the service and no URL scheme, parses back
      into those parts, the path then read for its verb. */
  lemma QualifiedRoute(instance: string, service: string, path: string)
    requires '@' !in instance && ':' !in service && !IsUrlScheme(service)
    ensures RouteOf(instance + ['@'] + (service + [':'] + path))
         == Route(instance, service, MethodOf(path), ApiRouteOf(path), ErrorOf(path))
  {
    var address := service + [':'] + path;
    FirstOccurrence(instance, '@', address);
    FirstOccurrence(service, ':', path);
  }

  /** Any instance and any path around the test suite's service and verb,
      `<instance>@test-service:[GET]<path>`: the verb is lower-cased and taken
      off, and nothing else changes. */
  lemma GetTestServiceRoute(instance: string, path: string)
    requires '@' !in instance
    ensures RouteOf(instance + ['@'] + ("test-service" + [':'] + ("[" + "GET" + "]" + path)))
         == Route(instance, "test-service", "get", path, None)
  {
    var service, verb := "test-service", "GET";
    var pathAndVerb := "[" + verb + "]" + path;
    var address := service + [':'] + pathAndVerb;
    var toValue := instance + ['@'] + address;
    assert InstanceOf(toValue) == instance && AddressOf(toValue) == address by {
      FirstOccurrence(instance, '@', address);
    }
    assert ServiceOf(address) == service && PathOf(address) == pathAndVerb by {
      assert service[0] == 't';
      FirstOccurrence(service, ':', pathAndVerb);
    }
    assert ToLowerCase(verb) == "get";
    VerbBracket(verb, path);
  }

  /** The route of the test suite,
      `fa1ae8d586fc44afaad8cd2740aef041@test-service:[GET]/v1/somedata`:
      instance, service, lower-cased verb and path. */
  lemma TestSuiteRoute()
    ensures RouteOf("fa1ae8d586fc44afaad8cd2740aef041" + ['@'] + ("test-service" + [':'] + ("[" + "GET" + "]" + "/v1/somedata")))
         == Route("fa1ae8d586fc44afaad8cd2740aef041", "test-service", "get", "/v1/somedata", None)
  {
    GetTestServiceRoute("fa1ae8d586fc44afaad8cd2740aef041", "/v1/somedata");
  }

  /** A URL service with a port, `http://host:9000:/path`: only the scheme and
      the host are rejoined (`http://host`), and the port stays at the front of
      the route (`9000:/path`). */
  lemma UrlWithPortRoute()
    ensures RouteOf("http" + ":" + ("//host" + ":" + ("9000" + ":" + "/path")))
         == Route("", "http" + ":" + "//host", DefaultMethod, "9000" + ":" + "/path", None)
  {
    var scheme, host, port, path := "http", "//host", "9000", "/path";
    var rest := port + [':'] + path;
    var tail := host + [':'] + rest;
    var address := scheme + [':'] + tail;
    assert '@' !in address by {
      assert '@' !in rest;
      assert '@' !in tail;
    }
    assert ServiceOf(address) == scheme + ":" + host && PathOf(address) == rest by {
      FirstOccurrence(scheme, ':', tail);
      FirstOccurrence(host, ':', rest);
      assert IsUrlScheme(scheme);
    }
    assert rest[0] == '9';
  }

  /** A plain service and a bare path, `someservice:/`: the default method and
      no error. */
  lemma PlainServiceRoute()
    ensures RouteOf("someservice" + ":" + "/") == Route("", "someservice", DefaultMethod, "/", None)
  {
    var address := "someservice" + [':'] + "/";
    assert '@' !in address;
    assert ServiceOf(address) == "someservice" && PathOf(address) == "/" by {
      assert "someservice"[0] == 's';
      FirstOccurrence("someservice", ':', "/");
    }
    assert !HasVerb("/") && !Unclosed("/");
  }

  /** An empty verb, `svc:[]`, sets the method to the empty string and leaves
      the route untouched. */
  lemma EmptyVerbRoute()
    ensures RouteOf("svc" + ":" + "[]") == Route("", "svc", "", "[]", None)
  {
    var address := "svc" + [':'] + "[]";
    assert "[]" == "[" + "" + "]" + "";
    assert '@' !in address;
    assert ServiceOf(address) == "svc" && PathOf(address) == "[]" by {
      assert "svc"[0] == 's';
      FirstOccurrence("svc", ':', "[]");
    }
    VerbBracket("", "");
  }

  /** An opened bracket that is never closed, `svc:[GET/v1`, is the one parse
      error. */
  lemma UnclosedVerbRoute()
    ensures RouteOf("svc" + ":" + "[GET/v1") == Route("", "svc", DefaultMethod, "[GET/v1", Some(IllFormedVerbError))
  {
    var address := "svc" + [':'] + "[GET/v1";
    assert '@' !in address;
    assert ServiceOf(address) == "svc" && PathOf(address) == "[GET/v1" by {
      assert "svc"[0] == 's';
      FirstOccurrence("svc", ':', "[GET/v1");
    }
    assert Unclosed("[GET/v1");
  }
}
