/**
 * The feature-check endpoint: validation of the feature name taken from the
 * path, and the fixed chain of early-return checks that ends in a call to
 * the caller application's Unleash client.
 */
module Feature {
  import opened Wrappers
  import Http
  import Clients

  const PathPrefix := "/features/"
  const MaxNameBytes := 100

  // ---------------------------------------------------------------------------
  // Go strings are UTF-8 bytes: `len(name)` counts bytes and `url.PathEscape`
  // escapes byte by byte. A Dafny string is a sequence of Unicode scalar
  // values, so both are stated through the UTF-8 encoding of each character.
  // ---------------------------------------------------------------------------

  /** The UTF-8 encoding of one character. */
  function Utf8(c: char): (bytes: seq<int>)
    ensures 1 <= |bytes| <= 4
    ensures forall i :: 0 <= i < |bytes| ==> 0 <= bytes[i] < 256
    ensures |bytes| == 1 <==> c as int < 0x80
    ensures |bytes| == 1 ==> bytes[0] == c as int
  {
    var n := c as int;
    if n < 0x80 then [n]
    else if n < 0x800 then [0xC0 + n / 0x40, 0x80 + n % 0x40]
    else if n < 0x10000 then [0xE0 + n / 0x1000, 0x80 + (n / 0x40) % 0x40, 0x80 + n % 0x40]
    else [0xF0 + n / 0x40000, 0x80 + (n / 0x1000) % 0x40, 0x80 + (n / 0x40) % 0x40, 0x80 + n % 0x40]
  }

  /** `len(s)` in Go: the number of bytes of the UTF-8 encoding. */
  function ByteLen(s: string): nat
  {
    if s == [] then 0 else |Utf8(s[0])| + ByteLen(s[1..])
  }

  /** Go's `shouldEscape(c, encodePathSegment)`, read on characters. */
  predicate ShouldEscape(c: char)
  {
    if 'a' <= c <= 'z' || 'A' <= c <= 'Z' || '0' <= c <= '9' then false
    else if c == '-' || c == '_' || c == '.' || c == '~' then false
    else if c == '$' || c == '&' || c == '+' || c == ',' || c == '/' || c == ':' || c == ';' || c == '=' || c == '?' || c == '@' then
      c == '/' || c == ';' || c == ',' || c == '?'
    else true
  }

  /** The characters a path segment may carry unescaped (section 3.3 of RFC 3986, as Go applies it). */
  predicate PathSegmentSafe(c: char)
  {
    'A' <= c <= 'Z' || 'a' <= c <= 'z' || '0' <= c <= '9' || c in "-_.~$&+:=@"
  }

  function HexDigit(d: int): char
    requires 0 <= d < 16
  {
    "0123456789ABCDEF"[d]
  }

  /** `%XX` with upper-case hexadecimal digits. */
  function PercentEncode(bytes: seq<int>): (r: string)
    requires forall i :: 0 <= i < |bytes| ==> 0 <= bytes[i] < 256
    ensures |r| == 3 * |bytes|
    ensures forall i :: 0 <= i < |r| ==> r[i] == '%' || PathSegmentSafe(r[i])
  {
    if bytes == [] then []
    else ['%', HexDigit(bytes[0] / 16), HexDigit(bytes[0] % 16)] + PercentEncode(bytes[1..])
  }

  /** How `url.PathEscape` renders one character. */
  function EscapeChar(c: char): string
  {
    if ShouldEscape(c) then PercentEncode(Utf8(c)) else [c]
  }

  /** `url.PathEscape(s)`. */
  function PathEscape(s: string): string
  {
    if s == [] then [] else EscapeChar(s[0]) + PathEscape(s[1..])
  }

  /** The escape test and the safe set describe the same characters. */
  lemma ShouldEscapeIffUnsafe(c: char)
    ensures ShouldEscape(c) <==> !PathSegmentSafe(c)
  {
  }

  /**
   * Escaping never shortens a string, and keeps its length exactly when no
   * character needs escaping; in that case it is the identity.
   */
  lemma {:induction false} PathEscapeLength(s: string)
    ensures |PathEscape(s)| >= |s|
    ensures |PathEscape(s)| == |s| <==> forall i :: 0 <= i < |s| ==> PathSegmentSafe(s[i])
    ensures (forall i :: 0 <= i < |s| ==> PathSegmentSafe(s[i])) ==> PathEscape(s) == s
  {
    if s != [] {
      PathEscapeLength(s[1..]);
      ShouldEscapeIffUnsafe(s[0]);
      assert forall i :: 1 <= i < |s| ==> s[i] == s[1..][i - 1];
      if !PathSegmentSafe(s[0]) {
        assert |EscapeChar(s[0])| >= 3;
      }
      if forall i :: 0 <= i < |s| ==> PathSegmentSafe(s[i]) {
        assert forall i :: 0 <= i < |s[1..]| ==> PathSegmentSafe(s[1..][i]);
      } else if PathSegmentSafe(s[0]) {
        var i :| 0 <= i < |s| && !PathSegmentSafe(s[i]);
        assert !PathSegmentSafe(s[1..][i - 1]);
      }
    }
  }

  /** `PathEscape(s) == s` holds exactly when every character is path-segment safe. */
  lemma PathEscapeIdentity(s: string)
    ensures PathEscape(s) == s <==> forall i :: 0 <= i < |s| ==> PathSegmentSafe(s[i])
  {
    PathEscapeLength(s);
  }

  /** What `PathEscape` produces is itself safe apart from the `%` signs it introduces. */
  lemma {:induction false} PathEscapeOutput(s: string)
    ensures forall i :: 0 <= i < |PathEscape(s)| ==> PathEscape(s)[i] == '%' || PathSegmentSafe(PathEscape(s)[i])
  {
    if s != [] {
      PathEscapeOutput(s[1..]);
      ShouldEscapeIffUnsafe(s[0]);
      var head := EscapeChar(s[0]);
      assert forall i :: 0 <= i < |head| ==> head[i] == '%' || PathSegmentSafe(head[i]);
    }
  }

  /** Safe characters are ASCII, so a safe name has as many bytes as characters. */
  lemma {:induction false} ByteLenOfSafe(s: string)
    requires forall i :: 0 <= i < |s| ==> PathSegmentSafe(s[i])
    ensures ByteLen(s) == |s|
  {
    if s != [] {
      assert forall i :: 0 <= i < |s[1..]| ==> PathSegmentSafe(s[1..][i]);
      ByteLenOfSafe(s[1..]);
    }
  }

  /** There are never fewer bytes than characters. */
  lemma {:induction false} ByteLenAtLeastLength(s: string)
    ensures ByteLen(s) >= |s|
  {
    if s != [] {
      ByteLenAtLeastLength(s[1..]);
    }
  }

  /** `IsValidName(name)`: 1 to 100 bytes, not "." or "..", and unchanged by `url.PathEscape`. */
  function IsValidName(name: string): bool
  {
    if ByteLen(name) < 1 || ByteLen(name) > MaxNameBytes then false
    else if name == "." || name == ".." then false
    else PathEscape(name) == name
  }

  /**
   * The whole rule in one statement: a name is valid exactly when it has 1
   * to 100 characters, is neither "." nor "..", and every character is one
   * of `A-Z a-z 0-9 - _ . ~ $ & + : = @`.
   */
  lemma IsValidNameCharacterization(name: string)
    ensures IsValidName(name) <==>
      1 <= |name| <= MaxNameBytes && name != "." && name != ".." &&
      forall i :: 0 <= i < |name| ==> PathSegmentSafe(name[i])
  {
    PathEscapeIdentity(name);
    ByteLenAtLeastLength(name);
    if forall i :: 0 <= i < |name| ==> PathSegmentSafe(name[i]) {
      ByteLenOfSafe(name);
    }
  }

  /** A name shorter than 1 byte or longer than 100 bytes is invalid. */
  lemma LengthOutOfRangeIsInvalid(name: string)
    requires ByteLen(name) < 1 || ByteLen(name) > MaxNameBytes
    ensures !IsValidName(name)
  {
  }

  /** "." and ".." survive the escape check yet are rejected. */
  lemma DotNamesAreInvalid()
    ensures PathEscape(".") == "." && PathEscape("..") == ".."
    ensures !IsValidName(".") && !IsValidName("..")
  {
    PathEscapeIdentity(".");
    PathEscapeIdentity("..");
  }

  /**
   * A name carrying `/`, `?`, `;`, `,`, `%`, a space or any non-ASCII
   * character is invalid.
   */
  lemma UnsafeCharacterIsInvalid(name: string, i: nat)
    requires i < |name|
    requires name[i] in "/?;,% " || name[i] as int >= 0x80
    ensures !IsValidName(name)
  {
    IsValidNameCharacterization(name);
    assert !PathSegmentSafe(name[i]);
  }

  /** A traversal attempt is not a feature name. */
  lemma TraversalIsInvalid()
    ensures !IsValidName("../etc")
  {
    UnsafeCharacterIsInvalid("../etc", 2);
  }

  // ---------------------------------------------------------------------------
  // The request handler.
  // ---------------------------------------------------------------------------

  /** The JSON body of a feature check. */
  datatype Request = Request(navIdent: string, appName: string, podName: string)

  /** The part of an `http.Request` the handler reads; `body` is the JSON decoder's result. */
  datatype HttpRequest = HttpRequest(verb: string, path: string, remoteAddr: string, body: Option<Request>)

  /** The Unleash evaluation context built for a request. */
  datatype EvalContext = EvalContext(
    environment: string,
    userId: string,
    appName: string,
    remoteAddress: string,
    properties: map<string, string>)

  datatype BadRequestKind = MissingFeature | InvalidFeature | InvalidJson | MissingAppName | UnknownAppName

  /** How a request ends: 405, 400 of a given kind, or 200 with the flag's value. */
  datatype Outcome = MethodNotAllowed | BadRequest(kind: BadRequestKind) | Ok(enabled: bool)

  /** `client.IsEnabled(feature, WithContext(ctx))`, as seen from outside the SDK. */
  type Evaluator = (Clients.Client, string, EvalContext) -> bool

  function StatusCode(o: Outcome): (code: int)
    ensures code == Http.StatusOK <==> o.Ok?
    ensures code == Http.StatusMethodNotAllowed <==> o.MethodNotAllowed?
    ensures code == Http.StatusBadRequest <==> o.BadRequest?
  {
    match o
    case MethodNotAllowed => Http.StatusMethodNotAllowed
    case BadRequest(_) => Http.StatusBadRequest
    case Ok(_) => Http.StatusOK
  }

  /** `strings.TrimPrefix(s, prefix)`. */
  function TrimPrefix(s: string, prefix: string): string
  {
    if |prefix| <= |s| && s[..|prefix|] == prefix then s[|prefix|..] else s
  }

  /** The name is what follows the prefix; a path without the prefix is taken whole. */
  lemma TrimPrefixSpec(s: string, prefix: string)
    ensures prefix <= s ==> prefix + TrimPrefix(s, prefix) == s
    ensures !(prefix <= s) ==> TrimPrefix(s, prefix) == s
  {
    if prefix <= s {
      assert s == s[..|prefix|] + s[|prefix|..];
    }
  }

  predicate AllowedMethod(verb: string)
  {
    verb == "POST" || verb == "QUERY"
  }

  function FeatureName(r: HttpRequest): string
  {
    TrimPrefix(r.path, PathPrefix)
  }

  /** The evaluation context: the environment, the caller's user, app and pod, and the peer address. */
  function ContextFor(environment: string, r: HttpRequest, req: Request): EvalContext
  {
    EvalContext(environment, req.navIdent, req.appName, r.remoteAddr, map["podName" := req.podName])
  }

  /**
   * `Handler`: method, empty name, name validity, JSON body, empty app name,
   * registry lookup, evaluation, in that order; the first failing check ends
   * the request. `registry` is the client map `clients.Get` reads and
   * `environment` is `UNLEASH_SERVER_API_ENV`.
   */
  function Handle(r: HttpRequest, registry: map<string, Clients.Client>, isEnabled: Evaluator, environment: string): Outcome
  {
    if !AllowedMethod(r.verb) then MethodNotAllowed
    else
      var name := FeatureName(r);
      if name == "" then BadRequest(MissingFeature)
      else if !IsValidName(name) then BadRequest(InvalidFeature)
      else if r.body.None? then BadRequest(InvalidJson)
      else
        var req := r.body.value;
        if req.appName == "" then BadRequest(MissingAppName)
        else if req.appName !in registry then BadRequest(UnknownAppName)
        else Ok(isEnabled(registry[req.appName], name, ContextFor(environment, r, req)))
  }

  /** Any method but POST and QUERY is refused before anything else is looked at. */
  lemma MethodCheckedFirst(r: HttpRequest, registry: map<string, Clients.Client>, isEnabled: Evaluator, environment: string)
    ensures Handle(r, registry, isEnabled, environment) == MethodNotAllowed <==> !AllowedMethod(r.verb)
  {
  }

  /**
   * Until the JSON body is decoded the outcome depends only on the method
   * and the path: an empty or invalid name is refused whatever the body,
   * the registry or the evaluator, so it never reaches `clients.Get`.
   */
  lemma NameCheckedBeforeBodyAndLookup(
    r: HttpRequest, body': Option<Request>,
    registry: map<string, Clients.Client>, registry': map<string, Clients.Client>,
    isEnabled: Evaluator, isEnabled': Evaluator, environment: string)
    requires AllowedMethod(r.verb)
    ensures FeatureName(r) == "" ==> Handle(r, registry, isEnabled, environment) == BadRequest(MissingFeature)
    ensures FeatureName(r) != "" && !IsValidName(FeatureName(r)) ==>
      Handle(r, registry, isEnabled, environment) == BadRequest(InvalidFeature)
    ensures FeatureName(r) == "" || !IsValidName(FeatureName(r)) ==>
      Handle(r, registry, isEnabled, environment) == Handle(r.(body := body'), registry', isEnabled', environment)
  {
  }

  /**
   * Once method and name pass, a body that does not decode is refused as
   * invalid JSON and an empty app name as missing; both refusals come before
   * the registry lookup, so neither depends on the registry or the evaluator.
   */
  lemma BodyCheckedBeforeLookup(
    r: HttpRequest,
    registry: map<string, Clients.Client>, registry': map<string, Clients.Client>,
    isEnabled: Evaluator, isEnabled': Evaluator, environment: string)
    requires AllowedMethod(r.verb) && IsValidName(FeatureName(r))
    ensures r.body.None? ==> Handle(r, registry, isEnabled, environment) == BadRequest(InvalidJson)
    ensures r.body.Some? && r.body.value.appName == "" ==>
      Handle(r, registry, isEnabled, environment) == BadRequest(MissingAppName)
    ensures r.body.None? || r.body.value.appName == "" ==>
      Handle(r, registry, isEnabled, environment) == Handle(r, registry', isEnabled', environment)
  {
  }

  /**
   * Status 200 happens exactly when every check passes and the app has a
   * client; the flag is then the client's verdict, asked with the caller's
   * user, app and pod.
   */
  lemma OkOnlyForRegisteredApp(r: HttpRequest, registry: map<string, Clients.Client>, isEnabled: Evaluator, environment: string)
    ensures Handle(r, registry, isEnabled, environment).Ok? <==>
      AllowedMethod(r.verb) && IsValidName(FeatureName(r)) && r.body.Some? &&
      r.body.value.appName != "" && r.body.value.appName in registry
    ensures Handle(r, registry, isEnabled, environment).Ok? ==>
      var req := r.body.value;
      var ctx := ContextFor(environment, r, req);
      && ctx.userId == req.navIdent && ctx.appName == req.appName
      && ctx.properties == map["podName" := req.podName]
      && Handle(r, registry, isEnabled, environment).enabled == isEnabled(registry[req.appName], FeatureName(r), ctx)
  {
    if IsValidName(FeatureName(r)) {
      assert FeatureName(r) != "";
    }
  }

  /**
   * A caller outside the allow-list is never served, whatever the flag
   * name or body, as long as the registry only holds allow-listed apps.
   */
  lemma UnknownCallerNeverServed(
    r: HttpRequest, reg: Clients.Registry, isEnabled: Evaluator, environment: string)
    requires reg.Valid()
    requires r.body.Some? && !reg.IsValidApp(r.body.value.appName)
    ensures !Handle(r, reg.clientMap, isEnabled, environment).Ok?
    ensures AllowedMethod(r.verb) && IsValidName(FeatureName(r)) && r.body.value.appName != "" ==>
      Handle(r, reg.clientMap, isEnabled, environment) == BadRequest(UnknownAppName)
  {
  }

  /** `POST /features/../etc` is refused as an invalid name, whatever the body or registry. */
  lemma TraversalRequestRefused(
    remoteAddr: string, body: Option<Request>,
    registry: map<string, Clients.Client>, isEnabled: Evaluator, environment: string)
    ensures Handle(HttpRequest("POST", "/features/../etc", remoteAddr, body), registry, isEnabled, environment)
      == BadRequest(InvalidFeature)
  {
    var r := HttpRequest("POST", "/features/../etc", remoteAddr, body);
    assert PathPrefix <= r.path;
    TrimPrefixSpec(r.path, PathPrefix);
    assert FeatureName(r) == "../etc";
    TraversalIsInvalid();
  }
}
