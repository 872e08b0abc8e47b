/**
 * The `XAPI` client object (index.js:2-57): construction with its presence
 * checks and endpoint normalisation, the statement builder bound to the
 * stored actor, and `sendStatement`, which builds before it sends. The
 * network exchange itself is reduced to a ghost log of the requests issued.
 */
module Xapi {
  import opened Js
  import opened Endpoint
  import opened Statements

  /** The destructured constructor argument `{ endpoint, username, password,
      actor }`; a key the caller leaves out reads as `Undefined`. */
  datatype Options = Options(endpoint: JsValue, username: JsValue, password: JsValue, actor: JsValue)

  /** The four fields a constructed client holds. */
  datatype Config = Config(endpoint: string, username: JsValue, password: JsValue, actor: JsValue)

  /** A statement POST as `send` issues it: the stored endpoint as URL, the
      stored credentials for the Basic-Auth header, the statement as body. */
  datatype Request = Post(url: string, username: JsValue, password: JsValue, body: Statement)

  /** The message Node.js gives the `DOMException` that `btoa` throws. */
  const InvalidCharacterMessage: string := "Invalid character"

  /** A credential `btoa` accepts once it is placed in the template
      `${username}:${password}`. A string contributes its own characters;
      every other value the model has converts to ASCII text ("true", digits,
      "NaN", "[object Object]"), so only a string can be rejected. */
  predicate Encodable(v: JsValue) {
    v.Str? ==> Latin1(v.s)
  }

  /** For two string credentials, `Encodable` on each is `btoa`'s own test
      on the joined text. */
  lemma EncodableJoined(username: string, password: string)
    ensures Latin1(username + ":" + password) <==> Encodable(Str(username)) && Encodable(Str(password))
  {
    Latin1Join(username, password);
  }

  /** The test suite's credentials pass `btoa`; a password holding the euro
      sign (U+20AC) does not. */
  lemma EncodableExamples()
    ensures Encodable(Str("user")) && Encodable(Str("pass"))
    ensures !Encodable(Str("p\U{20AC}ss"))
  {
    assert "p\U{20AC}ss"[1] == '\U{20AC}';
  }

  /** What V8 reports when `endpoint.endsWith` is read off a non-string. */
  const EndsWithNotAFunction: string := "endpoint.endsWith is not a function"

  /** True when none of the four constructor fields is falsy. */
  predicate AllPresent(opts: Options) {
    Truthy(opts.endpoint) && Truthy(opts.username) && Truthy(opts.password) && Truthy(opts.actor)
  }

  /** The outcome of `new XAPI(opts)`: the first falsy field, in the order
      endpoint, username, password, actor, is reported by name; a truthy
      endpoint that is not a string has no `endsWith`; otherwise the fields
      are stored with the endpoint normalised. */
  function Configure(opts: Options): (r: Result<Config>)
    ensures !Truthy(opts.endpoint) ==> r == Throws(Error("Missing endpoint"))
    ensures Truthy(opts.endpoint) && !Truthy(opts.username) ==> r == Throws(Error("Missing username"))
    ensures (Truthy(opts.endpoint) && Truthy(opts.username) && !Truthy(opts.password))
        ==> r == Throws(Error("Missing password"))
    ensures (Truthy(opts.endpoint) && Truthy(opts.username) && Truthy(opts.password) && !Truthy(opts.actor))
        ==> r == Throws(Error("Missing actor"))
    ensures AllPresent(opts) && !opts.endpoint.Str? ==> r == Throws(TypeError(EndsWithNotAFunction))
    ensures r.Ok? <==> AllPresent(opts) && opts.endpoint.Str?
    ensures r.Ok? ==> && EndsWith(r.value.endpoint, Suffix)
                      && r.value.endpoint == Normalize(opts.endpoint.s)
                      && r.value.username == opts.username
                      && r.value.password == opts.password
                      && r.value.actor == opts.actor
  {
    if !Truthy(opts.endpoint) then Throws(Error("Missing endpoint"))
    else if !Truthy(opts.username) then Throws(Error("Missing username"))
    else if !Truthy(opts.password) then Throws(Error("Missing password"))
    else if !Truthy(opts.actor) then Throws(Error("Missing actor"))
    else if !opts.endpoint.Str? then Throws(TypeError(EndsWithNotAFunction))
    else Ok(Config(Normalize(opts.endpoint.s), opts.username, opts.password, opts.actor))
  }

  /** Construction throws one of the four "Missing" errors exactly when some
      field is falsy. */
  lemma ConfigureMissingIff(opts: Options)
    ensures (Configure(opts).Throws? && Configure(opts).exn.Error?) <==> !AllPresent(opts)
  {
  }

  /** Constructing a client from the fields of a constructed client gives the
      same client: the endpoint is not suffixed a second time. */
  lemma ConfigureRoundTrip(opts: Options)
    requires Configure(opts).Ok?
    ensures var c := Configure(opts).value;
            Configure(Options(Str(c.endpoint), c.username, c.password, c.actor)) == Ok(c)
  {
  }

  /** The default parameters of `sendStatement`: a `result` or `context`
      the caller leaves out becomes `null`. */
  function WithSendDefaults(args: StatementArgs): (d: StatementArgs)
    ensures d.verb == args.verb && d.obj == args.obj
    ensures Truthy(d.result) <==> Truthy(args.result)
    ensures Truthy(d.result) ==> d.result == args.result
    ensures Truthy(d.context) <==> Truthy(args.context)
    ensures Truthy(d.context) ==> d.context == args.context
    ensures args.result == Undefined ==> d.result == Null
    ensures args.context == Undefined ==> d.context == Null
    ensures args.result != Undefined ==> d.result == args.result
    ensures args.context != Undefined ==> d.context == args.context
  {
    args.(result := if args.result == Undefined then Null else args.result,
          context := if args.context == Undefined then Null else args.context)
  }

  /** The `null` defaults change nothing in the statement built: `null` and
      `undefined` are both falsy, so either way the key is left out. */
  lemma SendDefaultsPreserveBuild(actor: JsValue, args: StatementArgs, timestamp: string)
    ensures Build(actor, WithSendDefaults(args), timestamp) == Build(actor, args, timestamp)
  {
  }

  /** Calling `sendStatement` with only a verb and an object builds a
      statement object with neither a `result` nor a `context` key. */
  lemma SendWithoutOptionalsOmitsKeys(actor: JsValue, verb: JsValue, obj: JsValue, timestamp: string)
    requires Truthy(verb) && Truthy(obj)
    ensures var b := Build(actor, WithSendDefaults(StatementArgs(verb, obj, Undefined, Undefined)), timestamp);
            && b.Ok?
            && Keys(ToObject(b.value).props) == ["actor", "verb", "object", "timestamp"]
  {
  }

  class Client {
    var endpoint: string
    var username: JsValue
    var password: JsValue
    var actor: JsValue
    /** Every request issued so far, oldest first. */
    ghost var requests: seq<Request>

    /** What construction guarantees and no method undoes. */
    ghost predicate Valid()
      reads this
    {
      EndsWith(endpoint, Suffix) && Truthy(username) && Truthy(password) && Truthy(actor)
    }

    /** The client's four fields as a value. */
    function Settings(): (c: Config)
      reads this
    {
      Config(endpoint, username, password, actor)
    }

    /** The field assignments of the constructor, once its checks passed. */
    constructor (opts: Options)
      requires Configure(opts).Ok?
      ensures Settings() == Configure(opts).value
      ensures Valid() && requests == []
    {
      endpoint := Normalize(opts.endpoint.s);
      username := opts.username;
      password := opts.password;
      actor := opts.actor;
      requests := [];
    }

    /** `buildStatement`: reads the stored actor and changes no field. */
    method BuildStatement(args: StatementArgs, timestamp: string) returns (r: Result<Statement>)
      ensures r == Build(actor, args, timestamp)
    {
      r := Build(actor, args, timestamp);
    }

    /** `send` up to the point where the request goes out: `btoa` encodes the
        credentials first and throws on text outside Latin-1, so no request
        is issued then; otherwise one POST to the stored endpoint is issued.
        The response is not modelled. */
    method Send(st: Statement) returns (r: Result<Request>)
      requires Valid()
      modifies this`requests
      ensures r.Throws? <==> !Encodable(username) || !Encodable(password)
      ensures r.Throws? ==> && r.exn == DOMException("InvalidCharacterError", InvalidCharacterMessage)
                            && requests == old(requests)
      ensures r.Ok? ==> && r.value == Post(endpoint, username, password, st)
                        && EndsWith(r.value.url, Suffix)
                        && requests == old(requests) + [r.value]
    {
      if !Encodable(username) || !Encodable(password) {
        return Throws(DOMException("InvalidCharacterError", InvalidCharacterMessage));
      }
      var req := Post(endpoint, username, password, st);
      requests := requests + [req];
      r := Ok(req);
    }

    /** `sendStatement`: the statement is built first, so a missing verb or
        object throws the builder's error and no request is issued, whatever
        the credentials; a statement that builds goes to `send`, which issues
        exactly one request to a "/statements" URL unless `btoa` rejects the
        credentials. */
    method SendStatement(args: StatementArgs, timestamp: string) returns (r: Result<Request>)
      requires Valid()
      modifies this`requests
      ensures Settings() == old(Settings()) && Valid()
      ensures r.Throws? <==> || !Truthy(args.verb) || !Truthy(args.obj)
                             || !Encodable(username) || !Encodable(password)
      ensures r.Throws? ==> requests == old(requests)
      ensures (!Truthy(args.verb) || !Truthy(args.obj)) ==> r == Throws(Error(MandatoryMessage))
      ensures (Truthy(args.verb) && Truthy(args.obj) && r.Throws?)
                ==> r.exn == DOMException("InvalidCharacterError", InvalidCharacterMessage)
      ensures r.Ok? ==> && r.value == Post(endpoint, username, password,
                                           Build(actor, WithSendDefaults(args), timestamp).value)
                        && EndsWith(r.value.url, Suffix)
                        && requests == old(requests) + [r.value]
    {
      var st := BuildStatement(WithSendDefaults(args), timestamp);
      if st.Throws? {
        return Throws(st.exn);
      }
      r := Send(st.value);
    }
  }

  /** `new XAPI(opts)`: the presence checks in source order, each throwing
      before anything is stored, then the field assignments. */
  method NewClient(opts: Options) returns (r: Result<Client>)
    ensures r.Throws? ==> Configure(opts) == Throws(r.exn)
    ensures r.Ok? ==> && Configure(opts) == Ok(r.value.Settings())
                      && fresh(r.value)
                      && r.value.Valid()
                      && r.value.requests == []
  {
    if !Truthy(opts.endpoint) {
      return Throws(Error("Missing endpoint"));
    }
    if !Truthy(opts.username) {
      return Throws(Error("Missing username"));
    }
    if !Truthy(opts.password) {
      return Throws(Error("Missing password"));
    }
    if !Truthy(opts.actor) {
      return Throws(Error("Missing actor"));
    }
    if !opts.endpoint.Str? {
      return Throws(TypeError(EndsWithNotAFunction));
    }
    var client := new Client(opts);
    r := Ok(client);
  }
}
