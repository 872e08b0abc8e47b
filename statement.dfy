/**
 * Statement construction (`XAPI.buildStatement`, index.js:18-31): an xAPI
 * "actor verb object" record stamped with its generation time, with the
 * optional `result` and `context` keys present only for truthy values.
 */
module Statements {
  import opened Js

  /** The destructured argument `{ verb, object, result, context }`; a key the
      caller leaves out reads as `Undefined`. */
  datatype StatementArgs = StatementArgs(verb: JsValue, obj: JsValue, result: JsValue, context: JsValue)

  /** A built statement. The timestamp is the clock reading taken at build
      time, passed in as an opaque string. */
  datatype Statement = Statement(
    actor: JsValue,
    verb: JsValue,
    obj: JsValue,
    result: Option<JsValue>,
    context: Option<JsValue>,
    timestamp: string)

  const MandatoryMessage: string := "verb and object are mandatory in a statement"

  /** Every statement the builder returns has a truthy verb and object, and an
      optional part is present only with a truthy value. */
  predicate WellFormed(st: Statement) {
    && Truthy(st.verb)
    && Truthy(st.obj)
    && (st.result.Some? ==> Truthy(st.result.value))
    && (st.context.Some? ==> Truthy(st.context.value))
  }

  /** The object-spread `...(v && { key: v })`: spreading a falsy primitive
      contributes no property. */
  function SpreadIfTruthy(v: JsValue): (r: Option<JsValue>)
    ensures r.Some? <==> Truthy(v)
    ensures r.Some? ==> r.value == v
  {
    if Truthy(v) then Some(v) else None
  }

  /** `buildStatement(args)` on a client whose stored actor is `actor`, with
      the clock reading `timestamp`. */
  function Build(actor: JsValue, args: StatementArgs, timestamp: string): (r: Result<Statement>)
    ensures r.Throws? <==> !Truthy(args.verb) || !Truthy(args.obj)
    ensures r.Throws? ==> r.exn == Error(MandatoryMessage)
    ensures r.Ok? ==> WellFormed(r.value)
    ensures r.Ok? ==> && r.value.actor == actor
                      && r.value.verb == args.verb
                      && r.value.obj == args.obj
                      && r.value.timestamp == timestamp
    ensures r.Ok? ==> (r.value.result.Some? <==> Truthy(args.result))
                      && (r.value.result.Some? ==> r.value.result.value == args.result)
    ensures r.Ok? ==> (r.value.context.Some? <==> Truthy(args.context))
                      && (r.value.context.Some? ==> r.value.context.value == args.context)
  {
    if !Truthy(args.verb) || !Truthy(args.obj) then
      Throws(Error(MandatoryMessage))
    else
      Ok(Statement(
        actor,
        args.verb,
        args.obj,
        SpreadIfTruthy(args.result),
        SpreadIfTruthy(args.context),
        timestamp))
  }

  /** One optional key of the object literal, present only when `Some`. */
  function OptionalProp(key: string, v: Option<JsValue>): (ps: seq<Prop>)
    ensures v.None? ==> ps == []
    ensures v.Some? ==> ps == [Prop(key, v.value)]
  {
    if v.Some? then [Prop(key, v.value)] else []
  }

  /** The object literal `buildStatement` returns, keys in insertion order. */
  function ToObject(st: Statement): (o: JsValue)
    ensures o.Obj?
    ensures |o.props| == 4 + (if st.result.Some? then 1 else 0) + (if st.context.Some? then 1 else 0)
  {
    Obj([Prop("actor", st.actor), Prop("verb", st.verb), Prop("object", st.obj)]
        + OptionalProp("result", st.result)
        + OptionalProp("context", st.context)
        + [Prop("timestamp", Str(st.timestamp))])
  }

  /** The spread written in the literal, `...(v && { key: v })`, contributes
      exactly the optional property the statement record holds: nothing for
      every falsy value ("", 0, false, NaN, null, undefined), one property
      with the value `v` otherwise. */
  lemma SpreadMatches(key: string, v: JsValue)
    ensures SpreadProps(And(v, Obj([Prop(key, v)]))) == OptionalProp(key, SpreadIfTruthy(v))
  {
  }

  /** The key order of the statement object: the three mandatory keys, then
      `result` and `context` only when present, then `timestamp`. */
  lemma ToObjectKeys(st: Statement)
    ensures Keys(ToObject(st).props)
         == ["actor", "verb", "object"]
            + (if st.result.Some? then ["result"] else [])
            + (if st.context.Some? then ["context"] else [])
            + ["timestamp"]
  {
  }

  /** A statement object never has two properties with the same key. */
  lemma ToObjectKeysDistinct(st: Statement)
    ensures var ks := Keys(ToObject(st).props);
            forall i, j :: 0 <= i < j < |ks| ==> ks[i] != ks[j]
  {
    ToObjectKeys(st);
  }

  /** Where each property of the statement object sits. */
  lemma ToObjectLayout(st: Statement)
    ensures var ps := ToObject(st).props;
            var r := if st.result.Some? then 1 else 0;
            var c := if st.context.Some? then 1 else 0;
            && |ps| == 4 + r + c
            && ps[0] == Prop("actor", st.actor)
            && ps[1] == Prop("verb", st.verb)
            && ps[2] == Prop("object", st.obj)
            && ps[|ps| - 1] == Prop("timestamp", Str(st.timestamp))
            && (st.result.Some? ==> ps[3] == Prop("result", st.result.value))
            && (st.context.Some? ==> ps[3 + r] == Prop("context", st.context.value))
            && (forall j :: 3 <= j < |ps| - 1 ==> ps[j].key == "result" || ps[j].key == "context")
            && (st.result.None? ==> forall j :: 0 <= j < |ps| ==> ps[j].key != "result")
            && (st.context.None? ==> forall j :: 0 <= j < |ps| ==> ps[j].key != "context")
  {
  }

  /** Reading a mandatory key of the statement object gives the statement's
      actor, verb, object and timestamp. */
  lemma ToObjectGetMandatory(st: Statement)
    ensures var ps := ToObject(st).props;
            && Get(ps, "actor") == st.actor
            && Get(ps, "verb") == st.verb
            && Get(ps, "object") == st.obj
            && Get(ps, "timestamp") == Str(st.timestamp)
  {
    var ps := ToObject(st).props;
    assert ps[0].key == "actor" && ps[1].key == "verb" && ps[2].key == "object";
    GetAt(ps, 0);
    GetAt(ps, 1);
    GetAt(ps, 2);
    ToObjectGetTimestamp(st);
  }

  lemma ToObjectGetTimestamp(st: Statement)
    ensures Get(ToObject(st).props, "timestamp") == Str(st.timestamp)
  {
    var ps := ToObject(st).props;
    ToObjectLayout(st);
    GetAt(ps, |ps| - 1);
  }

  /** Reading `result` gives its value when present and `undefined` when it
      is absent. */
  lemma ToObjectGetResult(st: Statement)
    ensures Get(ToObject(st).props, "result") == (if st.result.Some? then st.result.value else Undefined)
  {
    var ps := ToObject(st).props;
    ToObjectLayout(st);
    if st.result.Some? {
      GetAt(ps, 3);
    } else {
      assert "result" !in Keys(ps);
    }
  }

  /** Reading `context` gives its value when present and `undefined` when it
      is absent. */
  lemma ToObjectGetContext(st: Statement)
    ensures Get(ToObject(st).props, "context") == (if st.context.Some? then st.context.value else Undefined)
  {
    var ps := ToObject(st).props;
    ToObjectLayout(st);
    if st.context.Some? {
      GetAt(ps, if st.result.Some? then 4 else 3);
    } else {
      assert "context" !in Keys(ps);
    }
  }

  /** A built statement object holds a `result` (`context`) key exactly when
      the caller's `result` (`context`) was truthy, and reading that key gives
      the caller's value then and `undefined` otherwise: a null, undefined or
      other falsy value is never emitted under it. */
  lemma BuildOptionalKeys(actor: JsValue, args: StatementArgs, timestamp: string)
    requires Build(actor, args, timestamp).Ok?
    ensures var ps := ToObject(Build(actor, args, timestamp).value).props;
            && ("result" in Keys(ps) <==> Truthy(args.result))
            && ("context" in Keys(ps) <==> Truthy(args.context))
            && Get(ps, "result") == (if Truthy(args.result) then args.result else Undefined)
            && Get(ps, "context") == (if Truthy(args.context) then args.context else Undefined)
  {
    var st := Build(actor, args, timestamp).value;
    ToObjectLayout(st);
    ToObjectGetResult(st);
    ToObjectGetContext(st);
  }
}
