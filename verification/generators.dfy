/** The function generators of brckt: the raw verb functions, `restify` and
    `restifyWithData` (which put the path builder in front of a verb), the
    `listObjects` dispatch, `generate` (partial application of leading
    arguments) and the surface the factory returns. A call is described by the
    arguments it hands to `requestP`; sending it is the business of the
    transport module. */
module Generators {
  import opened JsValues
  import opened Paths

  datatype Verb = Get | Post | Put | Delete

  /** The arguments of one call of `requestP`: the verb, the path relative to the
      base URL, and the data argument (`undefined` when none is passed). */
  datatype Call = Call(verb: Verb, uri: string, data: Value)

  /** A raw verb function, `_.partial(requestP, verb)`: a path and a data argument. */
  type Handler = (string, Value) -> Call

  /** A function over a whole argument list, as `restify` and friends return. */
  type Variadic = seq<Value> -> Call

  /** A builder generator: leading arguments in, a function awaiting the rest out. */
  type Builder = seq<Value> -> Variadic

  function VerbFn(verb: Verb): Handler
  {
    (uri, data) => Call(verb, uri, data)
  }

  /** `restify(fn)`: every argument goes to the path builder; `fn` gets no data. */
  function Restify(fn: Handler): Variadic
  {
    args => fn(ResourceIdPath(args), Undefined)
  }

  /** `restifyWithData(fn)`: all but the last argument go to the path builder,
      the last is passed on as the data. */
  function RestifyWithData(fn: Handler): Variadic
  {
    args => fn(ResourceIdPath(Initial(args)), Last(args))
  }

  /** `listObjects(args)`: the raw `get` of the arity-dispatched list path, with no data. */
  function ListObjects(args: seq<Value>): Call
  {
    Call(Get, ListPath(args), Undefined)
  }

  /** `generate(fn)`: a function of leading arguments that returns `fn` with
      those arguments bound in front. */
  function Generate(fn: Variadic): Builder
  {
    leading => trailing => fn(leading + trailing)
  }

  /** The object the factory returns. */
  datatype Client = Client(
    buildGetFn: Builder,
    buildListFn: Builder,
    buildCreateFn: Builder,
    buildUpdateFn: Builder,
    buildRemoveFn: Builder,
    getObject: Variadic,
    listObjects: Variadic,
    createObject: Variadic,
    updateObject: Variadic,
    removeObject: Variadic,
    get: Handler,
    post: Handler,
    put: Handler,
    delete: Handler)

  function Surface(): Client
  {
    Client(
      Generate(Restify(VerbFn(Get))),
      Generate(ListObjects),
      Generate(RestifyWithData(VerbFn(Post))),
      Generate(RestifyWithData(VerbFn(Put))),
      Generate(Restify(VerbFn(Delete))),
      Restify(VerbFn(Get)),
      ListObjects,
      RestifyWithData(VerbFn(Post)),
      RestifyWithData(VerbFn(Put)),
      Restify(VerbFn(Delete)),
      VerbFn(Get),
      VerbFn(Post),
      VerbFn(Put),
      VerbFn(Delete))
  }

  /** A function from `restify` sends every argument to the path builder and
      no data. */
  lemma RestifySendsPath(verb: Verb, args: seq<Value>)
    ensures Restify(VerbFn(verb))(args) == Call(verb, ResourceIdPath(args), Undefined)
  {
  }

  /** A function from `restifyWithData` builds the path from every argument but
      the last, and forwards the last one unchanged as the data. */
  lemma WriteSplitsBody(verb: Verb, resourcesAndIds: seq<Value>, obj: Value)
    ensures RestifyWithData(VerbFn(verb))(resourcesAndIds + [obj]) ==
      Call(verb, ResourceIdPath(resourcesAndIds), obj)
  {
    InitialLastOfAppend(resourcesAndIds, obj);
  }

  /** The payload never reaches the path: two writes that differ only in their
      last argument request the same path. */
  lemma WritePathIgnoresBody(verb: Verb, resourcesAndIds: seq<Value>, obj1: Value, obj2: Value)
    ensures RestifyWithData(VerbFn(verb))(resourcesAndIds + [obj1]).uri ==
      RestifyWithData(VerbFn(verb))(resourcesAndIds + [obj2]).uri
  {
    WriteSplitsBody(verb, resourcesAndIds, obj1);
    WriteSplitsBody(verb, resourcesAndIds, obj2);
  }

  /** `generate(fn)(leading...)(trailing...)` is `fn(leading..., trailing...)`. */
  lemma GenerateBinds(fn: Variadic, leading: seq<Value>, trailing: seq<Value>)
    ensures Generate(fn)(leading)(trailing) == fn(leading + trailing)
  {
  }

  /** Binding in two stages is binding once: a bound function keeps no state,
      so moving arguments between the binding and the call changes nothing. */
  lemma GenerateStaged(fn: Variadic, first: seq<Value>, second: seq<Value>, rest: seq<Value>)
    ensures Generate(fn)(first)(second + rest) == Generate(fn)(first + second)(rest)
  {
    assert first + (second + rest) == (first + second) + rest;
  }

  /** Each builder of the surface is its direct function with the leading
      arguments bound in front. */
  lemma BuildersBindDirectFunctions(leading: seq<Value>, trailing: seq<Value>)
    ensures var c := Surface();
      && c.buildGetFn(leading)(trailing) == c.getObject(leading + trailing)
      && c.buildListFn(leading)(trailing) == c.listObjects(leading + trailing)
      && c.buildCreateFn(leading)(trailing) == c.createObject(leading + trailing)
      && c.buildUpdateFn(leading)(trailing) == c.updateObject(leading + trailing)
      && c.buildRemoveFn(leading)(trailing) == c.removeObject(leading + trailing)
  {
  }

  /** The raw verbs bypass the path builder: the path is taken literally. */
  lemma RawVerbsTakePathLiterally(uri: string, data: Value)
    ensures var c := Surface();
      && c.get(uri, data) == Call(Get, uri, data)
      && c.post(uri, data) == Call(Post, uri, data)
      && c.put(uri, data) == Call(Put, uri, data)
      && c.delete(uri, data) == Call(Delete, uri, data)
  {
  }
}
