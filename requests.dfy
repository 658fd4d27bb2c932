/**
 * The request each key-space operation sends and the outcome it makes of the
 * decoded response. Both clients build identical requests; each operation here
 * takes the URI the client built for the key, and the decoded body the
 * transport returned for the request.
 */
module Requests {
  import opened Wrappers
  import opened PhpValues
  import opened Responses

  datatype Verb = GET | PUT | POST | DELETE

  /** A PHP array of named parameters (a form body or a query). */
  type Params = map<string, Json>

  /**
   * What the client hands the HTTP transport: the verb, the URI, the form body
   * (empty when the request carries none) and the query parameters.
   */
  datatype Request = Request(verb: Verb, uri: string, form: Params, query: Params)

  /** The body {value, ttl?}: the value always, the ttl only when it is truthy. */
  predicate ValueForm(form: Params, value: Json, ttl: Json) {
    && form.Keys == {"value"} + (if Truthy(ttl) then {"ttl"} else {})
    && form["value"] == value
    && (Truthy(ttl) ==> form["ttl"] == ttl)
  }

  /** The body {dir: 'true', ttl?}: the ttl only when it is truthy. */
  predicate DirForm(form: Params, ttl: Json) {
    && form.Keys == {"dir"} + (if Truthy(ttl) then {"ttl"} else {})
    && form["dir"] == Str("true")
    && (Truthy(ttl) ==> form["ttl"] == ttl)
  }

  /** `recursive=true` is present exactly when the flag is identical to true. */
  predicate RecursiveQuery(query: Params, base: Params, recursive: Json) {
    && query.Keys == base.Keys + (if recursive == Bool(true) then {"recursive"} else {})
    && (recursive == Bool(true) ==> query["recursive"] == Str("true"))
    && (forall k :: k in base && k != "recursive" ==> query[k] == base[k])
  }

  /** array_merge on string keys: every key of both, the second array's value winning. */
  function ArrayMerge(a: Params, b: Params): (r: Params)
    ensures r.Keys == a.Keys + b.Keys
    ensures forall k :: k in b ==> r[k] == b[k]
    ensures forall k :: k in a && k !in b ==> r[k] == a[k]
  {
    a + b
  }

  /** set: PUT {value, ttl?} with the caller's condition as query; the body is returned as is, error or not. */
  method Set(uri: string, value: Json, ttl: Json, condition: Params, response: Json)
    returns (req: Request, body: Json)
    ensures req.verb == PUT && req.uri == uri && req.query == condition
    ensures ValueForm(req.form, value, ttl)
    ensures body == response
  {
    var data: Params := map["value" := value];
    if Truthy(ttl) {
      data := data["ttl" := ttl];
    }
    req := Request(PUT, uri, data, condition);
    body := response;
  }

  /** getNode: GET with the flags as query; KeyNotFound on an error code, else $body['node']. */
  method GetNode(uri: string, flags: Params, response: Json)
    returns (req: Request, result: Result<Json, EtcdError>)
    ensures req == Request(GET, uri, map[], flags)
    ensures RaisedOn(result, KeyNotFound, response)
    ensures result.Success? ==> result.value == Lookup(response, "node")
  {
    var query: Params := map[];
    if flags != map[] {
      query := flags;
    }
    req := Request(GET, uri, map[], query);
    if HasError(response) {
      result := Failure(ErrorOf(KeyNotFound, response));
    } else {
      result := Success(Lookup(response, "node"));
    }
  }

  /** get: the `value` member of the node getNode returns. */
  method Get(uri: string, flags: Params, response: Json)
    returns (req: Request, result: Result<Json, EtcdError>)
    ensures req == Request(GET, uri, map[], flags)
    ensures RaisedOn(result, KeyNotFound, response)
    ensures result.Success? ==> result.value == Lookup(Lookup(response, "node"), "value")
  {
    var node;
    req, node := GetNode(uri, flags, response);
    if node.Failure? {
      result := Failure(node.error);
    } else {
      result := Success(Lookup(node.value, "value"));
    }
  }

  /** mk: set with prevExist=false; KeyExists on an error code. */
  method Mk(uri: string, value: Json, ttl: Json, response: Json)
    returns (req: Request, result: Result<Json, EtcdError>)
    ensures req.verb == PUT && req.uri == uri && ValueForm(req.form, value, ttl)
    ensures req.query == map["prevExist" := Str("false")]
    ensures RaisedOn(result, KeyExists, response)
    ensures result.Success? ==> result.value == response
  {
    var body;
    req, body := Set(uri, value, ttl, map["prevExist" := Str("false")], response);
    result := Raise(KeyExists, body);
  }

  /** mkdir: PUT {dir: 'true', ttl?} with prevExist=false; KeyExists on an error code. */
  method Mkdir(uri: string, ttl: Json, response: Json)
    returns (req: Request, result: Result<Json, EtcdError>)
    ensures req.verb == PUT && req.uri == uri && DirForm(req.form, ttl)
    ensures req.query == map["prevExist" := Str("false")]
    ensures RaisedOn(result, KeyExists, response)
    ensures result.Success? ==> result.value == response
  {
    var data: Params := map["dir" := Str("true")];
    if Truthy(ttl) {
      data := data["ttl" := ttl];
    }
    req := Request(PUT, uri, data, map["prevExist" := Str("false")]);
    result := Raise(KeyExists, response);
  }

  /**
   * update: set with array_merge({prevExist: 'true'}, condition), so a prevExist
   * in the caller's condition replaces 'true'; KeyNotFound on an error code.
   */
  method Update(uri: string, value: Json, ttl: Json, condition: Params, response: Json)
    returns (req: Request, result: Result<Json, EtcdError>)
    ensures req.verb == PUT && req.uri == uri && ValueForm(req.form, value, ttl)
    ensures req.query.Keys == {"prevExist"} + condition.Keys
    ensures forall k :: k in condition ==> req.query[k] == condition[k]
    ensures "prevExist" !in condition ==> req.query["prevExist"] == Str("true")
    ensures RaisedOn(result, KeyNotFound, response)
    ensures result.Success? ==> result.value == response
  {
    var extra: Params := map["prevExist" := Str("true")];
    if condition != map[] {
      extra := ArrayMerge(extra, condition);
    }
    var body;
    req, body := Set(uri, value, ttl, extra, response);
    result := Raise(KeyNotFound, body);
  }

  /** The exception updateDir throws, without a request, when the ttl is falsy. */
  const TtlRequired: EtcdError := EtcdError(Generic, Str("TTL is required"), Int(204))

  /**
   * updateDir: a falsy ttl fails with code 204 and sends nothing; otherwise
   * PUT {ttl: intval(ttl)} with dir=true and prevExist=true; EtcdException on an error code.
   */
  method UpdateDir(uri: string, ttl: Json, response: Json)
    returns (sent: Option<Request>, result: Result<Json, EtcdError>)
    ensures !Truthy(ttl) ==> sent == None && result == Failure(TtlRequired)
    ensures Truthy(ttl) ==> sent == Some(Request(PUT, uri, map["ttl" := Int(IntVal(ttl))],
                                                 map["dir" := Str("true"), "prevExist" := Str("true")]))
    ensures Truthy(ttl) ==> RaisedOn(result, Generic, response)
    ensures result.Success? ==> result.value == response
  {
    if !Truthy(ttl) {
      return None, Failure(TtlRequired);
    }
    var condition: Params := map["dir" := Str("true"), "prevExist" := Str("true")];
    sent := Some(Request(PUT, uri, map["ttl" := Int(IntVal(ttl))], condition));
    result := Raise(Generic, response);
  }

  /** rm: DELETE with no query; EtcdException on an error code. */
  method Rm(uri: string, response: Json)
    returns (req: Request, result: Result<Json, EtcdError>)
    ensures req == Request(DELETE, uri, map[], map[])
    ensures RaisedOn(result, Generic, response)
    ensures result.Success? ==> result.value == response
  {
    req := Request(DELETE, uri, map[], map[]);
    result := Raise(Generic, response);
  }

  /** rmdir: DELETE with dir=true, plus recursive=true when the flag is true; EtcdException on an error code. */
  method Rmdir(uri: string, recursive: Json, response: Json)
    returns (req: Request, result: Result<Json, EtcdError>)
    ensures req.verb == DELETE && req.uri == uri && req.form == map[]
    ensures RecursiveQuery(req.query, map["dir" := Str("true")], recursive)
    ensures RaisedOn(result, Generic, response)
    ensures result.Success? ==> result.value == response
  {
    var query: Params := map["dir" := Str("true")];
    if recursive == Bool(true) {
      query := query["recursive" := Str("true")];
    }
    req := Request(DELETE, uri, map[], query);
    result := Raise(Generic, response);
  }

  /** listDir: GET with recursive=true only when the flag is true; KeyNotFound on an error code. */
  method ListDir(uri: string, recursive: Json, response: Json)
    returns (req: Request, result: Result<Json, EtcdError>)
    ensures req.verb == GET && req.uri == uri && req.form == map[]
    ensures RecursiveQuery(req.query, map[], recursive)
    ensures RaisedOn(result, KeyNotFound, response)
    ensures result.Success? ==> result.value == response
  {
    var query: Params := map[];
    if recursive == Bool(true) {
      query := query["recursive" := Str("true")];
    }
    req := Request(GET, uri, map[], query);
    result := Raise(KeyNotFound, response);
  }

  /** mkdirWithInOrderKey: POST {dir: 'true', ttl?} with no query; EtcdException on an error code. */
  method MkdirWithInOrderKey(uri: string, ttl: Json, response: Json)
    returns (req: Request, result: Result<Json, EtcdError>)
    ensures req.verb == POST && req.uri == uri && DirForm(req.form, ttl) && req.query == map[]
    ensures RaisedOn(result, Generic, response)
    ensures result.Success? ==> result.value == response
  {
    var data: Params := map["dir" := Str("true")];
    if Truthy(ttl) {
      data := data["ttl" := ttl];
    }
    req := Request(POST, uri, data, map[]);
    result := Raise(Generic, response);
  }

  /**
   * setWithInOrderKey: POST {value, ttl?} with the caller's condition as query;
   * EtcdException on an error code, and nothing (null) returned otherwise.
   */
  method SetWithInOrderKey(uri: string, value: Json, ttl: Json, condition: Params, response: Json)
    returns (req: Request, result: Result<Json, EtcdError>)
    ensures req.verb == POST && req.uri == uri && req.query == condition
    ensures ValueForm(req.form, value, ttl)
    ensures RaisedOn(result, Generic, response)
    ensures result.Success? ==> result.value == Null
  {
    var data: Params := map["value" := value];
    if Truthy(ttl) {
      data := data["ttl" := ttl];
    }
    req := Request(POST, uri, data, condition);
    if HasError(response) {
      result := Failure(ErrorOf(Generic, response));
    } else {
      result := Success(Null);
    }
  }
}
