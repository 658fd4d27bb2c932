/**
 * GuzzlessClient: an etcd v2 client over an injected HTTP client. It keeps the
 * API version and the root directory that every key is placed under, and the
 * key list and value array the last listing collected.
 */
module GuzzlessClients {
  import opened Wrappers
  import opened PhpStrings
  import opened PhpValues
  import opened KeySpace
  import opened Responses
  import opened Requests
  import opened Flatten

  /** The exception the constructor throws when the HTTP client has no base URI. */
  const BaseUriMissing: EtcdError := EtcdError(Generic, Str("Base URI not set at HTTP Client"), Int(205))

  class GuzzlessClient {
    var apiVersion: string
    var root: string
    var dirs: seq<Json>
    var values: map<ArrayKey, Json>

    /** Both path segments are stored without surrounding slashes. */
    predicate Valid()
      reads this`apiVersion, this`root
    {
      Trimmed(root) && Trimmed(apiVersion)
    }

    constructor (version: string, root: string)
      ensures Valid()
      ensures this.root == Trim(root) && apiVersion == Trim(version)
      ensures dirs == [] && values == map[]
    {
      this.root := Trim(root);
      apiVersion := Trim(version);
      dirs := [];
      values := map[];
    }

    /**
     * new GuzzlessClient($http, $version, $root): fails with code 205 when the
     * HTTP client's base_uri is null.
     */
    static method Create(baseUri: Option<string>, version: string, root: string)
      returns (r: Result<GuzzlessClient, EtcdError>)
      ensures r.Failure? <==> baseUri.None?
      ensures r.Failure? ==> r.error == BaseUriMissing
      ensures r.Success? ==> fresh(r.value) && r.value.Valid()
      ensures r.Success? ==> r.value.root == Trim(root) && r.value.apiVersion == Trim(version)
      ensures r.Success? ==> r.value.dirs == [] && r.value.values == map[]
    {
      if baseUri.None? {
        return Failure(BaseUriMissing);
      }
      var c := new GuzzlessClient(version, root);
      r := Success(c);
    }

    /** setRoot: the root is stored with every leading and trailing '/' removed. */
    method SetRoot(r: string)
      modifies this`root
      ensures root == Trim(r)
      ensures old(Valid()) ==> Valid()
    {
      root := Trim(r);
    }

    /** buildKeyUri: the request path of a key, always under "/<version>/keys/". */
    function KeyUri(key: string): (uri: string)
      reads this`apiVersion, this`root
      requires Valid()
      ensures StartsWith(uri, CollapsePairs(KeysPath(apiVersion)) + "/")
    {
      KeyUriPrefix(apiVersion, root, key);
      BuildKeyUri(apiVersion, root, key)
    }

    /** set($key, ...): the request of set, sent to this client's URI for the key. */
    method Set(key: string, value: Json, ttl: Json, condition: Params, response: Json)
      returns (req: Request, body: Json)
      requires Valid()
      ensures req.verb == PUT && req.uri == KeyUri(key) && req.query == condition
      ensures ValueForm(req.form, value, ttl)
      ensures body == response
    {
      req, body := Requests.Set(KeyUri(key), value, ttl, condition, response);
    }

    /**
     * traversalDir: walks the entries depth first, appending key fields to dirs
     * and storing value fields in values; the result is the key list.
     */
    method TraversalDir(es: seq<Member>) returns (keys: seq<Json>)
      modifies this`dirs, this`values
      ensures Flat(dirs, values) == Walk(es, Flat(old(dirs), old(values)), StrKey(""))
      ensures dirs == old(dirs) + KeyFields(es)
      ensures keys == dirs
      decreases es
    {
      var key: ArrayKey := StrKey("");
      var i := 0;
      while i < |es|
        invariant 0 <= i <= |es|
        invariant Walk(es[i..], Flat(dirs, values), key) == Walk(es, Flat(old(dirs), old(values)), StrKey(""))
        decreases |es| - i
      {
        var m := es[i];
        assert es[i..][0] == m && es[i..][1..] == es[i + 1..];
        match m.val {
          case Array(children) =>
            assert es[i] decreases to children;
            var _ := TraversalDir(children);
          case _ =>
            if IsKeyMember(m) {
              dirs := dirs + [m.val];
              key := ArrayKeyOf(m.val);
            }
            if IsValueMember(m) {
              values := values[key := m.val];
            }
        }
        i := i + 1;
      }
      WalkDirs(es, Flat(old(dirs), old(values)), StrKey(""));
      keys := dirs;
    }

    /**
     * ls: clears dirs and values, lists the key and walks the listing; a
     * KeyNotFound failure leaves both cleared.
     */
    method Ls(key: string, recursive: Json, response: Json)
      returns (req: Request, result: Result<seq<Json>, EtcdError>)
      requires Valid()
      modifies this`dirs, this`values
      ensures req.verb == GET && req.uri == KeyUri(key) && req.form == map[]
      ensures RecursiveQuery(req.query, map[], recursive)
      ensures RaisedOn(result, KeyNotFound, response)
      ensures result.Failure? ==> dirs == [] && values == map[]
      ensures result.Success? ==> Flat(dirs, values) == Listing(response) && result.value == dirs
    {
      values := map[];
      dirs := [];
      var listed;
      req, listed := ListDir(KeyUri(key), recursive, response);
      if listed.Failure? {
        return req, Failure(listed.error);
      }
      var keys := TraversalDir(Body(listed.value));
      result := Success(keys);
    }

    /**
     * getKeysValue: ls, then the value stored under the key when it is set,
     * otherwise the whole value array.
     */
    method GetKeysValue(root: string, recursive: Json, key: Option<string>, response: Json)
      returns (req: Request, result: Result<Selection, EtcdError>)
      requires Valid()
      modifies this`dirs, this`values
      ensures req.verb == GET && req.uri == KeyUri(root) && RecursiveQuery(req.query, map[], recursive)
      ensures RaisedOn(result, KeyNotFound, response)
      ensures result.Failure? ==> dirs == [] && values == map[]
      ensures result.Success? ==> Flat(dirs, values) == Listing(response)
      ensures result.Success? ==> result.value == Select(values, key)
    {
      var listed;
      req, listed := Ls(root, recursive, response);
      if listed.Failure? {
        return req, Failure(listed.error);
      }
      result := Success(Select(values, key));
    }
  }
}
