/**
 * Client: the legacy etcd v2 client that builds its own HTTP client for a
 * server address. It keeps the version as given and the root right-trimmed
 * only; the root is trimmed on both sides when a URI is built.
 */
module Clients {
  import opened Wrappers
  import opened PhpStrings
  import opened PhpValues
  import opened KeySpace
  import opened Responses
  import opened Requests
  import opened Flatten

  /** The server used when none (or a falsy one) is given. */
  const DefaultServer: string := "http://127.0.0.1:2379"

  class Client {
    var server: string
    var apiVersion: string
    var root: string
    var dirs: seq<Json>
    var values: map<ArrayKey, Json>

    /** new Client($server, $options, $version). */
    constructor (server: Option<string>, version: string)
      ensures server.Some? && Truthy(Str(server.value)) ==> this.server == RTrim(server.value)
      ensures !(server.Some? && Truthy(Str(server.value))) ==> this.server == DefaultServer
      ensures NoTrailingSlash(this.server)
      ensures root == "" && apiVersion == version
      ensures dirs == [] && values == map[]
    {
      if server.Some? && Truthy(Str(server.value)) {
        this.server := RTrim(server.value);
      } else {
        this.server := DefaultServer;
      }
      root := "";
      apiVersion := version;
      dirs := [];
      values := map[];
    }

    /** setRoot: only trailing slashes are removed; a leading slash is kept. */
    method SetRoot(r: string)
      modifies this`root
      ensures root == RTrim(r)
      ensures NoTrailingSlash(root)
    {
      root := RTrim(r);
    }

    /** buildKeyUri: the root is trimmed here, and the path is always under "/<version>/keys/". */
    function KeyUri(key: string): (uri: string)
      reads this`apiVersion, this`root
      ensures StartsWith(uri, CollapsePairs(KeysPath(apiVersion)) + "/")
    {
      KeyUriPrefix(apiVersion, Trim(root), key);
      BuildKeyUri(apiVersion, Trim(root), key)
    }

    /** set($key, ...): the request of set, sent to this client's URI for the key. */
    method Set(key: string, value: Json, ttl: Json, condition: Params, response: Json)
      returns (req: Request, body: Json)
      ensures req.verb == PUT && req.uri == KeyUri(key) && req.query == condition
      ensures ValueForm(req.form, value, ttl)
      ensures body == response
    {
      req, body := Requests.Set(KeyUri(key), value, ttl, condition, response);
    }

    /** traversalDir: the same walk as the injected-client variant. */
    method TraversalDir(es: seq<Member>) returns (keys: seq<Json>)
      modifies this`dirs, this`values
      ensures Flat(dirs, values) == Walk(es, Flat(old(dirs), old(values)), StrKey(""))
      ensures dirs == old(dirs) + KeyFields(es)
      ensures keys == dirs
      decreases es
    {
      var key: ArrayKey := StrKey("");
      var i := 0;
      while i < |es|
        invariant 0 <= i <= |es|
        invariant Walk(es[i..], Flat(dirs, values), key) == Walk(es, Flat(old(dirs), old(values)), StrKey(""))
        decreases |es| - i
      {
        var m := es[i];
        assert es[i..][0] == m && es[i..][1..] == es[i + 1..];
        match m.val {
          case Array(children) =>
            assert es[i] decreases to children;
            var _ := TraversalDir(children);
          case _ =>
            if IsKeyMember(m) {
              dirs := dirs + [m.val];
              key := ArrayKeyOf(m.val);
            }
            if IsValueMember(m) {
              values := values[key := m.val];
            }
        }
        i := i + 1;
      }
      WalkDirs(es, Flat(old(dirs), old(values)), StrKey(""));
      keys := dirs;
    }

    /** ls: clears dirs and values, lists the key and walks the listing. */
    method Ls(key: string, recursive: Json, response: Json)
      returns (req: Request, result: Result<seq<Json>, EtcdError>)
      modifies this`dirs, this`values
      ensures req.verb == GET && req.uri == KeyUri(key) && req.form == map[]
      ensures RecursiveQuery(req.query, map[], recursive)
      ensures RaisedOn(result, KeyNotFound, response)
      ensures result.Failure? ==> dirs == [] && values == map[]
      ensures result.Success? ==> Flat(dirs, values) == Listing(response) && result.value == dirs
    {
      values := map[];
      dirs := [];
      var listed;
      req, listed := ListDir(KeyUri(key), recursive, response);
      if listed.Failure? {
        return req, Failure(listed.error);
      }
      var keys := TraversalDir(Body(listed.value));
      result := Success(keys);
    }

    /** getKeysValue: ls, then one stored value or the whole value array. */
    method GetKeysValue(root: string, recursive: Json, key: Option<string>, response: Json)
      returns (req: Request, result: Result<Selection, EtcdError>)
      modifies this`dirs, this`values
      ensures req.verb == GET && req.uri == KeyUri(root) && RecursiveQuery(req.query, map[], recursive)
      ensures RaisedOn(result, KeyNotFound, response)
      ensures result.Failure? ==> dirs == [] && values == map[]
      ensures result.Success? ==> Flat(dirs, values) == Listing(response)
      ensures result.Success? ==> result.value == Select(values, key)
    {
      var listed;
      req, listed := Ls(root, recursive, response);
      if listed.Failure? {
        return req, Failure(listed.error);
      }
      result := Success(Select(values, key));
    }
  }

  /**
   * The two clients agree on URIs: with a trimmed version, the root kept by this
   * client's setRoot(r) yields the same path as the injected client's setRoot(r).
   */
  lemma SameKeyUris(version: string, r: string, key: string)
    requires Trimmed(version)
    ensures BuildKeyUri(version, Trim(RTrim(r)), key) == BuildKeyUri(Trim(version), Trim(r), key)
  {
    TrimAfterRTrim(r);
    TrimPadded([], version, []);
    assert [] + version + [] == version;
  }

  /** setRoot('/linkorb/') keeps '/linkorb', yet the URIs are those of the root 'linkorb'. */
  lemma LeadingSlashRoot(version: string, key: string)
    ensures RTrim("/linkorb/") == "/linkorb"
    ensures BuildKeyUri(version, Trim(RTrim("/linkorb/")), key) == BuildKeyUri(version, Trim(RTrim("linkorb")), key)
  {
    RTrimKeepsLeadingSlash();
    TrimAfterRTrim("/linkorb/");
    TrimAfterRTrim("linkorb");
    TrimDropsLeadingSlash();
    var r := "linkorb";
    assert r[0] == 'l' && r[|r| - 1] == 'b';
    TrimPadded([], r, []);
    assert [] + r + [] == r;
  }
}
