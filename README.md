# etcd v2 key-space client, modelled in Dafny

This project models the key-space core of the etcd-php client library: the two
client classes `GuzzlessClient` (built around an injected HTTP client) and the
legacy `Client` (which builds its own). Both turn a key and the client's root
directory into a request URI under `/<version>/keys/`. They send one request
(method, form body, query) per key-space operation. They turn an `errorCode` in
the decoded response into an exception of the kind the operation names. `ls`
walks a directory listing depth first and fills two fields: the key list `dirs`
and the key => value array `values`.

Layout:

- `wrappers.dfy`: `Option` and `Result`.
- `php_strings.dfy`: the PHP string functions used by the URI code.
  - `trim`, `ltrim` and `rtrim` with `'/'`.
  - `str_replace('//', '/', …)`, a single left-to-right pass (`CollapsePairs`).
- `php_numbers.dfy`: decimal text, `intval` on strings (64-bit, saturating), and the integer-string rule for array keys.
- `php_values.dfy`: a decoded JSON body (`Json`).
  - PHP truthiness and `intval`.
  - Array-key coercion and `isset`/lookup on a body.
  - The PHP 8 comparison `$v != '/'`.
- `responses.dfy`: the error mapping (`RaisedOn`, `Raise`).
- `key_space.dfy`: `buildKeyUri`, with its prefix, canonical-form and empty-root/empty-key lemmas.
- `requests.dfy`: every operation, as a method.
  - The method takes the URI built for the key and the decoded response the transport returned.
  - It returns the request it sends and the outcome, an exception or a value.
  - The builders of the two classes are identical (src/Client.php:86-452 repeats src/GuzzlessClient.php:126-462), so they are written once.
- `flatten.dfy`: the traversal as a function (`Walk`), its reference definition of the key list, and the selection `getKeysValue` makes.
- `nodes.dfy`: etcd's node tree and a JSON encoding of it (`Encode`). It proves what the walk collects from a listing response laid out as `Encode` gives it.
- `guzzless_client.dfy` and `client.dfy`: the two classes.
  - Fields, constructor and `setRoot`.
  - `KeyUri`: `buildKeyUri` over the fields.
  - `TraversalDir`: a `while` loop that recurses into nested arrays.
  - `Ls` and `GetKeysValue`, which reset and fill `dirs`/`values`.

The HTTP exchange is a parameter. Each operation receives the decoded body as `response`.

`update` calls `array_merge($extra, $condition)` (src/GuzzlessClient.php:232-236), so a caller's `prevExist` replaces `'true'`. `Requests.Update` states that every caller key wins.

## Model

| member | source | states |
|---|---|---|
| PhpStrings.Trim | src/GuzzlessClient.php:88 | the stored root has no leading and no trailing '/' and is no longer than the argument |
| PhpStrings.TrimSplits | src/GuzzlessClient.php:88 | trim removes only slashes: the argument is a run of slashes, the result, and a run of slashes |
| PhpStrings.TrimPadded | src/GuzzlessClient.php:88 | conversely, padding a trimmed string with slashes on both sides and trimming gives it back |
| PhpStrings.TrimIdempotent | src/GuzzlessClient.php:86-90 | setting the root to the stored root changes nothing |
| PhpStrings.TrimExamples | tests/GuzzlessClientTest.php:60-67 | setRoot('/') and setRoot('//') store '', setRoot('/test/') stores 'test' |
| PhpStrings.RTrim | src/Client.php:52 | the legacy root has no trailing '/' and is no longer than the argument |
| PhpStrings.RTrimParts | src/Client.php:52 | rtrim keeps a prefix of the argument and cuts only slashes |
| PhpStrings.LTrim | src/GuzzlessClient.php:88 | ltrim leaves no leading '/' and is no longer than the argument |
| PhpStrings.LTrimParts | src/GuzzlessClient.php:88 | ltrim keeps a suffix of the argument and cuts only slashes |
| PhpStrings.RTrimKeepsLeadingSlash | src/Client.php:50-54 | the legacy setRoot('/linkorb/') stores '/linkorb' with its leading slash |
| PhpStrings.TrimDropsLeadingSlash | src/Client.php:63 | trim('/linkorb/') is 'linkorb' |
| PhpStrings.TrimAfterRTrim | src/Client.php:50-64 | trimming the right-trimmed root equals trimming the original root |
| PhpStrings.CollapsePairs | src/GuzzlessClient.php:99-101 | the '//' replacement never lengthens the path |
| PhpStrings.CollapseClean | src/GuzzlessClient.php:99-108 | on a path without '//' the replacement is the identity |
| PhpStrings.CollapseAppend | src/GuzzlessClient.php:99-108 | the replacement distributes over a concatenation when no '//' straddles the seam |
| PhpStrings.CollapseLeavesTriple | src/GuzzlessClient.php:99-101 | a single pass turns '///' into '//', not '/' |
| PhpNumbers.StringToInt | src/GuzzlessClient.php:267 | intval of a string is always within the 64-bit range |
| PhpNumbers.StringToIntRoundTrip | src/GuzzlessClient.php:267 | intval reads every 64-bit integer back from its decimal text |
| PhpNumbers.CanonicalRoundTrip | src/GuzzlessClient.php:385 | the text of every integer is a canonical integer string and reads back as that integer |
| PhpValues.IntVal | src/GuzzlessClient.php:267 | intval of a string is the string reading, of an integer the integer itself |
| PhpValues.ArrayKeyOf | src/GuzzlessClient.php:385 | a value used as an array key: etcd keys (leading '/') and non-integer strings stay strings, integers stay integers, null becomes '' |
| PhpValues.IntegerStringKey | src/GuzzlessClient.php:385 | a string spelling a 64-bit integer becomes that integer key |
| PhpValues.Truthy | src/GuzzlessClient.php:130-132 | PHP truthiness: null, false, 0, '', '0' and the empty array are falsy |
| PhpValues.LooselyEqualsSlash | src/GuzzlessClient.php:379 | the PHP 8 comparison with '/': true for the string '/' and for true |
| PhpValues.Find | src/GuzzlessClient.php:159-162 | the first member under the key, or none exactly when no member has it |
| PhpValues.Lookup | src/GuzzlessClient.php:159-162 | $body['name'] is the first such member's value, and null for a missing member or a non-array body |
| Responses.HasError | src/GuzzlessClient.php:159 | isset($body['errorCode']): the member is present and not null |
| Responses.ErrorOf | src/GuzzlessClient.php:159-161 | the exception carries the operation's kind, $body['message'] and $body['errorCode'] |
| Responses.Raise | src/GuzzlessClient.php:284-291 | fails exactly when isset(errorCode), with the body's message and code, and otherwise returns the body |
| KeySpace.BuildKeyUri | src/GuzzlessClient.php:97-109 | the '//' replacement of the formatted "/<version>/keys/<root>/<trimmed key>" |
| KeySpace.KeyUriShape | src/GuzzlessClient.php:97-109 | the URI is the collapsed "/<version>/keys" followed by '/', the collapsed root and '/' unless the root is empty, and the collapsed key |
| KeySpace.KeyUriPrefix | src/GuzzlessClient.php:97-109 | every URI starts with the collapsed "/<version>/keys/" |
| KeySpace.CleanVersionPrefix | src/GuzzlessClient.php:102-105 | for a clean version the collapsed prefix is literally "/<version>/keys" and has no '//' |
| KeySpace.CleanVersionKeyUri | src/GuzzlessClient.php:97-109 | for a non-empty trimmed version without '//', every URI starts with "/<version>/keys/" |
| KeySpace.KeyUriCanonical | src/GuzzlessClient.php:99-108 | with a clean version and a root and trimmed key without '//', the URI is "/<version>/keys", then "/<root>" unless the root is empty, then '/' and the trimmed key, and it holds no '//' |
| KeySpace.EmptyRootUri | src/GuzzlessClient.php:99-108 | an empty root puts the key directly under "/<version>/keys/" |
| KeySpace.EmptyKeyUri | src/GuzzlessClient.php:99-108 | an empty or all-slash key names the root directory "/<version>/keys/<root>/" |
| Requests.ArrayMerge | src/GuzzlessClient.php:235 | array_merge on string keys: all keys of both, the second array's value winning |
| Requests.Set | src/GuzzlessClient.php:126-142 | PUT with the caller's condition as query, {value, ttl only if truthy} as body, and the body returned whether or not it reports an error |
| Requests.GetNode | src/GuzzlessClient.php:147-163 | GET with the flags as query; KeyNotFound exactly when errorCode is set, else $body['node'] |
| Requests.Get | src/GuzzlessClient.php:168-172 | the 'value' member of the node getNode returns, with getNode's KeyNotFound |
| Requests.Mk | src/GuzzlessClient.php:183-197 | a set with query {prevExist: 'false'}; KeyExists exactly when errorCode is set |
| Requests.Mkdir | src/GuzzlessClient.php:202-224 | PUT {dir: 'true', ttl only if truthy} with query {prevExist: 'false'}; KeyExists exactly when errorCode is set |
| Requests.Update | src/GuzzlessClient.php:230-242 | a set whose query has prevExist plus the caller's keys, each caller value winning, prevExist 'true' otherwise; KeyNotFound exactly when errorCode is set |
| Requests.UpdateDir | src/GuzzlessClient.php:251-276 | a falsy ttl fails with 'TTL is required' / 204 and sends nothing; otherwise PUT {ttl: intval(ttl)} with {dir, prevExist} = 'true'; EtcdException on errorCode |
| Requests.Rm | src/GuzzlessClient.php:282-292 | DELETE with no query; EtcdException exactly when errorCode is set |
| Requests.Rmdir | src/GuzzlessClient.php:301-320 | DELETE with dir='true', recursive='true' present exactly when the flag is identical to true; EtcdException on errorCode |
| Requests.ListDir | src/GuzzlessClient.php:325-343 | GET whose query is empty or {recursive: 'true'}, the latter exactly when the flag is identical to true; KeyNotFound on errorCode |
| Requests.MkdirWithInOrderKey | src/GuzzlessClient.php:412-434 | POST {dir: 'true', ttl only if truthy} with no query; EtcdException on errorCode |
| Requests.SetWithInOrderKey | src/GuzzlessClient.php:445-462 | POST {value, ttl only if truthy} with the caller's condition; EtcdException on errorCode, nothing returned otherwise |
| Flatten.KeyFields | src/GuzzlessClient.php:379-381 | every recorded key is a scalar that is not loosely equal to '/' |
| Flatten.WalkDirs | src/GuzzlessClient.php:372-390 | the key list only grows, by exactly the key fields of the listing in depth-first document order |
| Flatten.WalkValueKeys | src/GuzzlessClient.php:383-385 | no stored slot disappears (a later value may overwrite it), and each new slot is '', the key current at the start of the level, or a recorded key |
| Flatten.WalkAppend | src/GuzzlessClient.php:374-389 | walking two runs of entries is walking the first, then the second from the key current after the first |
| Flatten.WalkStoresValue | src/GuzzlessClient.php:383-385 | each value member is stored under the key current at its position: the last key member before it at its level, or the level's starting key |
| Flatten.CurrentKey | src/GuzzlessClient.php:374-381 | the key current after a run of entries: the last key member at that level, nested arrays leaving it unchanged |
| Flatten.Walk | src/GuzzlessClient.php:372-390 | the traversal as a function: nested arrays walked first with key '', scalars applied in order |
| Flatten.Step | src/GuzzlessClient.php:379-385 | one scalar member: a key member is appended to the key list, a value member stored under the current key |
| Flatten.NextKey | src/GuzzlessClient.php:379-381 | a key member becomes the current key; any other member leaves it |
| Flatten.Listing | src/GuzzlessClient.php:363-364 | what ls leaves: the walk of the listing body from empty fields and key '' |
| Flatten.Select | src/GuzzlessClient.php:398-401 | one value exactly when isset($values[$key]) (null asks for ''), else the whole array |
| Nodes.StoreFinds | src/GuzzlessClient.php:383-385 | when the leaves have distinct keys, each leaf's value is stored under its own key |
| Nodes.StoreSlots | src/GuzzlessClient.php:383-385 | the stored keys are the earlier ones plus the keys of the leaves walked |
| Nodes.EncodeWalk | src/GuzzlessClient.php:372-390 | walking an encoded etcd node collects its non-'/' keys in preorder and stores each leaf's value under its key |
| Nodes.EncodeAllWalk | src/GuzzlessClient.php:372-390 | the same for the "nodes" list of a directory, whatever key was current before |
| Nodes.ListingOfTree | src/GuzzlessClient.php:352-365 | ls on {"action", "node"} leaves exactly the tree's keys in preorder and its leaves' values |
| Nodes.KeysValueOfLeaf | src/GuzzlessClient.php:395-402 | getKeysValue of a leaf's key (other than '/') returns that leaf's value, when leaf keys are distinct |
| Nodes.KeysValueOfMissing | src/GuzzlessClient.php:395-402 | getKeysValue of a key no leaf is stored under returns the whole value array |
| GuzzlessClients.GuzzlessClient.constructor | src/GuzzlessClient.php:59-66 | the root and the version are stored trimmed of '/', and the listing fields start empty |
| GuzzlessClients.GuzzlessClient.Create | src/GuzzlessClient.php:59-71 | construction fails with 'Base URI not set at HTTP Client' / 205 exactly when the HTTP client has no base URI |
| GuzzlessClients.GuzzlessClient.SetRoot | src/GuzzlessClient.php:86-90 | the root becomes trim(r, '/'), and the client stays valid |
| GuzzlessClients.GuzzlessClient.KeyUri | src/GuzzlessClient.php:97-109 | every key's URI starts with the collapsed "/<version>/keys/" |
| GuzzlessClients.GuzzlessClient.Set | src/GuzzlessClient.php:126-142 | set($key, …) sends its PUT to buildKeyUri($key), with the caller's condition as query and {value, ttl only if truthy} as body, and returns the body |
| GuzzlessClients.GuzzlessClient.TraversalDir | src/GuzzlessClient.php:372-390 | the loop leaves dirs and values as the walk specifies, the old key list extended by the key fields, and returns dirs |
| GuzzlessClients.GuzzlessClient.Ls | src/GuzzlessClient.php:352-365 | lists the key's URI; on KeyNotFound both fields are left empty, otherwise they hold the listing's walk and the key list is returned |
| GuzzlessClients.GuzzlessClient.GetKeysValue | src/GuzzlessClient.php:395-402 | ls of the root, then the selection of the key from the new value array |
| Clients.Client.constructor | src/Client.php:25-35 | the server is the right-trimmed argument when truthy, else http://127.0.0.1:2379, with no trailing '/'; the root is '' and the version is kept as given |
| Clients.Client.SetRoot | src/Client.php:50-54 | the root becomes rtrim(r, '/') |
| Clients.Client.KeyUri | src/Client.php:61-64 | the URI uses the trimmed root and starts with the collapsed "/<version>/keys/" |
| Clients.Client.Set | src/Client.php:86-102 | set($key, …) sends its PUT to buildKeyUri($key), with the caller's condition as query and {value, ttl only if truthy} as body, and returns the body |
| Clients.Client.TraversalDir | src/Client.php:360-378 | the same loop and postcondition as the injected client's |
| Clients.Client.Ls | src/Client.php:340-353 | the same reset, listing and walk as the injected client's |
| Clients.Client.GetKeysValue | src/Client.php:387-394 | the same selection after ls |
| Clients.SameKeyUris | src/Client.php:50-64 | with a trimmed version both clients build the same URI after setRoot(r) |
| Clients.LeadingSlashRoot | src/Client.php:50-64 | setRoot('/linkorb/') stores '/linkorb', yet builds the URIs of root 'linkorb' |

## Left out

- The HTTP transport is not modelled: Guzzle's `request`/`get`/`put`/`post`/`delete`, the headers (`getHeaders`) and transport errors. Each operation takes the decoded response body as a parameter instead.
- `doRequest` is not modelled. It only passes the raw body through.
- `json_decode` is not modelled: the body is given already decoded as `Json`. Floating-point JSON numbers are left out.
- `http_build_query` is not modelled: form bodies and queries are maps of parameters. Their order and their URL encoding are therefore not modelled.
- The legacy constructor's Guzzle client is not modelled. That covers the `$options` merge (`array_replace_recursive`) and `http_errors => false`. Only the stored server address is modelled.
- GuzzlessClients.GuzzlessClient.Create: the HTTP client is reduced to its `base_uri` setting, given as an optional string.
- `setRoot` returns `$this` for chaining. The returned object is not modelled.
- PHP arrays are ordered, but `values` is a map, so the order of its entries is not modelled.
- A dirs or values slot that PHP leaves `null` before the first `ls` starts here as an empty list or map. Client's fields are private (src/Client.php:22-23) and GuzzlessClient's protected (src/GuzzlessClient.php:45-50); neither class reads them before `ls` resets them.
- Subclasses of GuzzlessClient are not modelled. One could read or write `dirs`/`values` directly, and could see them `null` before the first `ls`.
- Requests.ArrayMerge: names are taken as plain string keys. PHP turns an integer-like name such as `'5'` into an integer key, and `array_merge` renumbers integer keys from 0 and appends them instead of overwriting. That renumbering is not modelled.
- Requests.Update: for the same reason, the promise that every caller key wins holds only for names that are not integer-like. PHP sends `update(k, v, 0, ['5' => 'x'])` with the query `{prevExist: 'true', 0: 'x'}`.
- The decoded body `Json` allows an array with two members under the same key, which `json_decode` never produces (it keeps the last). `Find`/`Lookup` read the first. The lemmas hold for all `Json` values, so they cover every decoded body.
- Clients.Client.Ls: a response body that is not an array (`null`, a string or a number) walks as an empty listing. In PHP, `new RecursiveArrayIterator` throws a TypeError for it (src/Client.php:351).
- GuzzlessClients.GuzzlessClient.Ls: the same, where PHP throws a TypeError at src/GuzzlessClient.php:363.
- Clients.Client.GetKeysValue: through `Ls`, a non-array body gives `Whole(map[])` where PHP throws a TypeError.
- GuzzlessClients.GuzzlessClient.GetKeysValue: the same as for the legacy client.
- Responses.ErrorOf: the message and the code are kept as the body gives them. The exception classes are not part of this model. Through PHP's `Exception(string, int)` constructor a numeric-string or boolean code would become an integer and a null message ''. An array message or a non-numeric code would throw a TypeError instead of the typed exception.
- Nodes.Encode: one layout of a node only. `key` comes first, a directory always has `nodes`, and `ttl`/`expiration` members are absent. etcd omits `nodes` for an empty directory and adds `ttl`/`expiration` to expiring nodes. The walk ignores such members (`Nodes.OtherField`), but the listing lemmas are not stated for those layouts.
- PhpValues.Lookup: reading a named offset of a string body gives null. PHP either warns or throws there, depending on the version.
- PhpValues.IntVal: strings in exponent form (`'1e3'`) and numeric strings with trailing whitespace are read only up to their leading digits.
- Comparisons follow PHP 8. PHP 7's `0 == 'key'` would also treat an integer key 0 as the field `key`.
- `RecursiveArrayIterator::hasChildren` is also true for objects. `json_decode($…, true)` produces none, so only arrays nest.
- Concurrency: no two calls share the `dirs`/`values` fields at the same time.
- The interface file src/Interfaces/EtcdClientInterface.php is not part of this model. It declares signatures only.
- The `buildKeyUri` examples with concrete strings (for example version `v2`, empty root, key `a`) are stated by the general lemmas `KeySpace.EmptyRootUri` and `KeySpace.EmptyKeyUri`. Concrete-literal instances of them are not stated.
