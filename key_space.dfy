/**
 * The key-space URI both clients send requests to:
 * str_replace('//', '/', sprintf('/%s/keys/%s/%s', version, root, trim(key, '/'))).
 */
module KeySpace {
  import opened PhpStrings
  import opened Seqs

  /** The fixed part of the format, "/%s/keys", with the version substituted. */
  function KeysPath(version: string): string {
    "/" + version + "/keys"
  }

  /** The rest of the format, "/%s/%s", with the root and the key substituted. */
  function NodePath(root: string, key: string): string {
    "/" + root + "/" + key
  }

  /** sprintf('/%s/keys/%s/%s', version, root, key). */
  function Format(version: string, root: string, key: string): string {
    KeysPath(version) + NodePath(root, key)
  }

  /** buildKeyUri, given the version and the root exactly as they are substituted. */
  function BuildKeyUri(version: string, root: string, key: string): string {
    CollapsePairs(Format(version, root, Trim(key)))
  }

  /**
   * What follows "/<version>/keys" in a URI: a '/', the collapsed root and a '/'
   * unless the root is empty, and the collapsed key.
   */
  function Tail(root: string, k: string): string {
    if root == [] then "/" + CollapsePairs(k) else "/" + CollapsePairs(root) + "/" + CollapsePairs(k)
  }

  /** For a trimmed root the URI is the collapsed "/<version>/keys" followed by Tail. */
  lemma KeyUriShape(version: string, root: string, key: string)
    requires Trimmed(root)
    ensures BuildKeyUri(version, root, key) == CollapsePairs(KeysPath(version)) + Tail(root, Trim(key))
  {
    FormatShape(version, root, Trim(key));
  }

  lemma FormatShape(version: string, root: string, k: string)
    requires Trimmed(root) && NoLeadingSlash(k)
    ensures CollapsePairs(Format(version, root, k)) == CollapsePairs(KeysPath(version)) + Tail(root, k)
  {
    var p := KeysPath(version);
    assert p[|p| - 1] == 's';
    CollapseAppend(p, NodePath(root, k));
    if root == [] {
      EmptyRootSegment(k);
    } else {
      RootSegment(root, k);
    }
  }

  lemma EmptyRootSegment(k: string)
    ensures CollapsePairs(NodePath([], k)) == "/" + CollapsePairs(k)
  {
    assert NodePath([], k) == "//" + k;
    CollapseSlashSlash(k);
  }

  lemma RootSegment(root: string, k: string)
    requires root != [] && Trimmed(root) && NoLeadingSlash(k)
    ensures CollapsePairs(NodePath(root, k)) == "/" + CollapsePairs(root) + "/" + CollapsePairs(k)
  {
    var t := root + ("/" + k);
    SegmentSplit(root, k);
    CollapseCons('/', t);
    CollapseAppend(root, "/" + k);
    CollapseCons('/', k);
  }

  lemma SegmentSplit(root: string, k: string)
    ensures NodePath(root, k) == ['/'] + (root + ("/" + k))
  {
  }

  /** Every URI starts with the collapsed "/<version>/keys/", whatever the key. */
  lemma KeyUriPrefix(version: string, root: string, key: string)
    requires Trimmed(root)
    ensures StartsWith(BuildKeyUri(version, root, key), CollapsePairs(KeysPath(version)) + "/")
  {
    KeyUriShape(version, root, key);
    PrefixOfJoin(CollapsePairs(KeysPath(version)), Tail(root, Trim(key)));
  }

  lemma PrefixOfJoin(p: string, t: string)
    requires t != [] && t[0] == '/'
    ensures StartsWith(p + t, p + "/")
  {
    assert (p + t)[..|p| + 1] == p + "/";
  }

  /** A non-empty trimmed version without "//" is a clean path segment. */
  predicate CleanSegment(s: string) {
    s != [] && Trimmed(s) && NoDoubleSlash(s)
  }

  /** For a clean version the prefix is literally "/<version>/keys", free of "//". */
  lemma CleanVersionPrefix(version: string)
    requires CleanSegment(version)
    ensures CollapsePairs(KeysPath(version)) == KeysPath(version)
    ensures NoDoubleSlash(KeysPath(version))
  {
    var v := "/" + version;
    NoDoubleSlashAppend("/", version);
    NoDoubleSlashAppend(v, "/keys");
    CollapseClean(KeysPath(version));
  }

  /** For a clean version every URI starts with the literal "/<version>/keys/". */
  lemma CleanVersionKeyUri(version: string, root: string, key: string)
    requires CleanSegment(version) && Trimmed(root)
    ensures StartsWith(BuildKeyUri(version, root, key), KeysPath(version) + "/")
  {
    KeyUriPrefix(version, root, key);
    CleanVersionPrefix(version);
  }

  /** The root part of a URI built from a clean root: "/<root>", or nothing for an empty root. */
  function RootPart(root: string): string {
    if root == [] then "" else "/" + root
  }

  /**
   * With a clean version and a root and trimmed key free of "//", the URI is the
   * plain concatenation and holds no "//".
   */
  lemma KeyUriCanonical(version: string, root: string, key: string)
    requires CleanSegment(version)
    requires Trimmed(root) && NoDoubleSlash(root)
    requires NoDoubleSlash(Trim(key))
    ensures BuildKeyUri(version, root, key) == KeysPath(version) + RootPart(root) + "/" + Trim(key)
    ensures NoDoubleSlash(BuildKeyUri(version, root, key))
  {
    var k := Trim(key);
    var p := KeysPath(version);
    var m := RootPart(root);
    KeyUriShape(version, root, key);
    CleanVersionPrefix(version);
    CleanTail(root, k);
    AppendAssoc(p, m + "/", k);
    AppendAssoc(p, m, "/");
    if root != [] {
      NoDoubleSlashAppend("/", root);
    }
    CleanJoin(p, m, k);
  }

  /** For clean pieces Tail is the plain join. */
  lemma CleanTail(root: string, k: string)
    requires Trimmed(root) && NoDoubleSlash(root) && NoDoubleSlash(k)
    ensures Tail(root, k) == RootPart(root) + "/" + k
  {
    CollapseClean(k);
    if root != [] {
      CollapseClean(root);
    } else {
      assert RootPart(root) + "/" == "/";
    }
  }

  /** Joining "/<version>/keys", the root part and the key with '/' keeps the path free of "//". */
  lemma CleanJoin(p: string, m: string, k: string)
    requires NoDoubleSlash(p) && p != [] && p[|p| - 1] != '/'
    requires m == [] || (m[0] == '/' && NoDoubleSlash(m) && m[|m| - 1] != '/')
    requires NoDoubleSlash(k) && NoLeadingSlash(k)
    ensures NoDoubleSlash(p + m + "/" + k)
  {
    NoDoubleSlashAppend(p, m);
    assert p + m == [] || (p + m)[|p + m| - 1] != '/';
    NoDoubleSlashAppend(p + m, "/");
    NoDoubleSlashAppend(p + m + "/", k);
  }

  /** An empty root puts the key directly under /keys/. */
  lemma EmptyRootUri(version: string, key: string)
    requires CleanSegment(version) && NoDoubleSlash(Trim(key))
    ensures BuildKeyUri(version, "", key) == KeysPath(version) + "/" + Trim(key)
  {
    KeyUriShape(version, "", key);
    CleanVersionPrefix(version);
    CollapseClean(Trim(key));
  }

  /** An empty (or all-slash) key names the root directory, with a trailing '/'. */
  lemma EmptyKeyUri(version: string, root: string, key: string)
    requires CleanSegment(version) && CleanSegment(root) && AllSlashes(key)
    ensures BuildKeyUri(version, root, key) == KeysPath(version) + "/" + root + "/"
  {
    AllSlashesRTrim(key);
    assert Trim(key) == [];
    KeyUriCanonical(version, root, key);
    RootJoin(KeysPath(version), root);
  }

  lemma RootJoin(p: string, root: string)
    requires root != []
    ensures p + RootPart(root) + "/" + [] == p + "/" + root + "/"
  {
  }
}
