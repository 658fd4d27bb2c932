/**
 * The PHP string built-ins the key-space clients use on paths:
 * trim/ltrim/rtrim with the character list '/', and str_replace('//', '/', ...).
 */
module PhpStrings {
  import opened Seqs

  predicate NoLeadingSlash(s: string) {
    s == [] || s[0] != '/'
  }

  predicate NoTrailingSlash(s: string) {
    s == [] || s[|s| - 1] != '/'
  }

  /** Neither begins nor ends with '/': what trim($s, '/') produces. */
  predicate Trimmed(s: string) {
    NoLeadingSlash(s) && NoTrailingSlash(s)
  }

  predicate AllSlashes(s: string) {
    forall i :: 0 <= i < |s| ==> s[i] == '/'
  }

  /** No two consecutive '/' characters. */
  predicate NoDoubleSlash(s: string) {
    |s| < 2 || (!(s[0] == '/' && s[1] == '/') && NoDoubleSlash(s[1..]))
  }

  predicate StartsWith(s: string, prefix: string) {
    |prefix| <= |s| && s[..|prefix|] == prefix
  }

  /** rtrim($s, '/'): drops every trailing '/'. */
  function RTrim(s: string): (r: string)
    ensures NoTrailingSlash(r) && |r| <= |s|
  {
    if s != [] && s[|s| - 1] == '/' then RTrim(s[..|s| - 1]) else s
  }

  /** ltrim($s, '/'): drops every leading '/'. */
  function LTrim(s: string): (r: string)
    ensures NoLeadingSlash(r) && |r| <= |s|
  {
    if s != [] && s[0] == '/' then LTrim(s[1..]) else s
  }

  /** rtrim removes exactly a run of slashes from the end. */
  lemma {:induction false} RTrimParts(s: string)
    ensures RTrim(s) == s[..|RTrim(s)|] && AllSlashes(s[|RTrim(s)|..])
  {
    if s != [] && s[|s| - 1] == '/' {
      var t := s[..|s| - 1];
      RTrimParts(t);
      assert s[|RTrim(s)|..] == t[|RTrim(t)|..] + ['/'];
    }
  }

  /** ltrim removes exactly a run of slashes from the start. */
  lemma {:induction false} LTrimParts(s: string)
    ensures LTrim(s) == s[|s| - |LTrim(s)|..] && AllSlashes(s[..|s| - |LTrim(s)|])
  {
    if s != [] && s[0] == '/' {
      var t := s[1..];
      LTrimParts(t);
      assert s[..|s| - |LTrim(s)|] == ['/'] + t[..|t| - |LTrim(t)|];
    }
  }

  /** ltrim keeps the last character of a string that does not end in '/'. */
  lemma LTrimKeepsEnd(m: string)
    requires NoTrailingSlash(m)
    ensures NoTrailingSlash(LTrim(m))
  {
    LTrimParts(m);
  }

  /** trim($s, '/'): the part of s between its leading and its trailing run of '/'. */
  function Trim(s: string): (r: string)
    ensures Trimmed(r)
    ensures |r| <= |s|
  {
    LTrimKeepsEnd(RTrim(s));
    LTrim(RTrim(s))
  }

  /** Every string is its trimmed part padded with slashes on both sides. */
  lemma TrimSplits(s: string) returns (p: string, q: string)
    ensures AllSlashes(p) && AllSlashes(q)
    ensures s == p + Trim(s) + q
  {
    var m := RTrim(s);
    var r := LTrim(m);
    RTrimParts(s);
    LTrimParts(m);
    p, q := m[..|m| - |r|], s[|m|..];
    assert m == p + r;
    assert s == m + q;
  }

  /** Trim recovers the middle of any slash-padded trimmed string. */
  lemma {:induction false} TrimPadded(p: string, r: string, q: string)
    requires AllSlashes(p) && AllSlashes(q) && Trimmed(r)
    ensures Trim(p + r + q) == r
  {
    if r == [] {
      assert p + r + q == p + q;
      AllSlashesRTrim(p + q);
    } else {
      assert p + r + q == (p + r) + q;
      RTrimPadded(p + r, q);
      LTrimPadded(p, r);
    }
  }

  lemma AllSlashesRTrim(s: string)
    requires AllSlashes(s)
    ensures RTrim(s) == []
  {
  }

  lemma {:induction false} RTrimPadded(m: string, q: string)
    requires AllSlashes(q) && NoTrailingSlash(m)
    ensures RTrim(m + q) == m
  {
    if q != [] {
      assert (m + q)[..|m + q| - 1] == m + q[..|q| - 1];
      RTrimPadded(m, q[..|q| - 1]);
    } else {
      assert m + q == m;
    }
  }

  lemma {:induction false} LTrimPadded(p: string, r: string)
    requires AllSlashes(p) && NoLeadingSlash(r)
    ensures LTrim(p + r) == r
  {
    if p != [] {
      assert (p + r)[1..] == p[1..] + r;
      LTrimPadded(p[1..], r);
    } else {
      assert p + r == r;
    }
  }

  /** Trimming twice changes nothing. */
  lemma TrimIdempotent(s: string)
    ensures Trim(Trim(s)) == Trim(s)
  {
    var r := Trim(s);
    TrimPadded([], r, []);
    assert [] + r + [] == r;
  }

  /** trim after rtrim is trim: the legacy client's root is trimmed again when a URI is built. */
  lemma TrimAfterRTrim(s: string)
    ensures Trim(RTrim(s)) == Trim(s)
  {
    var p, q := TrimSplits(s);
    var r := Trim(s);
    var m := RTrim(s);
    if r == [] {
      assert s == p + q;
      AllSlashesRTrim(s);
      assert m == [];
      TrimPadded([], [], []);
    } else {
      assert s == (p + r) + q;
      RTrimPadded(p + r, q);
      TrimPadded(p, r, []);
      assert p + r + [] == p + r;
    }
  }

  /** The cases of the setRoot test of the Guzzle-injected client. */
  lemma TrimExamples()
    ensures Trim("/") == "" && Trim("//") == ""
    ensures Trim("/test/") == "test"
  {
    AllSlashesRTrim("/");
    AllSlashesRTrim("//");
    TrimPadded("/", "test", "/");
    assert "/" + "test" + "/" == "/test/";
  }

  /** rtrim keeps a leading slash that trim drops. */
  lemma RTrimKeepsLeadingSlash()
    ensures RTrim("/linkorb/") == "/linkorb"
  {
    var m := "/linkorb";
    assert m[|m| - 1] == 'b';
    assert m + "/" == "/linkorb/";
    RTrimPadded(m, "/");
  }

  lemma TrimDropsLeadingSlash()
    ensures Trim("/linkorb/") == "linkorb"
  {
    var r := "linkorb";
    assert r[0] == 'l' && r[|r| - 1] == 'b';
    assert "/" + r + "/" == "/linkorb/";
    TrimPadded("/", r, "/");
  }

  /**
   * str_replace('//', '/', s): one left-to-right pass that replaces each
   * non-overlapping "//" by "/". It does not collapse longer runs completely:
   * "///" becomes "//".
   */
  function CollapsePairs(s: string): (r: string)
    ensures |r| <= |s|
  {
    if |s| < 2 then s
    else if s[0] == '/' && s[1] == '/' then ['/'] + CollapsePairs(s[2..])
    else [s[0]] + CollapsePairs(s[1..])
  }

  /** On a string without "//" the replacement is the identity. */
  lemma {:induction false} CollapseClean(s: string)
    requires NoDoubleSlash(s)
    ensures CollapsePairs(s) == s
  {
    if |s| >= 2 {
      CollapseClean(s[1..]);
      CollapseCons(s[0], s[1..]);
      assert s == [s[0]] + s[1..];
    }
  }

  /** The replacement distributes over a concatenation when no "//" straddles the seam. */
  lemma {:induction false} CollapseAppend(p: string, q: string)
    requires p == [] || q == [] || p[|p| - 1] != '/' || q[0] != '/'
    ensures CollapsePairs(p + q) == CollapsePairs(p) + CollapsePairs(q)
    decreases |p|, 1
  {
    if p == [] {
      assert p + q == q;
    } else if |p| >= 2 && p[0] == '/' && p[1] == '/' {
      CollapseAppendPair(p, q);
    } else {
      CollapseAppendCons(p, q);
    }
  }

  lemma {:induction false} CollapseAppendPair(p: string, q: string)
    requires |p| >= 2 && p[0] == '/' && p[1] == '/'
    requires q == [] || p[|p| - 1] != '/' || q[0] != '/'
    ensures CollapsePairs(p + q) == CollapsePairs(p) + CollapsePairs(q)
    decreases |p|, 0
  {
    var t := p[2..];
    PairSplit(p, q);
    CollapseAppend(t, q);
    CollapseSlashSlash(t + q);
    CollapseSlashSlash(t);
    AppendAssoc("/", CollapsePairs(t), CollapsePairs(q));
  }

  lemma PairSplit(p: string, q: string)
    requires |p| >= 2 && p[0] == '/' && p[1] == '/'
    ensures p == "//" + p[2..] && p + q == "//" + (p[2..] + q)
  {
  }

  lemma {:induction false} CollapseAppendCons(p: string, q: string)
    requires p != [] && !(|p| >= 2 && p[0] == '/' && p[1] == '/')
    requires q == [] || p[|p| - 1] != '/' || q[0] != '/'
    ensures CollapsePairs(p + q) == CollapsePairs(p) + CollapsePairs(q)
    decreases |p|, 0
  {
    var t := p[1..];
    ConsSplit(p, q);
    CollapseAppend(t, q);
    CollapseCons(p[0], t + q);
    CollapseCons(p[0], t);
    AppendAssoc([p[0]], CollapsePairs(t), CollapsePairs(q));
  }

  /** Splitting off the first character of p, which does not start a "//" in p + q. */
  lemma ConsSplit(p: string, q: string)
    requires p != [] && !(|p| >= 2 && p[0] == '/' && p[1] == '/')
    requires q == [] || p[|p| - 1] != '/' || q[0] != '/'
    ensures p == [p[0]] + p[1..] && p + q == [p[0]] + (p[1..] + q)
    ensures p[0] != '/' || p[1..] + q == [] || (p[1..] + q)[0] != '/'
  {
    if |p| == 1 {
      assert p[1..] + q == q;
    } else {
      assert (p[1..] + q)[0] == p[1];
    }
  }

  lemma CollapseSlashSlash(s: string)
    ensures CollapsePairs("//" + s) == "/" + CollapsePairs(s)
  {
    assert ("//" + s)[2..] == s;
  }

  lemma CollapseCons(c: char, s: string)
    requires c != '/' || s == [] || s[0] != '/'
    ensures CollapsePairs([c] + s) == [c] + CollapsePairs(s)
  {
    assert ([c] + s)[1..] == s;
  }

  /** A single pass leaves a run of three slashes doubled. */
  lemma CollapseLeavesTriple()
    ensures CollapsePairs("///") == "//"
  {
    assert "///"[2..] == "/";
    assert "/"[1..] == "";
  }

  lemma {:induction false} NoDoubleSlashAppend(a: string, b: string)
    requires NoDoubleSlash(a) && NoDoubleSlash(b)
    requires a == [] || b == [] || a[|a| - 1] != '/' || b[0] != '/'
    ensures NoDoubleSlash(a + b)
  {
    if a == [] {
      assert a + b == b;
    } else {
      assert (a + b)[1..] == a[1..] + b;
      NoDoubleSlashAppend(a[1..], b);
      if |a| == 1 && b != [] {
        assert (a + b)[1] == b[0];
      }
    }
  }
}
