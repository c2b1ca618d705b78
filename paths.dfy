/**
  Vault paths are '/'-separated strings. This module gives the segment view of a
  path (Split), its parent folder and leaf name, and the folder prefixes that must
  exist as folders for the path to be stored.
*/
module Paths {

  /** The position of the first '/' in `s`. */
  function FirstSlash(s: string): (i: nat)
    requires '/' in s
    ensures i < |s| && s[i] == '/' && '/' !in s[..i]
  {
    if s[0] == '/' then 0 else 1 + FirstSlash(s[1..])
  }

  /** The position of the last '/' in `s`. */
  function LastSlash(s: string): (i: nat)
    requires '/' in s
    ensures i < |s| && s[i] == '/' && '/' !in s[i + 1..]
    decreases |s|
  {
    if s[|s| - 1] == '/' then |s| - 1
    else
      assert '/' in s[..|s| - 1] by {
        var k :| 0 <= k < |s| && s[k] == '/';
        assert s[..|s| - 1][k] == '/';
      }
      LastSlash(s[..|s| - 1])
  }

  /** The segments of `s` between separators, as `s.split('/')` gives them. */
  function Split(s: string): (parts: seq<string>)
    ensures |parts| >= 1
    ensures forall k :: 0 <= k < |parts| ==> '/' !in parts[k]
    decreases |s|
  {
    if '/' !in s then [s]
    else
      var i := FirstSlash(s);
      [s[..i]] + Split(s[i + 1..])
  }

  /** A '/' with none before it is the first one. */
  lemma FirstSlashAt(s: string, i: nat)
    requires i < |s| && s[i] == '/' && '/' !in s[..i]
    ensures FirstSlash(s) == i
  {
  }

  /** The first segment of a path with a separator comes before the first '/'. */
  lemma SplitHead(s: string)
    requires '/' in s
    ensures Split(s) == [s[..FirstSlash(s)]] + Split(s[FirstSlash(s) + 1..])
  {
  }

  /** Splitting `a/b` when `a` has no separator: `a` is the first segment. */
  lemma SplitJoinFirst(a: string, b: string)
    requires '/' !in a
    ensures Split(a + "/" + b) == [a] + Split(b)
  {
    var s := a + "/" + b;
    assert s[..|a|] == a;
    FirstSlashAt(s, |a|);
    assert s[|a| + 1..] == b;
  }

  /** Splitting `a/b` when `a` has a separator: the first segment of `a` comes off. */
  lemma SplitJoinHead(a: string, b: string)
    requires '/' in a
    ensures Split(a + "/" + b) == [a[..FirstSlash(a)]] + Split(a[FirstSlash(a) + 1..] + "/" + b)
  {
    var s := a + "/" + b;
    var i := FirstSlash(a);
    assert s[..i] == a[..i];
    FirstSlashAt(s, i);
    assert s[i + 1..] == a[i + 1..] + "/" + b;
  }

  /**
    Concatenation is associative. Dafny knows this, but stating it as a lemma
    lets SplitJoinStep and FolderSegments use it without the solver proving it
    element by element, which keeps those proofs well inside the resource limit.
  */
  lemma AppendAssoc<T>(x: seq<T>, y: seq<T>, z: seq<T>)
    ensures (x + y) + z == x + (y + z)
  {
  }

  /** Joining two paths with one separator concatenates their segments. */
  lemma {:induction false} SplitJoin(a: string, b: string)
    ensures Split(a + "/" + b) == Split(a) + Split(b)
    decreases |a|
  {
    if '/' !in a {
      SplitJoinFirst(a, b);
    } else {
      SplitJoin(a[FirstSlash(a) + 1..], b);
      SplitJoinStep(a, b);
    }
  }

  /** The inductive step of SplitJoin: from the rest of `a` to the whole of it. */
  lemma SplitJoinStep(a: string, b: string)
    requires '/' in a
    requires Split(a[FirstSlash(a) + 1..] + "/" + b) == Split(a[FirstSlash(a) + 1..]) + Split(b)
    ensures Split(a + "/" + b) == Split(a) + Split(b)
  {
    var i := FirstSlash(a);
    SplitJoinHead(a, b);
    SplitHead(a);
    AppendAssoc([a[..i]], Split(a[i + 1..]), Split(b));
  }

  /** Appending a separator and a segment adds that segment at the end. */
  lemma SplitAppend(a: string, b: string)
    requires '/' !in b
    ensures Split(a + "/" + b) == Split(a) + [b]
  {
    SplitJoin(a, b);
  }

  /** No segment is empty: no leading, trailing or doubled separator. */
  predicate NoEmptySegment(s: string) {
    forall k :: 0 <= k < |Split(s)| ==> Split(s)[k] != ""
  }

  /** What NoEmptySegment means on the characters of the path. */
  lemma {:induction false} NoEmptySegmentShape(s: string)
    requires NoEmptySegment(s)
    ensures s != "" && s[0] != '/' && s[|s| - 1] != '/'
    ensures forall k :: 0 < k < |s| && s[k] == '/' ==> s[k - 1] != '/'
    decreases |s|
  {
    if '/' in s {
      var i := FirstSlash(s);
      var rest := s[i + 1..];
      assert Split(s) == [s[..i]] + Split(rest);
      assert Split(s)[0] == s[..i];
      assert NoEmptySegment(rest) by {
        forall k | 0 <= k < |Split(rest)| ensures Split(rest)[k] != "" {
          assert Split(rest)[k] == Split(s)[k + 1];
        }
      }
      NoEmptySegmentShape(rest);
      forall k | 0 < k < |s| && s[k] == '/' ensures s[k - 1] != '/' {
        if k > i + 1 {
          assert rest[k - i - 1] == '/';
        } else if k == i {
          assert s[..i][k - 1] == s[k - 1];
        }
      }
      assert s[|s| - 1] == rest[|rest| - 1];
    } else {
      assert Split(s)[0] == s;
    }
  }

  /** The folder that contains `path`; "" for a path at the vault root. */
  function Parent(path: string): string {
    if '/' in path then path[..LastSlash(path)] else ""
  }

  /** The last segment of `path`. */
  function BaseName(path: string): string {
    if '/' in path then path[LastSlash(path) + 1..] else path
  }

  /** Appending a separator and a leaf name is undone by Parent and BaseName. */
  lemma {:induction false} ParentOfJoin(a: string, b: string)
    requires '/' !in b
    ensures Parent(a + "/" + b) == a && BaseName(a + "/" + b) == b
  {
    var s := a + "/" + b;
    assert s[|a|] == '/';
    assert LastSlash(s) == |a|;
    assert s[..|a|] == a && s[|a| + 1..] == b;
  }

  /** The proper folder prefixes of `path`: every non-empty text before one of its separators. */
  function Prefixes(path: string): set<string> {
    set i | 0 < i < |path| && path[i] == '/' :: path[..i]
  }

  /** A folder prefix is strictly shorter than the path, and the path continues it with a separator. */
  lemma PrefixIsProper(path: string, p: string)
    requires p in Prefixes(path)
    ensures 0 < |p| < |path| && path[..|p|] == p && path[|p|] == '/'
  {
  }

  /** Prefixes of a prefix are prefixes of the whole path. */
  lemma PrefixOfPrefix(path: string, p: string, q: string)
    requires p in Prefixes(path) && q in Prefixes(p)
    ensures q in Prefixes(path)
  {
    var i :| 0 < i < |path| && path[i] == '/' && p == path[..i];
    var j :| 0 < j < |p| && p[j] == '/' && q == p[..j];
    assert path[j] == '/' && q == path[..j];
  }

  /** The folder prefixes of `a/b`, where `b` is a leaf name, are `a` and the prefixes of `a`. */
  lemma PrefixesOfJoin(a: string, b: string)
    requires a != "" && '/' !in b
    ensures Prefixes(a + "/" + b) == Prefixes(a) + {a}
  {
    var s := a + "/" + b;
    forall p | p in Prefixes(s) ensures p in Prefixes(a) + {a} {
      var i :| 0 < i < |s| && s[i] == '/' && p == s[..i];
      if i < |a| {
        assert a[i] == '/' && p == a[..i];
      } else {
        assert p == a;
      }
    }
    forall p | p in Prefixes(a) + {a} ensures p in Prefixes(s) {
      if p == a {
        assert s[|a|] == '/' && s[..|a|] == a;
      } else {
        var i :| 0 < i < |a| && a[i] == '/' && p == a[..i];
        assert s[i] == '/' && s[..i] == p;
      }
    }
  }
}
