/**
 * The attribute tree of a Ring device (`device._attrs`), and how the add-on
 * reads it: dotted-path lookup (`get_nested`) and the enumeration of every
 * leaf path in the tree, which the diagnostics and the attribute analyzer
 * both perform.
 */
module AttrTree {
  import opened Wrappers
  import Text

  /** A JSON-like value as the Ring API returns it; `Null` is Python's None. */
  datatype Node =
    | Map(entries: map<string, Node>)
    | Str(s: string)
    | Int(i: int)
    | Bool(b: bool)
    | List(items: seq<Node>)
    | Null

  /** Python truthiness. */
  predicate Truthy(n: Node)
  {
    match n
    case Map(m) => |m| > 0
    case Str(s) => |s| > 0
    case Int(i) => i != 0
    case Bool(b) => b
    case List(items) => |items| > 0
    case Null => false
  }

  /** The keys of a dotted attribute path. */
  function PathKeys(path: string): seq<string>
  {
    Text.Split(path, '.')
  }

  /** Reference walk: the value stored under `keys`; a stored None is a value like any other. */
  function ValueAt(n: Node, keys: seq<string>): Option<Node>
    decreases keys
  {
    if keys == [] then Some(n)
    else if n.Map? && keys[0] in n.entries then ValueAt(n.entries[keys[0]], keys[1..])
    else None
  }

  /** The walk `get_nested` performs: a None met anywhere on the way ends it without a value. */
  function Resolve(data: Node, keys: seq<string>): (r: Option<Node>)
    ensures r.Some? ==> !r.value.Null?
    decreases keys
  {
    if data.Null? then None
    else if keys == [] then Some(data)
    else if data.Map? && keys[0] in data.entries then Resolve(data.entries[keys[0]], keys[1..])
    else None
  }

  /** What `get_nested(data, path, default)` returns. */
  function NestedValue(data: Node, path: string, default: Node): Node
  {
    Resolve(data, PathKeys(path)).GetOr(default)
  }

  /** `get_nested`: walk the dotted path one key at a time. */
  method GetNested(data: Node, path: string, default: Node) returns (r: Node)
    ensures r == NestedValue(data, path, default)
    ensures data.Null? ==> r == default
    ensures r.Null? ==> default.Null?
  {
    if data.Null? {
      return default;
    }
    var keys := PathKeys(path);
    var current := data;
    var i := 0;
    while i < |keys|
      invariant 0 <= i <= |keys|
      invariant !current.Null?
      invariant Resolve(data, keys) == Resolve(current, keys[i..])
    {
      if !current.Map? {
        return default;
      }
      assert keys[i..][1..] == keys[i + 1..];
      current := if keys[i] in current.entries then current.entries[keys[i]] else Null;
      if current.Null? {
        return default;
      }
      i := i + 1;
    }
    return current;
  }

  /** `get_nested` sees exactly the reference value, except that a stored None reads as missing. */
  lemma {:induction false} ResolveIsValueAt(data: Node, keys: seq<string>)
    ensures Resolve(data, keys) == (if ValueAt(data, keys) == Some(Null) then None else ValueAt(data, keys))
    decreases keys
  {
    if !data.Null? && keys != [] && data.Map? && keys[0] in data.entries {
      ResolveIsValueAt(data.entries[keys[0]], keys[1..]);
    }
  }

  /** Any stored value other than None is returned as it is, falsy ones (0, False, "", {}) included. */
  lemma {:induction false} StoredValueReturned(data: Node, path: string, default: Node, v: Node)
    requires ValueAt(data, PathKeys(path)) == Some(v) && !v.Null?
    ensures NestedValue(data, path, default) == v
  {
    ResolveIsValueAt(data, PathKeys(path));
  }

  /** A missing key and a key holding None both give the default. */
  lemma {:induction false} MissingOrNullGivesDefault(data: Node, path: string, default: Node)
    requires ValueAt(data, PathKeys(path)).None? || ValueAt(data, PathKeys(path)) == Some(Null)
    ensures NestedValue(data, path, default) == default
  {
    ResolveIsValueAt(data, PathKeys(path));
  }

  /** Walking `a + b` walks `a`, then `b` from where `a` ended. */
  lemma {:induction false} ResolveConcat(data: Node, a: seq<string>, b: seq<string>)
    ensures Resolve(data, a + b) == (match Resolve(data, a) case None => None case Some(v) => Resolve(v, b))
    decreases a
  {
    if a == [] {
      assert a + b == b;
    } else {
      assert (a + b)[0] == a[0];
      if !data.Null? && data.Map? && a[0] in data.entries {
        assert (a + b)[1..] == a[1..] + b;
        ResolveConcat(data.entries[a[0]], a[1..], b);
      }
    }
  }

  /** Reaching a value that is not a dict before the last key gives the default. */
  lemma {:induction false} NonDictStopsLookup(data: Node, path: string, default: Node, i: nat, v: Node)
    requires i < |PathKeys(path)|
    requires ValueAt(data, PathKeys(path)[..i]) == Some(v) && !v.Map?
    ensures NestedValue(data, path, default) == default
  {
    var keys := PathKeys(path);
    assert keys == keys[..i] + keys[i..];
    ResolveIsValueAt(data, keys[..i]);
    ResolveConcat(data, keys[..i], keys[i..]);
    assert keys[i..] != [];
    assert Resolve(v, keys[i..]).None?;
  }

  /** Looking up `p.q` is looking up `q` in the value found at `p`. */
  lemma {:induction false} NestedValueComposes(data: Node, p: string, q: string)
    ensures NestedValue(data, p + "." + q, Null) == NestedValue(NestedValue(data, p, Null), q, Null)
  {
    Text.SplitAround(p, q, '.');
    ResolveConcat(data, PathKeys(p), PathKeys(q));
  }

  // ------------------------------------------------------------ leaf paths

  /** `f"{prefix}.{key}" if prefix else key` */
  function JoinKey(prefix: string, key: string): string
  {
    if prefix == "" then key else prefix + "." + key
  }

  /**
   * The dotted path of every leaf under a dict, keys in `skip` left out at
   * every depth; a list counts as a leaf only when `listsAreLeaves`.  A value
   * that is not a dict has no paths.
   */
  function LeafPaths(n: Node, prefix: string, skip: set<string>, listsAreLeaves: bool): set<string>
    decreases n, 0
  {
    match n
    case Map(m) =>
      set k, p | k in m && k !in skip && p in ChildLeafPaths(m[k], JoinKey(prefix, k), skip, listsAreLeaves) :: p
    case _ => {}
  }

  /** The paths a value stored at `path` contributes. */
  function ChildLeafPaths(child: Node, path: string, skip: set<string>, listsAreLeaves: bool): set<string>
    decreases child, 1
  {
    if child.Map? then LeafPaths(child, path, skip, listsAreLeaves)
    else if child.List? && !listsAreLeaves then {}
    else {path}
  }

  /** The same leaves, each as its sequence of keys. */
  function LeafKeyPaths(n: Node, skip: set<string>, listsAreLeaves: bool): set<seq<string>>
    decreases n, 0
  {
    match n
    case Map(m) =>
      set k, ks | k in m && k !in skip && ks in ChildKeyPaths(m[k], skip, listsAreLeaves) :: [k] + ks
    case _ => {}
  }

  /** The key paths a value contributes, relative to where it is stored. */
  function ChildKeyPaths(child: Node, skip: set<string>, listsAreLeaves: bool): set<seq<string>>
    decreases child, 1
  {
    if child.Map? then LeafKeyPaths(child, skip, listsAreLeaves)
    else if child.List? && !listsAreLeaves then {}
    else {[]}
  }

  /** A key sequence that leads to a leaf, passing no skipped key. */
  predicate IsLeafKeyPath(n: Node, keys: seq<string>, skip: set<string>, listsAreLeaves: bool)
  {
    && |keys| >= 1
    && (forall i :: 0 <= i < |keys| ==> keys[i] !in skip)
    && ValueAt(n, keys).Some?
    && !ValueAt(n, keys).value.Map?
    && (listsAreLeaves || !ValueAt(n, keys).value.List?)
  }

  /** Leaf key paths are exactly the walks that end at a leaf without passing a skipped key. */
  lemma {:induction false} LeafKeyPathsExact(n: Node, keys: seq<string>, skip: set<string>, listsAreLeaves: bool)
    ensures keys in LeafKeyPaths(n, skip, listsAreLeaves) <==> IsLeafKeyPath(n, keys, skip, listsAreLeaves)
    decreases n
  {
    if n.Map? && |keys| >= 1 {
      var m := n.entries;
      var k := keys[0];
      var rest := keys[1..];
      assert keys == [k] + rest;
      var inPaths := k in m && k !in skip && rest in ChildKeyPaths(m[k], skip, listsAreLeaves);
      if keys in LeafKeyPaths(n, skip, listsAreLeaves) {
        var k', ks :| k' in m && k' !in skip && ks in ChildKeyPaths(m[k'], skip, listsAreLeaves) && keys == [k'] + ks;
        assert k' == k && ks == rest;
      }
      assert keys in LeafKeyPaths(n, skip, listsAreLeaves) <==> inPaths;
      if k in m {
        var child := m[k];
        assert ValueAt(n, keys) == ValueAt(child, rest);
        if child.Map? {
          LeafKeyPathsExact(child, rest, skip, listsAreLeaves);
          assert (forall i :: 0 <= i < |keys| ==> keys[i] !in skip)
             <==> k !in skip && (forall i :: 0 <= i < |rest| ==> rest[i] !in skip) by {
            if forall i :: 0 <= i < |keys| ==> keys[i] !in skip {
              forall i | 0 <= i < |rest| ensures rest[i] !in skip { assert rest[i] == keys[i + 1]; }
            }
            if k !in skip && (forall i :: 0 <= i < |rest| ==> rest[i] !in skip) {
              forall i | 0 <= i < |keys| ensures keys[i] !in skip { if i > 0 { assert keys[i] == rest[i - 1]; } }
            }
          }
          if rest == [] {
            assert ValueAt(n, keys) == Some(child);
          }
        } else {
          if rest != [] {
            assert ValueAt(child, rest).None?;
          }
        }
      }
    } else if n.Map? {
      assert forall x | x in LeafKeyPaths(n, skip, listsAreLeaves) :: |x| >= 1;
    }
  }

  /**
   * The top-level key `""`, if there is one, does not hold a dict.  Below
   * such a dict the prefix stays empty, so its children's paths would lose
   * the `""` step; a `""` key anywhere else joins as any other key does.
   */
  predicate NoDictUnderEmptyKey(n: Node)
  {
    n.Map? && "" in n.entries ==> !n.entries[""].Map?
  }

  /** Every leaf key path is non-empty. */
  lemma LeafKeyPathsNonEmpty(n: Node, skip: set<string>, listsAreLeaves: bool, keys: seq<string>)
    requires keys in LeafKeyPaths(n, skip, listsAreLeaves)
    ensures |keys| >= 1
  {
    LeafKeyPathsExact(n, keys, skip, listsAreLeaves);
  }

  /** The dotted form of a key path under a prefix. */
  function DottedPath(prefix: string, keys: seq<string>): string
  {
    JoinKey(prefix, Text.Join(keys, '.'))
  }

  /**
   * Unless a dict is reached under an empty prefix, the dotted paths are the
   * key paths joined with dots after the prefix.
   */
  lemma {:induction false} LeafPathsAreJoinedKeyPaths(n: Node, prefix: string, skip: set<string>, listsAreLeaves: bool)
    requires prefix != "" || NoDictUnderEmptyKey(n)
    ensures LeafPaths(n, prefix, skip, listsAreLeaves)
         == set ks | ks in LeafKeyPaths(n, skip, listsAreLeaves) :: DottedPath(prefix, ks)
    decreases n, 0
  {
    if n.Map? {
      var m := n.entries;
      var lhs := LeafPaths(n, prefix, skip, listsAreLeaves);
      var kps := LeafKeyPaths(n, skip, listsAreLeaves);
      var rhs := set ks | ks in kps :: DottedPath(prefix, ks);
      forall p | p in lhs ensures p in rhs {
        var k :| k in m && k !in skip && p in ChildLeafPaths(m[k], JoinKey(prefix, k), skip, listsAreLeaves);
        ChildPathsJoined(m[k], prefix, k, skip, listsAreLeaves, p);
      }
      forall p | p in rhs ensures p in lhs {
        var keys :| keys in kps && p == DottedPath(prefix, keys);
        var k, ks :| k in m && k !in skip && ks in ChildKeyPaths(m[k], skip, listsAreLeaves) && keys == [k] + ks;
        ChildKeyPathsJoined(m[k], prefix, k, skip, listsAreLeaves, ks);
      }
    }
  }

  lemma {:induction false} ChildPathsJoined(child: Node, prefix: string, k: string, skip: set<string>, listsAreLeaves: bool, p: string)
    requires prefix != "" || k != "" || !child.Map?
    requires p in ChildLeafPaths(child, JoinKey(prefix, k), skip, listsAreLeaves)
    ensures exists ks :: ks in ChildKeyPaths(child, skip, listsAreLeaves) && p == DottedPath(prefix, [k] + ks)
    decreases child, 1
  {
    if child.Map? {
      LeafPathsAreJoinedKeyPaths(child, JoinKey(prefix, k), skip, listsAreLeaves);
      var ks :| ks in LeafKeyPaths(child, skip, listsAreLeaves) && p == DottedPath(JoinKey(prefix, k), ks);
      LeafKeyPathsNonEmpty(child, skip, listsAreLeaves, ks);
      JoinKeyAssociates(prefix, k, ks);
    } else {
      assert Text.Join([k] + [], '.') == k;
    }
  }

  lemma {:induction false} ChildKeyPathsJoined(child: Node, prefix: string, k: string, skip: set<string>, listsAreLeaves: bool, ks: seq<string>)
    requires prefix != "" || k != "" || !child.Map?
    requires ks in ChildKeyPaths(child, skip, listsAreLeaves)
    ensures DottedPath(prefix, [k] + ks) in ChildLeafPaths(child, JoinKey(prefix, k), skip, listsAreLeaves)
    decreases child, 1
  {
    if child.Map? {
      LeafPathsAreJoinedKeyPaths(child, JoinKey(prefix, k), skip, listsAreLeaves);
      LeafKeyPathsNonEmpty(child, skip, listsAreLeaves, ks);
      JoinKeyAssociates(prefix, k, ks);
    } else {
      assert Text.Join([k] + [], '.') == k;
    }
  }

  /** Putting `k` in front of a key path under `prefix`, and joining, is the same either way round. */
  lemma JoinKeyAssociates(prefix: string, k: string, ks: seq<string>)
    requires (prefix != "" || k != "") && |ks| >= 1
    ensures DottedPath(JoinKey(prefix, k), ks) == DottedPath(prefix, [k] + ks)
  {
    assert ([k] + ks)[1..] == ks;
  }
}
