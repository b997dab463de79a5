/** The method browser of the management GUI: the catalogue of remote
    methods grouped into a two-level tree by namespace, and the lookup that
    opens a method's dialog when a tree item is double-clicked. The catalogue
    is a parameter here (the GUI reads it from its discovery file). */
module MethodTree {
  import opened Json
  import MethodDialog

  /** One catalogue entry; a key missing from the entry is None. */
  datatype MethodInfo = MethodInfo(name: Option<string>, description: Option<string>, params: seq<MethodDialog.ParamSpec>)

  /** A namespace node of the tree with the method nodes under it. */
  datatype TreeNode = TreeNode(namespace: string, methods: seq<MethodInfo>)

  /** The first piece of the name when split at ':': the text before the
      first ':', or the whole name when it has none. */
  function Namespace(name: string): (ns: string)
    ensures |ns| <= |name| && name[..|ns|] == ns
    ensures forall k :: 0 <= k < |ns| ==> ns[k] != ':'
    ensures |ns| < |name| ==> name[|ns|] == ':'
  {
    if name == [] || name[0] == ':' then []
    else
      var rest := Namespace(name[1..]);
      assert name[..1 + |rest|] == [name[0]] + name[1..][..|rest|];
      [name[0]] + rest
  }

  /** An entry the tree shows: it has a name and a description, and it is
      not a notification. */
  predicate Listed(m: MethodInfo) {
    m.name.Some? && m.description.Some? && !StartsWith(m.name.value, NotificationPrefix)
  }

  function NamespaceOf(m: MethodInfo): string {
    if m.name.Some? then Namespace(m.name.value) else ""
  }

  /** The listed entries, in catalogue order. */
  function ListedMethods(ms: seq<MethodInfo>): seq<MethodInfo> {
    if ms == [] then []
    else
      var rest := ListedMethods(ms[..|ms| - 1]);
      if Listed(ms[|ms| - 1]) then rest + [ms[|ms| - 1]] else rest
  }

  /** The namespace of each entry, in order. */
  function NamespacesOf(ms: seq<MethodInfo>): seq<string> {
    if ms == [] then [] else NamespacesOf(ms[..|ms| - 1]) + [NamespaceOf(ms[|ms| - 1])]
  }

  /** Each element at its first occurrence: s[i] is kept exactly when it does
      not occur in s[..i]. */
  function FirstOccurrences(s: seq<string>): seq<string> {
    if s == [] then []
    else
      var rest := FirstOccurrences(s[..|s| - 1]);
      if s[|s| - 1] in s[..|s| - 1] then rest else rest + [s[|s| - 1]]
  }

  /** The entries of namespace `ns`, in order. */
  function InNamespace(ms: seq<MethodInfo>, ns: string): seq<MethodInfo> {
    if ms == [] then []
    else
      var rest := InNamespace(ms[..|ms| - 1], ns);
      if NamespaceOf(ms[|ms| - 1]) == ns then rest + [ms[|ms| - 1]] else rest
  }

  /** One node per namespace of `keys`, holding that namespace's entries of `ms`. */
  function NodesFor(keys: seq<string>, ms: seq<MethodInfo>): (t: seq<TreeNode>)
    ensures |t| == |keys|
    ensures forall i :: 0 <= i < |t| ==> t[i] == TreeNode(keys[i], InNamespace(ms, keys[i]))
  {
    if keys == [] then [] else NodesFor(keys[..|keys| - 1], ms) + [TreeNode(keys[|keys| - 1], InNamespace(ms, keys[|keys| - 1]))]
  }

  /** The tree the browser shows for a catalogue. */
  function Grouped(methods: seq<MethodInfo>): seq<TreeNode> {
    var listed := ListedMethods(methods);
    NodesFor(FirstOccurrences(NamespacesOf(listed)), listed)
  }

  /** All method nodes of a tree, namespace after namespace. */
  function AllMethods(tree: seq<TreeNode>): seq<MethodInfo> {
    if tree == [] then [] else AllMethods(tree[..|tree| - 1]) + tree[|tree| - 1].methods
  }

  /** Position of the first occurrence of x in s. */
  function FirstIndex(s: seq<string>, x: string): (i: nat)
    requires x in s
    ensures i < |s| && s[i] == x && x !in s[..i]
  {
    if x in s[..|s| - 1] then
      var i := FirstIndex(s[..|s| - 1], x);
      assert s[..|s| - 1][..i] == s[..i];
      i
    else |s| - 1
  }

  // ---------------------------------------------------------------------
  // Lemmas about the reference definitions.
  // ---------------------------------------------------------------------

  /** The listed entries are exactly the catalogue entries with a name and a
      description that are not notifications. */
  lemma {:induction false} ListedMethodsMembers(ms: seq<MethodInfo>)
    ensures forall m :: m in ListedMethods(ms) <==> m in ms && Listed(m)
  {
    if ms != [] {
      ListedMethodsMembers(ms[..|ms| - 1]);
      assert ms == ms[..|ms| - 1] + [ms[|ms| - 1]];
    }
  }

  lemma {:induction false} NamespacesOfMembers(ms: seq<MethodInfo>)
    ensures |NamespacesOf(ms)| == |ms|
    ensures forall ns :: ns in NamespacesOf(ms) <==> exists m :: m in ms && NamespaceOf(m) == ns
  {
    if ms != [] {
      var init, m := ms[..|ms| - 1], ms[|ms| - 1];
      NamespacesOfMembers(init);
      assert ms == init + [m];
      forall ns | ns in NamespacesOf(ms) ensures exists m' :: m' in ms && NamespaceOf(m') == ns {
        if ns != NamespaceOf(m) {
          var m' :| m' in init && NamespaceOf(m') == ns;
          assert m' in ms;
        }
      }
    }
  }

  /** FirstOccurrences keeps every element once: no duplicates, nothing lost,
      nothing added. */
  lemma {:induction false} FirstOccurrencesDistinct(s: seq<string>)
    ensures forall x :: x in FirstOccurrences(s) <==> x in s
    ensures forall i, j :: 0 <= i < j < |FirstOccurrences(s)| ==> FirstOccurrences(s)[i] != FirstOccurrences(s)[j]
  {
    if s != [] {
      FirstOccurrencesDistinct(s[..|s| - 1]);
      assert s == s[..|s| - 1] + [s[|s| - 1]];
    }
  }

  /** FirstOccurrences lists the elements in the order of their first
      occurrence in s. */
  lemma {:induction false} FirstOccurrencesOrder(s: seq<string>)
    ensures forall x :: x in FirstOccurrences(s) ==> x in s
    ensures forall i, j :: 0 <= i < j < |FirstOccurrences(s)| ==>
      FirstIndex(s, FirstOccurrences(s)[i]) < FirstIndex(s, FirstOccurrences(s)[j])
  {
    FirstOccurrencesDistinct(s);
    if s != [] {
      var init, x := s[..|s| - 1], s[|s| - 1];
      FirstOccurrencesOrder(init);
      FirstOccurrencesDistinct(init);
      var f, f0 := FirstOccurrences(s), FirstOccurrences(init);
      forall i, j | 0 <= i < j < |f| ensures FirstIndex(s, f[i]) < FirstIndex(s, f[j]) {
        assert f[i] in init;
        if j < |f0| {
          assert f[i] == f0[i] && f[j] == f0[j];
        } else {
          assert f[i] == f0[i];
        }
      }
    }
  }

  /** A method sits in the group of namespace ns exactly when its namespace is ns. */
  lemma {:induction false} InNamespaceMembers(ms: seq<MethodInfo>, ns: string)
    ensures forall m :: m in InNamespace(ms, ns) <==> m in ms && NamespaceOf(m) == ns
  {
    if ms != [] {
      InNamespaceMembers(ms[..|ms| - 1], ns);
      assert ms == ms[..|ms| - 1] + [ms[|ms| - 1]];
    }
  }

  lemma {:induction false} InNamespaceAbsent(ms: seq<MethodInfo>, ns: string)
    requires ns !in NamespacesOf(ms)
    ensures InNamespace(ms, ns) == []
  {
    if ms != [] {
      InNamespaceAbsent(ms[..|ms| - 1], ns);
    }
  }

  lemma InNamespaceSnoc(ms: seq<MethodInfo>, m: MethodInfo, ns: string)
    ensures InNamespace(ms + [m], ns) == InNamespace(ms, ns) + if NamespaceOf(m) == ns then [m] else []
  {
    assert (ms + [m])[..|ms|] == ms;
  }

  lemma AllMethodsSnoc(t: seq<TreeNode>, n: TreeNode)
    ensures AllMethods(t + [n]) == AllMethods(t) + n.methods
  {
    assert (t + [n])[..|t|] == t;
  }

  /** Adding one entry to the catalogue adds it to the one node of its
      namespace, when the tree has one. */
  lemma {:induction false} AllMethodsStep(keys: seq<string>, ms: seq<MethodInfo>, m: MethodInfo)
    requires forall i, j :: 0 <= i < j < |keys| ==> keys[i] != keys[j]
    ensures multiset(AllMethods(NodesFor(keys, ms + [m]))) ==
      multiset(AllMethods(NodesFor(keys, ms))) + if NamespaceOf(m) in keys then multiset{m} else multiset{}
  {
    if keys != [] {
      var init, k := keys[..|keys| - 1], keys[|keys| - 1];
      assert keys == init + [k];
      AllMethodsStep(init, ms, m);
      InNamespaceSnoc(ms, m, k);
      AllMethodsSnoc(NodesFor(init, ms + [m]), TreeNode(k, InNamespace(ms + [m], k)));
      AllMethodsSnoc(NodesFor(init, ms), TreeNode(k, InNamespace(ms, k)));
      assert NodesFor(keys, ms + [m]) == NodesFor(init, ms + [m]) + [TreeNode(k, InNamespace(ms + [m], k))];
      assert NodesFor(keys, ms) == NodesFor(init, ms) + [TreeNode(k, InNamespace(ms, k))];
      assert NamespaceOf(m) in keys <==> NamespaceOf(m) in init || NamespaceOf(m) == k;
      assert NamespaceOf(m) == k ==> NamespaceOf(m) !in init;
    }
  }

  /** Every listed method appears exactly once in the tree: the method nodes
      are a permutation of the listed entries. */
  lemma {:induction false} GroupedPartition(ms: seq<MethodInfo>)
    ensures multiset(AllMethods(NodesFor(FirstOccurrences(NamespacesOf(ms)), ms))) == multiset(ms)
  {
    if ms != [] {
      var init, m := ms[..|ms| - 1], ms[|ms| - 1];
      assert ms == init + [m];
      var n0 := NamespacesOf(init);
      var keys0 := FirstOccurrences(n0);
      GroupedPartition(init);
      FirstOccurrencesDistinct(n0);
      AllMethodsStep(keys0, init, m);
      assert NamespacesOf(ms) == n0 + [NamespaceOf(m)];
      assert (n0 + [NamespaceOf(m)])[..|n0|] == n0;
      if NamespaceOf(m) !in n0 {
        var keys := keys0 + [NamespaceOf(m)];
        var t := NodesFor(keys, ms);
        assert t[..|t| - 1] == NodesFor(keys0, ms);
        InNamespaceAbsent(init, NamespaceOf(m));
        assert InNamespace(ms, NamespaceOf(m)) == [m];
      }
    }
  }

  /** Every method node is a listed catalogue entry under its own namespace. */
  lemma GroupedSound(methods: seq<MethodInfo>)
    ensures forall i, m :: 0 <= i < |Grouped(methods)| && m in Grouped(methods)[i].methods ==>
      m in methods && Listed(m) && NamespaceOf(m) == Grouped(methods)[i].namespace
  {
    var listed := ListedMethods(methods);
    var keys := FirstOccurrences(NamespacesOf(listed));
    var t := Grouped(methods);
    forall i, m | 0 <= i < |t| && m in t[i].methods
      ensures m in methods && Listed(m) && NamespaceOf(m) == t[i].namespace
    {
      InNamespaceMembers(listed, keys[i]);
      ListedMethodsMembers(methods);
    }
  }

  /** Every listed catalogue entry appears under its own namespace. */
  lemma GroupedComplete(methods: seq<MethodInfo>)
    ensures forall m :: m in methods && Listed(m) ==>
      exists i :: 0 <= i < |Grouped(methods)| && Grouped(methods)[i].namespace == NamespaceOf(m) && m in Grouped(methods)[i].methods
  {
    var listed := ListedMethods(methods);
    var ns := NamespacesOf(listed);
    var keys := FirstOccurrences(ns);
    var t := Grouped(methods);
    forall m | m in methods && Listed(m)
      ensures exists i :: 0 <= i < |t| && t[i].namespace == NamespaceOf(m) && m in t[i].methods
    {
      ListedMethodsMembers(methods);
      assert m in listed;
      NamespacesOfMembers(listed);
      assert NamespaceOf(m) in ns;
      FirstOccurrencesDistinct(ns);
      var i :| 0 <= i < |keys| && keys[i] == NamespaceOf(m);
      InNamespaceMembers(listed, keys[i]);
      assert t[i].namespace == NamespaceOf(m) && m in t[i].methods;
    }
  }

  /** The tree of a catalogue: one node per namespace of a listed method;
      each listed method exactly once, under its own namespace; no
      notification and no entry without name or description anywhere. */
  lemma GroupedProperties(methods: seq<MethodInfo>)
    ensures forall i, j :: 0 <= i < j < |Grouped(methods)| ==> Grouped(methods)[i].namespace != Grouped(methods)[j].namespace
    ensures forall i, m :: 0 <= i < |Grouped(methods)| && m in Grouped(methods)[i].methods ==>
      m in methods && Listed(m) && NamespaceOf(m) == Grouped(methods)[i].namespace
    ensures forall m :: m in methods && Listed(m) ==>
      exists i :: 0 <= i < |Grouped(methods)| && Grouped(methods)[i].namespace == NamespaceOf(m) && m in Grouped(methods)[i].methods
    ensures multiset(AllMethods(Grouped(methods))) == multiset(ListedMethods(methods))
  {
    var listed := ListedMethods(methods);
    FirstOccurrencesDistinct(NamespacesOf(listed));
    GroupedPartition(listed);
    GroupedSound(methods);
    GroupedComplete(methods);
  }

  // ---------------------------------------------------------------------
  // The GUI's two operations.
  // ---------------------------------------------------------------------

  /** `populate_method_tree`: the first loop files each listed entry under
      its namespace in a dictionary that remembers the order in which
      namespaces were first seen (`order`); the second loop emits one tree
      node per namespace. */
  method PopulateMethodTree(methods: seq<MethodInfo>) returns (tree: seq<TreeNode>)
    ensures tree == Grouped(methods)
  {
    var order: seq<string> := [];
    var groups: map<string, seq<MethodInfo>> := map[];
    for i := 0 to |methods|
      invariant order == FirstOccurrences(NamespacesOf(ListedMethods(methods[..i])))
      invariant forall ns :: ns in groups <==> ns in order
      invariant forall ns :: ns in groups ==> groups[ns] == InNamespace(ListedMethods(methods[..i]), ns)
    {
      var m := methods[i];
      var before := ListedMethods(methods[..i]);
      assert methods[..i + 1][..i] == methods[..i];
      FirstOccurrencesDistinct(NamespacesOf(before));
      if m.name.Some? && m.description.Some? {
        if StartsWith(m.name.value, NotificationPrefix) {
          continue;
        }
        var ns := Namespace(m.name.value);
        if ns !in groups {
          InNamespaceAbsent(before, ns);
          order := order + [ns];
          groups := groups[ns := []];
        }
        groups := groups[ns := groups[ns] + [m]];
      }
    }
    assert methods[..|methods|] == methods;
    var listed := ListedMethods(methods);
    tree := [];
    for j := 0 to |order|
      invariant tree == NodesFor(order[..j], listed)
    {
      assert order[..j + 1][..j] == order[..j];
      tree := tree + [TreeNode(order[j], groups[order[j]])];
    }
    assert order[..|order|] == order;
  }

  /** What a double-click does: open the dialog for a catalogue entry, do
      nothing, or stop with a KeyError at an entry without a "name". */
  datatype Lookup = Opened(index: nat) | NoMatch | KeyMissing(index: nat)

  /** `on_method_double_click`: scan the catalogue for the first entry whose
      name is the selected item's text. */
  method FindMethod(methods: seq<MethodInfo>, selected: string) returns (r: Lookup)
    ensures r.Opened? ==> r.index < |methods| && methods[r.index].name == Some(selected)
    ensures r.KeyMissing? ==> r.index < |methods| && methods[r.index].name.None?
    ensures r.Opened? || r.KeyMissing? ==>
      forall k :: 0 <= k < r.index ==> methods[k].name.Some? && methods[k].name != Some(selected)
    ensures r.NoMatch? ==>
      forall k :: 0 <= k < |methods| ==> methods[k].name.Some? && methods[k].name != Some(selected)
  {
    for i := 0 to |methods|
      invariant forall k :: 0 <= k < i ==> methods[k].name.Some? && methods[k].name != Some(selected)
    {
      match methods[i].name
      case None =>
        return KeyMissing(i);
      case Some(n) =>
        if n == selected {
          return Opened(i);
        }
    }
    return NoMatch;
  }
}
