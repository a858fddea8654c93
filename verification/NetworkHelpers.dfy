/** Which rootless network helper processes belong to a cell that is about to be stopped.
  *
  * `Table` is one reading of the process table: a key that is absent from one of its maps is a read
  * that failed. Two cells observed against the same reading must not both claim a helper.
  */
module NetworkHelpers {
  import opened Options

  datatype Process = Process(start: nat, comm: string, state: string)

  datatype Table = Table(
    pids: Option<seq<int>>,
    processes: map<int, Process>,
    netns: map<int, nat>,
    cgroups: map<int, string>,
    argvs: map<int, seq<string>>,
    children: map<int, seq<int>>,
    paths: map<string, nat>,
    self: Option<nat>)

  /** What inspecting a container tells: a container that cannot be inspected has no identifier. */
  datatype Scope = Scope(id: string, pid: int, conmon: int)

  /** One line of the container listing; the process number may not parse. */
  datatype Row = Row(id: string, pid: Option<int>)

  datatype Listing = Failed | Rows(rows: seq<Row>)

  datatype Peer = Peer(id: string, pid: int, netns: nat)

  datatype Helper = Helper(pid: int, process: Process)

  const MAX_HELPER_TREE_DEPTH: nat := 8

  function Lookup<K, V>(m: map<K, V>, k: K): Option<V> {
    if k in m then Some(m[k]) else None
  }

  // ---------------------------------------------------------------- the process forest

  /** `x` is `n` steps below `pid` along the children lists that could be read. */
  predicate Below(t: Table, parent: map<int, int>, pid: int, x: int, n: nat)
    decreases n
  {
    if n == 0 then x == pid
    else x in parent && Listed(t, parent[x], x) && Below(t, parent, pid, parent[x], n - 1)
  }

  predicate Listed(t: Table, pid: int, child: int) {
    pid in t.children && child in t.children[pid]
  }

  ghost predicate Within(t: Table, parent: map<int, int>, pid: int, x: int, depth: nat) {
    exists n :: 1 <= n <= depth && Below(t, parent, pid, x, n)
  }

  function Ancestor(parent: map<int, int>, x: int, n: nat): Option<int>
    decreases n
  {
    if n == 0 then Some(x) else if x in parent then Ancestor(parent, parent[x], n - 1) else None
  }

  /** Every listed child has one parent, and no process is its own ancestor. */
  ghost predicate Forest(t: Table, parent: map<int, int>) {
    (forall p, c :: Listed(t, p, c) ==> c in parent && parent[c] == p)
    && (forall x, n: nat :: n > 0 ==> Ancestor(parent, x, n) != Some(x))
  }

  lemma {:induction false} BelowIsAncestor(t: Table, parent: map<int, int>, pid: int, x: int, n: nat)
    requires Below(t, parent, pid, x, n)
    ensures Ancestor(parent, x, n) == Some(pid)
    decreases n
  {
    if n > 0 {
      BelowIsAncestor(t, parent, pid, parent[x], n - 1);
    }
  }

  lemma {:induction false} AncestorOfAncestor(parent: map<int, int>, x: int, n: nat, m: nat)
    requires Ancestor(parent, x, n).Some?
    ensures Ancestor(parent, x, n + m) == Ancestor(parent, Ancestor(parent, x, n).value, m)
    decreases n
  {
    if n > 0 {
      AncestorOfAncestor(parent, parent[x], n - 1, m);
    }
  }

  /** In a forest a process lies at one distance below another. */
  lemma OneDistance(t: Table, parent: map<int, int>, pid: int, x: int, n: nat, m: nat)
    requires Forest(t, parent) && Below(t, parent, pid, x, n) && Below(t, parent, pid, x, m)
    ensures n == m
  {
    BelowIsAncestor(t, parent, pid, x, n);
    BelowIsAncestor(t, parent, pid, x, m);
    AncestorOfAncestor(parent, x, if n <= m then n else m, if n <= m then m - n else n - m);
  }

  /** Of two processes above a third, the farther is above the nearer. */
  lemma {:induction false} Nested(t: Table, parent: map<int, int>, a: int, b: int, x: int, n: nat, m: nat)
    requires n <= m && Below(t, parent, a, x, n) && Below(t, parent, b, x, m)
    ensures Below(t, parent, b, a, m - n)
    decreases n
  {
    if n > 0 {
      Nested(t, parent, a, b, parent[x], n - 1, m - 1);
    }
  }

  lemma {:induction false} Extend(t: Table, parent: map<int, int>, pid: int, child: int, x: int, n: nat)
    requires Forest(t, parent) && Listed(t, pid, child) && Below(t, parent, child, x, n)
    ensures Below(t, parent, pid, x, n + 1)
    decreases n
  {
    if n == 0 {
      assert Below(t, parent, pid, parent[x], 0);
    } else {
      Extend(t, parent, pid, child, parent[x], n - 1);
    }
  }

  lemma {:induction false} FirstStep(t: Table, parent: map<int, int>, pid: int, x: int, n: nat) returns (child: int)
    requires n > 0 && Below(t, parent, pid, x, n)
    ensures Listed(t, pid, child) && Below(t, parent, child, x, n - 1)
    decreases n
  {
    if n == 1 {
      child := x;
    } else {
      child := FirstStep(t, parent, pid, parent[x], n - 1);
    }
  }

  /** The subtrees of the given children, cut at the given depth. */
  ghost predicate UnderSome(t: Table, parent: map<int, int>, children: seq<int>, x: int, depth: nat) {
    exists child :: child in children && (x == child || Within(t, parent, child, x, depth))
  }

  lemma WithinIsUnderSome(t: Table, parent: map<int, int>, pid: int, x: int, depth: nat)
    requires Forest(t, parent) && depth > 0 && pid in t.children
    ensures Within(t, parent, pid, x, depth) <==> UnderSome(t, parent, t.children[pid], x, depth - 1)
  {
    if Within(t, parent, pid, x, depth) {
      var n :| 1 <= n <= depth && Below(t, parent, pid, x, n);
      var child := FirstStep(t, parent, pid, x, n);
      assert x == child || Below(t, parent, child, x, n - 1);
    }
    if UnderSome(t, parent, t.children[pid], x, depth - 1) {
      var child :| child in t.children[pid] && (x == child || Within(t, parent, child, x, depth - 1));
      var n: nat :| n <= depth - 1 && Below(t, parent, child, x, n);
      Extend(t, parent, pid, child, x, n);
    }
  }

  /** Subtrees of different children of one process do not meet. */
  lemma SubtreesApart(t: Table, parent: map<int, int>, pid: int, a: int, b: int, x: int, n: nat, m: nat)
    requires Forest(t, parent) && Listed(t, pid, a) && Listed(t, pid, b)
    requires Below(t, parent, a, x, n) && Below(t, parent, b, x, m)
    ensures a == b && n == m
  {
    Extend(t, parent, pid, a, x, n);
    Extend(t, parent, pid, b, x, m);
    OneDistance(t, parent, pid, x, n + 1, m + 1);
    Nested(t, parent, a, b, x, n, m);
  }

  /** The set of processes found so far, shared by the recursive walk. */
  class Tree {
    var found: set<int>

    constructor ()
      ensures found == {}
    {
      found := {};
    }
  }

  method CollectProcessTree(t: Table, ghost parent: map<int, int>, pid: int, tree: Tree, depth: nat)
    requires Forest(t, parent) && depth <= MAX_HELPER_TREE_DEPTH
    requires forall x :: Within(t, parent, pid, x, MAX_HELPER_TREE_DEPTH - depth) ==> x !in tree.found
    modifies tree
    ensures forall x :: x in tree.found <==>
      x in old(tree.found) || Within(t, parent, pid, x, MAX_HELPER_TREE_DEPTH - depth)
    decreases MAX_HELPER_TREE_DEPTH - depth
  {
    if depth >= MAX_HELPER_TREE_DEPTH || pid !in t.children {
      NothingBelow(t, parent, pid, MAX_HELPER_TREE_DEPTH - depth);
      return;
    }
    var children := t.children[pid];
    ghost var left := MAX_HELPER_TREE_DEPTH - depth - 1;
    forall x ensures Within(t, parent, pid, x, left + 1) <==> UnderSome(t, parent, children, x, left) {
      WithinIsUnderSome(t, parent, pid, x, left + 1);
    }
    for i := 0 to |children|
      invariant forall x :: x in tree.found <==> x in old(tree.found) || UnderSome(t, parent, children[..i], x, left)
    {
      var child := children[i];
      UnderMore(t, parent, children, i, left);
      assert Listed(t, pid, child) && Below(t, parent, child, child, 0);
      Extend(t, parent, pid, child, child, 0);
      if child in tree.found {
        AlreadyWalked(t, parent, pid, children, i, left);
      } else {
        NotYetWalked(t, parent, pid, children, i, left);
        tree.found := tree.found + {child};
        CollectProcessTree(t, parent, child, tree, depth + 1);
      }
    }
    assert children[..|children|] == children;
  }

  lemma NothingBelow(t: Table, parent: map<int, int>, pid: int, depth: nat)
    requires Forest(t, parent) && (depth == 0 || pid !in t.children)
    ensures forall x :: !Within(t, parent, pid, x, depth)
  {
    forall x, n: nat | 1 <= n <= depth ensures !Below(t, parent, pid, x, n) {
      if Below(t, parent, pid, x, n) {
        var child := FirstStep(t, parent, pid, x, n);
      }
    }
  }

  lemma UnderMore(t: Table, parent: map<int, int>, children: seq<int>, i: nat, depth: nat)
    requires i < |children|
    ensures forall x :: UnderSome(t, parent, children[..i + 1], x, depth) <==>
      UnderSome(t, parent, children[..i], x, depth) || x == children[i] || Within(t, parent, children[i], x, depth)
  {
    assert children[..i + 1] == children[..i] + [children[i]];
    forall x {
      UnderOneMore(t, parent, children[..i], children[i], x, depth);
    }
  }

  lemma UnderOneMore(t: Table, parent: map<int, int>, some: seq<int>, one: int, x: int, depth: nat)
    ensures UnderSome(t, parent, some + [one], x, depth) <==>
      UnderSome(t, parent, some, x, depth) || x == one || Within(t, parent, one, x, depth)
  {
    var all := some + [one];
    if UnderSome(t, parent, some, x, depth) {
      var child :| child in some && (x == child || Within(t, parent, child, x, depth));
      assert child in all;
    }
    assert one in all;
  }

  /** A child found among the earlier subtrees is an earlier entry of the same list. */
  lemma AlreadyWalked(t: Table, parent: map<int, int>, pid: int, children: seq<int>, i: nat, depth: nat)
    requires Forest(t, parent) && pid in t.children && children == t.children[pid] && i < |children|
    requires UnderSome(t, parent, children[..i], children[i], depth)
    ensures children[i] in children[..i]
  {
    var child := children[i];
    var earlier :| earlier in children[..i] && (child == earlier || Within(t, parent, earlier, child, depth));
    if child != earlier {
      var n :| 1 <= n <= depth && Below(t, parent, earlier, child, n);
      assert Below(t, parent, child, child, 0);
      SubtreesApart(t, parent, pid, earlier, child, child, n, 0);
    }
  }

  /** The subtree of a child that is not found yet has not been walked at all. */
  lemma NotYetWalked(t: Table, parent: map<int, int>, pid: int, children: seq<int>, i: nat, depth: nat)
    requires Forest(t, parent) && pid in t.children && children == t.children[pid] && i < |children|
    requires children[i] !in children[..i]
    ensures forall x :: Within(t, parent, children[i], x, depth) ==>
      x != children[i] && Within(t, parent, pid, x, depth + 1) && !UnderSome(t, parent, children[..i], x, depth)
  {
    var child := children[i];
    forall x | Within(t, parent, child, x, depth)
      ensures x != child && Within(t, parent, pid, x, depth + 1) && !UnderSome(t, parent, children[..i], x, depth)
    {
      WithinIsUnderSome(t, parent, pid, x, depth + 1);
      assert child in children;
      var n :| 1 <= n <= depth && Below(t, parent, child, x, n);
      assert x == child ==> Below(t, parent, child, x, 0);
      if x == child {
        OneDistance(t, parent, child, x, n, 0);
      }
      if UnderSome(t, parent, children[..i], x, depth) {
        var earlier :| earlier in children[..i] && (x == earlier || Within(t, parent, earlier, x, depth));
        var m: nat :| Below(t, parent, earlier, x, m);
        SubtreesApart(t, parent, pid, earlier, child, x, m, n);
      }
    }
  }

  // ---------------------------------------------------------------- the evidence that names a container

  predicate Space(c: char) {
    c == ' ' || '\t' <= c <= '\r' || c == '\U{85}' || c == '\U{A0}' || c == '\U{1680}' || '\U{2000}' <= c <= '\U{200A}'
    || c == '\U{2028}' || c == '\U{2029}' || c == '\U{202F}' || c == '\U{205F}' || c == '\U{3000}'
  }

  function TrimSpace(s: string): string {
    if s != "" && Space(s[0]) then TrimSpace(s[1..])
    else if s != "" && Space(s[|s| - 1]) then TrimSpace(s[..|s| - 1])
    else s
  }

  /** Around the stretch are only spaces, and it begins and ends with none. */
  ghost predicate Stripped(s: string, i: int, j: int) {
    0 <= i <= j <= |s| && (forall k | 0 <= k < i || j <= k < |s| :: Space(s[k])) && (i < j ==> !Space(s[i]) && !Space(s[j - 1]))
  }

  lemma StrippedAround(s: string, from: int, to: int, i: int, j: int)
    requires 0 <= from <= to <= |s| && Stripped(s[from..to], i, j)
    requires forall k | 0 <= k < from || to <= k < |s| :: Space(s[k])
    ensures Stripped(s, from + i, from + j) && s[from..to][i..j] == s[from + i..from + j]
  {
    hide Space;
    assert forall k | from <= k < to :: s[k] == s[from..to][k - from];
  }

  /** What is left is the stretch with only spaces around. */
  lemma {:induction false} Trimmed(s: string) returns (i: int, j: int)
    ensures Stripped(s, i, j) && TrimSpace(s) == s[i..j]
    decreases |s|
  {
    hide Space;
    if s != "" && Space(s[0]) {
      assert s[1..|s|] == s[1..];
      i, j := Trimmed(s[1..]);
      StrippedAround(s, 1, |s|, i, j);
      i, j := i + 1, j + 1;
    } else if s != "" && Space(s[|s| - 1]) {
      assert s[0..|s| - 1] == s[..|s| - 1];
      i, j := Trimmed(s[..|s| - 1]);
      StrippedAround(s, 0, |s| - 1, i, j);
    } else {
      assert s[0..|s|] == s;
      i, j := 0, |s|;
    }
  }

  function Split(s: string, separator: char): (parts: seq<string>)
    ensures parts != []
  {
    if s == "" then [""]
    else if s[0] == separator then [""] + Split(s[1..], separator)
    else
      var rest := Split(s[1..], separator);
      [[s[0]] + rest[0]] + rest[1..]
  }

  /** A stretch between two separators, or an end of the text, with none inside. */
  predicate Component(s: string, separator: char, part: string, i: int, j: int) {
    0 <= i <= j <= |s| && s[i..j] == part && separator !in part
    && (i == 0 || s[i - 1] == separator) && (j == |s| || s[j] == separator)
  }

  lemma ComponentBehind(s: string, separator: char, part: string, i: int, j: int)
    requires 0 < i <= j <= |s|
    ensures Component(s, separator, part, i, j) <==>
            Component(s[1..], separator, part, i - 1, j - 1) && (i == 1 ==> s[0] == separator)
  {
    assert s[1..][i - 1..j - 1] == s[i..j];
  }

  lemma ComponentInFront(s: string, separator: char, part: string, j: int)
    requires s != "" && s[0] != separator
    ensures Component(s, separator, part, 0, j) <==>
            part != "" && part[0] == s[0] && j > 0 && Component(s[1..], separator, part[1..], 0, j - 1)
  {
    if 0 < j <= |s| {
      assert s[0..j] == [s[0]] + s[1..][0..j - 1];
      if part != "" {
        assert part == [part[0]] + part[1..];
      }
    }
  }

  ghost predicate Leads(s: string, separator: char, part: string) {
    exists j :: Component(s, separator, part, 0, j)
  }

  ghost predicate Follows(s: string, separator: char, part: string) {
    exists i, j :: i > 0 && Component(s, separator, part, i, j)
  }

  lemma LeadsStep(s: string, separator: char, part: string)
    ensures s == "" || s[0] == separator ==> (Leads(s, separator, part) <==> part == "")
    ensures s != "" && s[0] != separator ==>
      (Leads(s, separator, part) <==> part != "" && part[0] == s[0] && Leads(s[1..], separator, part[1..]))
  {
    if s == "" || s[0] == separator {
      assert Component(s, separator, "", 0, 0);
      forall j | Component(s, separator, part, 0, j) ensures part == "" {
        StartsWith(part, s);
      }
    } else {
      hide Component;
      forall j ensures Component(s, separator, part, 0, j) <==>
        part != "" && part[0] == s[0] && j > 0 && Component(s[1..], separator, part[1..], 0, j - 1)
      {
        ComponentInFront(s, separator, part, j);
      }
      if part != "" && Leads(s[1..], separator, part[1..]) {
        var j :| Component(s[1..], separator, part[1..], 0, j);
        ComponentNat(s[1..], separator, part[1..], 0, j);
        assert Component(s, separator, part, 0, j + 1) <==> part[0] == s[0] && Component(s[1..], separator, part[1..], 0, j + 1 - 1);
      }
    }
  }

  lemma StartsWith(part: string, s: string)
    requires part <= s
    ensures part == "" || (s != "" && s[0] in part)
  {
    if part != "" {
      assert part[0] == s[0];
    }
  }

  lemma ComponentNat(s: string, separator: char, part: string, i: int, j: int)
    requires Component(s, separator, part, i, j)
    ensures 0 <= i <= j <= |s|
  {
  }

  lemma FollowsStep(s: string, separator: char, part: string)
    ensures s == "" ==> !Follows(s, separator, part)
    ensures s != "" ==>
      (Follows(s, separator, part) <==> Follows(s[1..], separator, part) || (s[0] == separator && Leads(s[1..], separator, part)))
  {
    if s != "" {
      if Follows(s, separator, part) {
        var i, j :| i > 0 && Component(s, separator, part, i, j);
        ComponentBehind(s, separator, part, i, j);
      }
      if Follows(s[1..], separator, part) {
        var i, j :| i > 0 && Component(s[1..], separator, part, i, j);
        ComponentBehind(s, separator, part, i + 1, j + 1);
      }
      if s[0] == separator && Leads(s[1..], separator, part) {
        var j :| Component(s[1..], separator, part, 0, j);
        ComponentBehind(s, separator, part, 1, j + 1);
      }
    }
  }

  /** The parts are exactly the stretches between separators, and the first is the one that begins the text. */
  lemma {:induction false} SplitExactly(s: string, separator: char, part: string)
    ensures part == Split(s, separator)[0] <==> Leads(s, separator, part)
    ensures part in Split(s, separator)[1..] <==> Follows(s, separator, part)
  {
    LeadsStep(s, separator, part);
    FollowsStep(s, separator, part);
    hide Leads, Follows;
    if s != "" {
      var more := Split(s[1..], separator);
      SplitExactly(s[1..], separator, part);
      assert more == [more[0]] + more[1..];
      if s[0] == separator {
        assert Split(s, separator)[1..] == more;
      } else {
        assert Split(s, separator)[1..] == more[1..];
        if part != "" {
          assert part == [part[0]] + part[1..];
          SplitExactly(s[1..], separator, part[1..]);
        }
      }
    }
  }

  function TrimSuffix(s: string, suffix: string): string {
    if |suffix| <= |s| && s[|s| - |suffix|..] == suffix then s[..|s| - |suffix|] else s
  }

  predicate ComponentNames(raw: string, id: string) {
    var component := TrimSuffix(TrimSpace(raw), ".scope");
    component == id || component == "libpod-conmon-" + id || component == "libpod-" + id || component == "crio-" + id
  }

  lemma SuffixTrimmed(name: string, component: string)
    requires TrimSuffix(name, ".scope") == name
    ensures TrimSuffix(component, ".scope") == name <==> component == name || component == name + ".scope"
  {
    if |component| >= 6 && component[|component| - 6..] == ".scope" {
      assert component == component[..|component| - 6] + ".scope";
    }
    assert (name + ".scope")[|name|..] == ".scope" && (name + ".scope")[..|name|] == name;
  }

  lemma PrefixKeepsSuffix(prefix: string, id: string)
    requires TrimSuffix(id, ".scope") == id && '.' !in prefix
    ensures TrimSuffix(prefix + id, ".scope") == prefix + id
  {
    var name := prefix + id;
    if |id| >= 6 {
      assert name[|name| - 6..] == id[|id| - 6..];
    } else if |name| >= 6 {
      assert name[|name| - 6..][0] == prefix[|name| - 6];
    }
  }

  /** The eight spellings of a container's scope. */
  lemma ComponentNamesMeans(raw: string, id: string)
    requires HexDigits(id)
    ensures ComponentNames(raw, id) <==>
      TrimSpace(raw) in {id, id + ".scope", "libpod-" + id, "libpod-" + id + ".scope", "crio-" + id, "crio-" + id + ".scope",
                         "libpod-conmon-" + id, "libpod-conmon-" + id + ".scope"}
  {
    assert |id| >= 6 ==> id[|id| - 6..][0] in id;
    assert TrimSuffix(id, ".scope") == id;
    hide TrimSuffix, TrimSpace;
    PrefixKeepsSuffix("libpod-", id);
    PrefixKeepsSuffix("crio-", id);
    PrefixKeepsSuffix("libpod-conmon-", id);
    SuffixTrimmed(id, TrimSpace(raw));
    SuffixTrimmed("libpod-" + id, TrimSpace(raw));
    SuffixTrimmed("crio-" + id, TrimSpace(raw));
    SuffixTrimmed("libpod-conmon-" + id, TrimSpace(raw));
  }

  predicate CgroupNamesContainer(cgroup: string, id: string) {
    id != "" && exists raw :: raw in Split(TrimSpace(cgroup), '/') && ComponentNames(raw, id)
  }

  predicate ArgvNamesContainer(argv: seq<string>, id: string) {
    id != "" && (id in argv || "--cid=" + id in argv)
  }

  /** The namespace path a helper was started with: the first argument that gives one. */
  function NetnsPathArgument(argv: seq<string>): Option<string> {
    if argv == [] then None
    else if argv[0] == "--netns-type=path" && |argv| > 1 then Some(argv[1])
    else if argv[0] == "--netns-type" && |argv| > 2 && argv[1] == "path" then Some(argv[2])
    else if "--netns=" <= argv[0] then Some(argv[0][|"--netns="|..])
    else if argv[0] == "--netns" && |argv| > 1 then Some(argv[1])
    else NetnsPathArgument(argv[1..])
  }

  /** The argument at this place, with the one or two after it, gives this path. */
  predicate GivesPath(argv: seq<string>, k: nat, path: string) {
    || (k + 1 < |argv| && argv[k] == "--netns-type=path" && argv[k + 1] == path)
    || (k + 2 < |argv| && argv[k] == "--netns-type" && argv[k + 1] == "path" && argv[k + 2] == path)
    || (k < |argv| && argv[k] == "--netns=" + path)
    || (k + 1 < |argv| && argv[k] == "--netns" && argv[k + 1] == path)
  }

  lemma GivesPathBehind(argv: seq<string>, k: nat, path: string)
    requires argv != []
    ensures GivesPath(argv, k + 1, path) <==> GivesPath(argv[1..], k, path)
  {
  }

  lemma GivesPathInFront(argv: seq<string>, path: string)
    requires argv != []
    ensures GivesPath(argv, 0, path) ==> NetnsPathArgument(argv) == Some(path)
    ensures (forall other :: !GivesPath(argv, 0, other)) ==> NetnsPathArgument(argv) == NetnsPathArgument(argv[1..])
  {
    if "--netns=" <= argv[0] {
      assert argv[0] == "--netns=" + argv[0][8..];
      assert GivesPath(argv, 0, argv[0][8..]);
    }
    if |argv| > 1 {
      assert argv[0] == "--netns-type=path" || argv[0] == "--netns" ==> GivesPath(argv, 0, argv[1]);
    }
    if |argv| > 2 {
      assert argv[0] == "--netns-type" && argv[1] == "path" ==> GivesPath(argv, 0, argv[2]);
    }
    assert argv[0] == "--netns=" + path ==> argv[0][8..] == path && argv[0][7] == '=';
  }

  /** It is the path that the first place gives which gives any. */
  lemma {:induction false} NetnsPathIsFirst(argv: seq<string>)
    ensures match NetnsPathArgument(argv)
      case None => forall k: nat, path :: !GivesPath(argv, k, path)
      case Some(path) => exists k: nat :: GivesPath(argv, k, path) && forall m: nat, other | m < k :: !GivesPath(argv, m, other)
  {
    if argv != [] {
      hide GivesPath;
      forall k: nat, path ensures GivesPath(argv, k + 1, path) <==> GivesPath(argv[1..], k, path) {
        GivesPathBehind(argv, k, path);
      }
      if path :| GivesPath(argv, 0, path) {
        GivesPathInFront(argv, path);
      } else {
        GivesPathInFront(argv, "");
        NetnsPathIsFirst(argv[1..]);
        forall k: nat, path | GivesPath(argv, k, path) ensures k > 0 && GivesPath(argv[1..], k - 1, path) {
        }
        hide NetnsPathArgument;
        if NetnsPathArgument(argv).Some? {
          var path := NetnsPathArgument(argv).value;
          var k: nat :| GivesPath(argv[1..], k, path) && forall m: nat, other | m < k :: !GivesPath(argv[1..], m, other);
          assert GivesPath(argv, k + 1, path);
        }
      }
    }
  }

  function HelperNetnsPathInode(pid: int, t: Table): Option<nat> {
    var path := if pid in t.argvs then NetnsPathArgument(t.argvs[pid]) else None;
    if path.Some? then Lookup(t.paths, path.value) else None
  }

  predicate HexDigits(id: string) {
    id != "" && forall c <- id :: '0' <= c <= '9' || 'a' <= c <= 'f'
  }

  function Unprefixed(component: string): string {
    if "libpod-conmon-" <= component then component[14..]
    else if "libpod-" <= component then component[7..]
    else if "crio-" <= component then component[5..]
    else component
  }

  lemma NamedIsUnprefixed(component: string, id: string)
    requires HexDigits(id)
    requires component == id || component == "libpod-conmon-" + id || component == "libpod-" + id || component == "crio-" + id
    ensures Unprefixed(component) == id
  {
    assert forall i :: 0 <= i < |id| ==> id[i] in id;
    assert "libpod-conmon-" <= component ==> component[0] == 'l' && component[8] == 'o';
    assert "libpod-" <= component ==> component[0] == 'l';
    assert "crio-" <= component ==> component[0] == 'c' && component[1] == 'r';
    if component == "libpod-conmon-" + id {
      assert component[14..] == id;
    } else if component == "libpod-" + id {
      assert component[7..] == id && (|id| > 1 ==> component[8] == id[1]);
    } else if component == "crio-" + id {
      assert component[5..] == id && component[0] == 'c';
    }
  }

  /** A component of a control-group path names at most one container, whatever prefix it carries. */
  lemma ComponentNamesOne(raw: string, a: string, b: string)
    requires HexDigits(a) && HexDigits(b) && ComponentNames(raw, a) && ComponentNames(raw, b)
    ensures a == b
  {
    NamedIsUnprefixed(TrimSuffix(TrimSpace(raw), ".scope"), a);
    NamedIsUnprefixed(TrimSuffix(TrimSpace(raw), ".scope"), b);
  }

  // ---------------------------------------------------------------- attribution

  function TargetContainerNetns(scope: Scope, t: Table): (r: Option<nat>)
    ensures r.Some? ==> r.value != 0 && Lookup(t.netns, scope.pid) == r
  {
    var inode := Lookup(t.netns, scope.pid);
    if scope.pid <= 1 || inode.None? || inode.value == 0 then None
    else if t.self.None? || t.self.value == 0 || t.self == inode then None
    else inode
  }

  predicate HelperOwnedByContainer(pid: int, id: string, target: Option<nat>, usable: bool,
                                   descendants: set<int>, t: Table) {
    || (usable && target.Some? && Lookup(t.netns, pid) == target)
    || (target.Some? && HelperNetnsPathInode(pid, t) == target)
    || pid in descendants
    || (pid in t.cgroups && CgroupNamesContainer(t.cgroups[pid], id))
    || (pid in t.argvs && ArgvNamesContainer(t.argvs[pid], id))
  }

  predicate TiedTo(pid: int, peer: Peer, t: Table) {
    peer.pid > 1
    && (|| (peer.netns != 0 && Lookup(t.netns, pid) == Some(peer.netns))
        || (peer.netns != 0 && HelperNetnsPathInode(pid, t) == Some(peer.netns))
        || (pid in t.cgroups && CgroupNamesContainer(t.cgroups[pid], peer.id))
        || (pid in t.argvs && ArgvNamesContainer(t.argvs[pid], peer.id)))
  }

  method HelperOwnedByOtherContainer(pid: int, peers: seq<Peer>, t: Table) returns (owned: bool)
    ensures owned <==> exists peer :: peer in peers && TiedTo(pid, peer, t)
  {
    hide CgroupNamesContainer, ArgvNamesContainer, HelperNetnsPathInode;
    if |peers| == 0 {
      return false;
    }
    var helperNetns := Lookup(t.netns, pid);
    var pathInode := HelperNetnsPathInode(pid, t);
    var cgroup, argv := Lookup(t.cgroups, pid), Lookup(t.argvs, pid);
    for i := 0 to |peers|
      invariant forall peer :: peer in peers[..i] ==> !TiedTo(pid, peer, t)
    {
      var peer := peers[i];
      assert peers[..i + 1] == peers[..i] + [peer];
      assert peer in peers;
      if peer.pid <= 1 {
        continue;
      }
      if peer.netns != 0 && helperNetns == Some(peer.netns) {
        return true;
      }
      if peer.netns != 0 && pathInode == Some(peer.netns) {
        return true;
      }
      if cgroup.Some? && CgroupNamesContainer(cgroup.value, peer.id) {
        return true;
      }
      if argv.Some? && ArgvNamesContainer(argv.value, peer.id) {
        return true;
      }
    }
    assert peers[..|peers|] == peers;
    return false;
  }

  /** The other containers that a listing shows running; a failed listing shows none. */
  ghost predicate ShownRunning(listing: Listing, target: string, peer: Peer, t: Table) {
    listing.Rows? && Row(peer.id, Some(peer.pid)) in listing.rows
    && peer.id != "" && peer.id != target && peer.pid > 1
    && peer.netns == NetnsOf(t, peer.pid)
  }

  function NetnsOf(t: Table, pid: int): nat {
    if pid in t.netns then t.netns[pid] else 0
  }

  method RunningPeerContainers(target: string, listing: Listing, t: Table) returns (peers: seq<Peer>, known: bool)
    ensures known == listing.Rows?
    ensures forall peer :: peer in peers <==> ShownRunning(listing, target, peer, t)
  {
    if listing.Failed? {
      return [], false;
    }
    var rows := listing.rows;
    peers, known := [], true;
    for i := 0 to |rows|
      invariant forall peer :: peer in peers <==> ShownRunning(Rows(rows[..i]), target, peer, t)
    {
      var row := rows[i];
      assert rows[..i + 1] == rows[..i] + [row];
      if row.id == "" || row.id == target || row.pid.None? || row.pid.value <= 1 {
        continue;
      }
      peers := peers + [Peer(row.id, row.pid.value, NetnsOf(t, row.pid.value))];
    }
    assert rows[..|rows|] == rows;
  }

  predicate NetworkHelper(t: Table, pid: int) {
    pid in t.processes && t.processes[pid].comm in {"slirp4netns", "pasta"} && t.processes[pid].state != "Z"
  }

  predicate ConmonVerified(scope: Scope, t: Table) {
    scope.conmon > 1 && scope.conmon in t.processes
    && t.processes[scope.conmon].comm == "conmon" && t.processes[scope.conmon].state != "Z"
  }

  /** Some exact association with the container: a namespace, a path to it, its conmon, its scope, its name. */
  ghost predicate Associated(t: Table, parent: map<int, int>, scope: Scope, listing: Listing, pid: int) {
    var target := TargetContainerNetns(scope, t);
    || (listing.Rows? && target.Some? && Lookup(t.netns, pid) == target)
    || (target.Some? && HelperNetnsPathInode(pid, t) == target)
    || (ConmonVerified(scope, t) && Within(t, parent, scope.conmon, pid, MAX_HELPER_TREE_DEPTH))
    || (pid in t.cgroups && CgroupNamesContainer(t.cgroups[pid], scope.id))
    || (pid in t.argvs && ArgvNamesContainer(t.argvs[pid], scope.id))
  }

  ghost predicate Attributed(t: Table, parent: map<int, int>, scope: Scope, listing: Listing, pid: int) {
    scope.id != "" && pid > 1 && pid != scope.pid && pid != scope.conmon && NetworkHelper(t, pid)
    && (forall peer :: ShownRunning(listing, scope.id, peer, t) ==> !TiedTo(pid, peer, t))
    && Associated(t, parent, scope, listing, pid)
  }

  /** In the terms of the table: a live slirp4netns or pasta, not the container's own process nor its conmon, that
    * nothing ties to another running container, and something exact to this one. */
  lemma AttributedMeans(t: Table, parent: map<int, int>, scope: Scope, listing: Listing, pid: int)
    ensures Attributed(t, parent, scope, listing, pid) <==>
      && scope.id != "" && pid !in {scope.pid, scope.conmon} && pid >= 2 && pid in t.processes
      && (t.processes[pid].comm == "slirp4netns" || t.processes[pid].comm == "pasta") && t.processes[pid].state != "Z"
      && (listing.Rows? ==>
            forall row <- listing.rows | row.id != "" && row.id != scope.id && row.pid.Some? && row.pid.value >= 2 ::
              !(NetnsOf(t, row.pid.value) != 0
                && (Lookup(t.netns, pid) == Some(NetnsOf(t, row.pid.value)) || HelperNetnsPathInode(pid, t) == Some(NetnsOf(t, row.pid.value))))
              && !(pid in t.cgroups && CgroupNamesContainer(t.cgroups[pid], row.id))
              && !(pid in t.argvs && ArgvNamesContainer(t.argvs[pid], row.id)))
      && (|| (scope.pid >= 2 && NetnsOf(t, scope.pid) != 0 && t.self.Some? && t.self.value !in {0, NetnsOf(t, scope.pid)}
              && ((listing.Rows? && Lookup(t.netns, pid) == Some(NetnsOf(t, scope.pid)))
                  || HelperNetnsPathInode(pid, t) == Some(NetnsOf(t, scope.pid))))
          || (scope.conmon >= 2 && Lookup(t.processes, scope.conmon).Some? && t.processes[scope.conmon].comm == "conmon"
              && t.processes[scope.conmon].state != "Z" && Within(t, parent, scope.conmon, pid, 8))
          || (pid in t.cgroups && CgroupNamesContainer(t.cgroups[pid], scope.id))
          || (pid in t.argvs && ArgvNamesContainer(t.argvs[pid], scope.id)))
  {
    hide HelperNetnsPathInode, CgroupNamesContainer, ArgvNamesContainer, Within;
    if listing.Rows? {
      forall row <- listing.rows | row.id != "" && row.id != scope.id && row.pid.Some? && row.pid.value >= 2
        ensures ShownRunning(listing, scope.id, Peer(row.id, row.pid.value, NetnsOf(t, row.pid.value)), t)
      {
        assert row == Row(row.id, Some(row.pid.value));
      }
    }
  }

  ghost function HelpersAmong(t: Table, parent: map<int, int>, scope: Scope, listing: Listing, pids: seq<int>): seq<Helper> {
    if pids == [] then []
    else
      var before, pid := HelpersAmong(t, parent, scope, listing, pids[..|pids| - 1]), pids[|pids| - 1];
      if Attributed(t, parent, scope, listing, pid) then before + [Helper(pid, t.processes[pid])] else before
  }

  method ObserveNetworkHelpers(t: Table, ghost parent: map<int, int>, scope: Scope, listing: Listing)
    returns (helpers: seq<Helper>)
    requires Forest(t, parent)
    ensures helpers == if t.pids.Some? then HelpersAmong(t, parent, scope, listing, t.pids.value) else []
  {
    hide Within, TiedTo, ShownRunning, TargetContainerNetns, HelperNetnsPathInode, CgroupNamesContainer, ArgvNamesContainer;
    helpers := [];
    if scope.id == "" {
      NoIdNoHelpers(t, parent, scope, listing);
      return;
    }
    var target := TargetContainerNetns(scope, t);
    var usable := target.Some?;
    var tree := new Tree();
    if ConmonVerified(scope, t) {
      CollectProcessTree(t, parent, scope.conmon, tree, 0);
    }
    var descendants := tree.found;
    var peers, known := RunningPeerContainers(scope.id, listing, t);
    if !known {
      usable := false;
    }
    if t.pids.None? {
      return;
    }
    var pids := t.pids.value;
    for i := 0 to |pids|
      invariant helpers == HelpersAmong(t, parent, scope, listing, pids[..i])
    {
      var pid := pids[i];
      assert pids[..i + 1][..i] == pids[..i];
      if pid <= 1 || pid == scope.pid || pid == scope.conmon {
        continue;
      }
      if !NetworkHelper(t, pid) {
        continue;
      }
      var others := HelperOwnedByOtherContainer(pid, peers, t);
      if others {
        continue;
      }
      var own := HelperOwnedByContainer(pid, scope.id, target, usable, descendants, t);
      assert own == Attributed(t, parent, scope, listing, pid);
      if own {
        helpers := helpers + [Helper(pid, t.processes[pid])];
      }
    }
    assert pids[..|pids|] == pids;
  }

  lemma {:induction pids} NoIdNoHelpersAmong(t: Table, parent: map<int, int>, scope: Scope, listing: Listing, pids: seq<int>)
    requires scope.id == ""
    ensures HelpersAmong(t, parent, scope, listing, pids) == []
  {
  }

  lemma NoIdNoHelpers(t: Table, parent: map<int, int>, scope: Scope, listing: Listing)
    requires scope.id == ""
    ensures t.pids.Some? ==> HelpersAmong(t, parent, scope, listing, t.pids.value) == []
  {
    if t.pids.Some? {
      NoIdNoHelpersAmong(t, parent, scope, listing, t.pids.value);
    }
  }

  // ---------------------------------------------------------------- two cells, one reading of the process table

  /** Two running cells, each observed with its own listing against the same process table. */
  datatype World = World(t: Table, parent: map<int, int>, a: Scope, listA: Listing, b: Scope, listB: Listing)

  /** Each cell's conmon was read and recognized; where one was not, its tree is not walked. */
  predicate BothTrees(w: World) {
    ConmonVerified(w.a, w.t) && ConmonVerified(w.b, w.t)
  }

  ghost predicate TwoCells(w: World) {
    Forest(w.t, w.parent) && w.a.id != "" && w.b.id != "" && w.a.id != w.b.id
    && w.a.pid > 1 && w.b.pid > 1 && (BothTrees(w) ==> w.a.conmon != w.b.conmon)
  }

  predicate Names(listing: Listing, cell: Scope) {
    listing.Rows? && Row(cell.id, Some(cell.pid)) in listing.rows
  }

  /** Neither of two recognized conmons runs below the other. */
  ghost predicate ConmonsApart(w: World) {
    BothTrees(w) ==> forall n: nat :: n > 0 ==>
      !Below(w.t, w.parent, w.a.conmon, w.b.conmon, n) && !Below(w.t, w.parent, w.b.conmon, w.a.conmon, n)
  }

  ghost predicate Contested(w: World) {
    exists pid :: Attributed(w.t, w.parent, w.a, w.listA, pid) && Attributed(w.t, w.parent, w.b, w.listB, pid)
  }

  /** A helper attributed to one cell while the other is listed was found below its conmon and nowhere else. */
  lemma OnlyTheTreeIsLeft(t: Table, parent: map<int, int>, mine: Scope, list: Listing,
                          other: Scope, otherList: Listing, pid: int)
    requires mine.id != "" && other.id != "" && mine.id != other.id && mine.pid > 1
    requires Names(otherList, mine) && Attributed(t, parent, mine, list, pid) && Attributed(t, parent, other, otherList, pid)
    ensures ConmonVerified(mine, t) && Within(t, parent, mine.conmon, pid, MAX_HELPER_TREE_DEPTH)
  {
    hide Within, HelperNetnsPathInode, CgroupNamesContainer, ArgvNamesContainer;
    var peer := Peer(mine.id, mine.pid, NetnsOf(t, mine.pid));
    assert ShownRunning(otherList, other.id, peer, t);
    assert !TiedTo(pid, peer, t);
  }

  /** Cells that list each other, with separate conmon trees, never claim the same helper. */
  lemma CellsApart(w: World)
    requires TwoCells(w) && Names(w.listA, w.b) && Names(w.listB, w.a) && ConmonsApart(w)
    ensures !Contested(w)
  {
    forall pid
      ensures !(Attributed(w.t, w.parent, w.a, w.listA, pid) && Attributed(w.t, w.parent, w.b, w.listB, pid))
    {
      if Attributed(w.t, w.parent, w.a, w.listA, pid) && Attributed(w.t, w.parent, w.b, w.listB, pid) {
        OnlyTheTreeIsLeft(w.t, w.parent, w.a, w.listA, w.b, w.listB, pid);
        OnlyTheTreeIsLeft(w.t, w.parent, w.b, w.listB, w.a, w.listA, pid);
        TreesNest(w.t, w.parent, w.a.conmon, w.b.conmon, pid);
      }
    }
  }

  lemma TreesNest(t: Table, parent: map<int, int>, a: int, b: int, pid: int)
    requires a != b && Within(t, parent, a, pid, MAX_HELPER_TREE_DEPTH) && Within(t, parent, b, pid, MAX_HELPER_TREE_DEPTH)
    ensures exists n: nat :: n > 0 && (Below(t, parent, a, b, n) || Below(t, parent, b, a, n))
  {
    var n: nat :| Below(t, parent, a, pid, n);
    var m: nat :| Below(t, parent, b, pid, m);
    if n <= m {
      Nested(t, parent, a, b, pid, n, m);
    } else {
      Nested(t, parent, b, a, pid, m, n);
    }
  }

  method ObserveTwoCells(w: World) returns (helpersA: seq<Helper>, helpersB: seq<Helper>)
    requires TwoCells(w)
    ensures Names(w.listA, w.b) && Names(w.listB, w.a) && ConmonsApart(w) ==>
      forall i, j :: 0 <= i < |helpersA| && 0 <= j < |helpersB| ==> helpersA[i].pid != helpersB[j].pid
  {
    helpersA := ObserveNetworkHelpers(w.t, w.parent, w.a, w.listA);
    helpersB := ObserveNetworkHelpers(w.t, w.parent, w.b, w.listB);
    if w.t.pids.Some? {
      HelpersAreAttributed(w.t, w.parent, w.a, w.listA, w.t.pids.value);
      HelpersAreAttributed(w.t, w.parent, w.b, w.listB, w.t.pids.value);
    }
    if Names(w.listA, w.b) && Names(w.listB, w.a) && ConmonsApart(w) {
      CellsApart(w);
    }
  }

  lemma {:induction false} HelpersAreAttributed(t: Table, parent: map<int, int>, scope: Scope, listing: Listing, pids: seq<int>)
    ensures forall h <- HelpersAmong(t, parent, scope, listing, pids) ::
      h.pid in pids && Attributed(t, parent, scope, listing, h.pid) && t.processes[h.pid] == h.process
    ensures forall pid <- pids :: Attributed(t, parent, scope, listing, pid) ==>
      Helper(pid, t.processes[pid]) in HelpersAmong(t, parent, scope, listing, pids)
  {
    hide Attributed;
    if pids != [] {
      var before := pids[..|pids| - 1];
      HelpersAreAttributed(t, parent, scope, listing, before);
      assert pids == before + [pids[|pids| - 1]];
    }
  }

  /** Which of three conditions rule out a contested helper in every process table. */
  ghost predicate Suffice(listsB: bool, listsA: bool, apart: bool) {
    forall w: World ::
      TwoCells(w) && (listsB ==> Names(w.listA, w.b)) && (listsA ==> Names(w.listB, w.a)) && (apart ==> ConmonsApart(w))
      ==> !Contested(w)
  }

  /** Both listings and the separate conmon trees are needed: without any one, some helper is claimed twice. */
  lemma AllThreeNeeded(listsB: bool, listsA: bool, apart: bool)
    ensures Suffice(listsB, listsA, apart) <==> listsB && listsA && apart
  {
    if listsB && listsA && apart {
      forall w: World | TwoCells(w) && Names(w.listA, w.b) && Names(w.listB, w.a) && ConmonsApart(w)
        ensures !Contested(w)
      {
        CellsApart(w);
      }
    } else if !listsB {
      var w := UnlistedPeer();
    } else if !listsA {
      var w := Mirrored();
    } else {
      var w := NestedConmons();
    }
  }

  lemma {:induction false} ParentsPrecede(parent: map<int, int>, x: int, n: nat)
    requires forall c <- parent :: parent[c] < c
    ensures Ancestor(parent, x, n).Some? ==> Ancestor(parent, x, n).value <= x - n
    decreases n
  {
    if n > 0 && x in parent {
      ParentsPrecede(parent, parent[x], n - 1);
    }
  }

  lemma PrecedingIsForest(t: Table, parent: map<int, int>)
    requires forall c <- parent :: parent[c] < c
    requires forall p, c :: Listed(t, p, c) ==> c in parent && parent[c] == p
    ensures Forest(t, parent)
  {
    forall x, n: nat | n > 0 ensures Ancestor(parent, x, n) != Some(x) {
      ParentsPrecede(parent, x, n);
    }
  }

  const CONMON := Process(1, "conmon", "S")
  const SLIRP := Process(2, "slirp4netns", "S")

  /** The listing made for cell A failed; its conmon started a helper whose arguments name cell B. */
  lemma UnlistedPeer() returns (w: World)
    ensures TwoCells(w) && w.listA == Failed && Names(w.listB, w.a) && ConmonsApart(w) && Contested(w)
  {
    var t := Table(Some([50]), map[10 := CONMON, 50 := SLIRP], map[], map[], map[50 := ["b"]], map[10 := [50]], map[], None);
    w := World(t, map[50 := 10], Scope("a", 11, 10), Failed, Scope("b", 21, 20), Rows([Row("a", Some(11))]));
    PrecedingIsForest(t, w.parent);
    assert Below(t, w.parent, 10, 10, 0) && Below(t, w.parent, 10, 50, 1);
    assert Attributed(t, w.parent, w.a, w.listA, 50);
    assert Attributed(t, w.parent, w.b, w.listB, 50);
  }

  lemma Mirrored() returns (w: World)
    ensures TwoCells(w) && Names(w.listA, w.b) && w.listB == Failed && ConmonsApart(w) && Contested(w)
  {
    var v := UnlistedPeer();
    w := World(v.t, v.parent, v.b, v.listB, v.a, v.listA);
    var pid :| Attributed(v.t, v.parent, v.a, v.listA, pid) && Attributed(v.t, v.parent, v.b, v.listB, pid);
    assert Attributed(w.t, w.parent, w.a, w.listA, pid) && Attributed(w.t, w.parent, w.b, w.listB, pid);
  }

  /** Cell B's conmon runs below cell A's, and started a helper that carries no other sign. */
  lemma NestedConmons() returns (w: World)
    ensures TwoCells(w) && Names(w.listA, w.b) && Names(w.listB, w.a) && Contested(w)
  {
    var t := Table(Some([50]), map[10 := CONMON, 20 := CONMON, 50 := SLIRP], map[], map[], map[],
                   map[10 := [20], 20 := [50]], map[], None);
    w := World(t, map[20 := 10, 50 := 20], Scope("a", 11, 10), Rows([Row("b", Some(21))]),
               Scope("b", 21, 20), Rows([Row("a", Some(11))]));
    PrecedingIsForest(t, w.parent);
    assert Below(t, w.parent, 10, 10, 0) && Below(t, w.parent, 10, 20, 1) && Below(t, w.parent, 10, 50, 2);
    assert Below(t, w.parent, 20, 20, 0) && Below(t, w.parent, 20, 50, 1);
    assert Attributed(t, w.parent, w.a, w.listA, 50);
    assert Attributed(t, w.parent, w.b, w.listB, 50);
  }
}
