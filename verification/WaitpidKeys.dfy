/**
 The ordering of waitpid map keys, and what it makes of lookups in a search tree.  The map's tree
 may have any shape; a lookup scans a node's keys from the left and descends where the probe
 compares less.
 */
module WaitpidKeys {
  import opened Prelude
  import opened ProcModel

  datatype Key = Key(pid: Option<Pid>, pgid: Option<Pid>)
  datatype Ordering = Less | Equal | Greater

  function CmpPid(a: Pid, b: Pid): Ordering {
    if a < b then Less else if a == b then Equal else Greater
  }

  /** By pid if both have one, else by pgid if both have one, else by which fields are there. */
  function Cmp(a: Key, b: Key): Ordering {
    if a.pid.Some? && b.pid.Some? then CmpPid(a.pid.value, b.pid.value)
    else if a.pgid.Some? && b.pgid.Some? then CmpPid(a.pgid.value, b.pgid.value)
    else if a.pid.Some? then Greater
    else if b.pid.Some? then Less
    else if a.pgid.Some? then Greater
    else if b.pgid.Some? then Less
    else Equal
  }

  /** The comparison is not transitive on all keys. */
  lemma NotTransitive()
    ensures exists a, b, c :: Cmp(a, b) == Less && Cmp(b, c) == Less && Cmp(a, c) == Greater
  {
    var a, b, c := Key(Some(5), Some(1)), Key(None, Some(2)), Key(Some(3), None);
    assert Cmp(a, b) == Less && Cmp(b, c) == Less && Cmp(a, c) == Greater;
  }

  /** A key as it is stored: both fields are there. */
  ghost predicate Stored(k: Key) { k.pid.Some? && k.pgid.Some? }

  /** On stored keys it is the total order of their pids. */
  lemma TotalOnStored(a: Key, b: Key, c: Key)
    requires Stored(a) && Stored(b) && Stored(c)
    ensures Cmp(a, b) == CmpPid(a.pid.value, b.pid.value)
    ensures Cmp(a, b) == Less <==> Cmp(b, a) == Greater
    ensures Cmp(a, b) == Equal <==> a.pid == b.pid
    ensures Cmp(a, b) != Greater && Cmp(b, c) != Greater ==> Cmp(a, c) != Greater
  {}

  // ---------------------------------------------------------------- search trees

  /** A node without children is a leaf; otherwise there is a child on each side of every key. */
  datatype Tree = Node(keys: seq<Key>, kids: seq<Tree>) {
    ghost predicate Valid()
      decreases this
    {
      && (kids == [] || |kids| == |keys| + 1)
      && forall i | 0 <= i < |kids| :: kids[i].Valid()
    }
  }

  function Inorder(t: Tree): seq<Key>
    requires t.Valid()
    decreases t, |t.kids| + 1
  {
    if t.kids == [] then t.keys else Weave(t, t.keys, t.kids)
  }

  /** The keys of `kids[0]`, then `keys[0]`, then the keys of `kids[1]`, and so on. */
  function Weave(t: Tree, keys: seq<Key>, kids: seq<Tree>): seq<Key>
    requires |kids| == |keys| + 1
    requires forall i | 0 <= i < |kids| :: kids[i].Valid() && kids[i] < t
    decreases t, |kids|
  {
    if keys == [] then Inorder(kids[0])
    else Inorder(kids[0]) + [keys[0]] + Weave(t, keys[1..], kids[1..])
  }

  /** The first key the probe is not greater than. */
  function Scan(keys: seq<Key>, probe: Key): (i: nat)
    ensures i <= |keys|
    ensures forall k | 0 <= k < i :: Cmp(probe, keys[k]) == Greater
    ensures i < |keys| ==> Cmp(probe, keys[i]) != Greater
  {
    if keys == [] || Cmp(probe, keys[0]) != Greater then 0 else 1 + Scan(keys[1..], probe)
  }

  function Search(t: Tree, probe: Key): (r: Option<Key>)
    requires t.Valid()
    decreases t
  {
    var i := Scan(t.keys, probe);
    if i < |t.keys| && Cmp(probe, t.keys[i]) == Equal then Some(t.keys[i])
    else if t.kids == [] then None
    else Search(t.kids[i], probe)
  }

  // ---------------------------------------------------------------- which probes are answered

  /** Between `lo` and `hi`, fenced by keys the probe is greater and less than, nothing matches. */
  ghost predicate BarrenGap(s: seq<Key>, probe: Key, lo: nat, hi: nat) {
    && lo <= hi <= |s|
    && (lo == 0 || Cmp(probe, s[lo - 1]) == Greater)
    && (hi == |s| || Cmp(probe, s[hi]) == Less)
    && forall k | lo <= k < hi :: Cmp(probe, s[k]) != Equal
  }

  ghost predicate NoBarrenGap(s: seq<Key>, probe: Key) {
    forall lo: nat, hi: nat :: !BarrenGap(s, probe, lo, hi)
  }

  /** Where a child's keys lie in the whole, and which keys fence them. */
  lemma {:induction false} ChildSpan(t: Tree, keys: seq<Key>, kids: seq<Tree>, i: nat) returns (lo: nat, hi: nat)
    requires |kids| == |keys| + 1 && i < |kids|
    requires forall j | 0 <= j < |kids| :: kids[j].Valid() && kids[j] < t
    ensures lo <= hi <= |Weave(t, keys, kids)|
    ensures Weave(t, keys, kids)[lo..hi] == Inorder(kids[i])
    ensures if i == 0 then lo == 0 else lo > 0 && Weave(t, keys, kids)[lo - 1] == keys[i - 1]
    ensures if i == |keys| then hi == |Weave(t, keys, kids)| else hi < |Weave(t, keys, kids)| && Weave(t, keys, kids)[hi] == keys[i]
    decreases i
  {
    var w, first := Weave(t, keys, kids), Inorder(kids[0]);
    if i == 0 {
      lo, hi := 0, |first|;
      assert w[..|first|] == first;
    } else {
      var rest := Weave(t, keys[1..], kids[1..]);
      var lo', hi' := ChildSpan(t, keys[1..], kids[1..], i - 1);
      var off := |first| + 1;
      lo, hi := off + lo', off + hi';
      assert w == first + [keys[0]] + rest;
      assert w[off..] == rest;
      assert w[lo..hi] == rest[lo'..hi'];
    }
  }

  lemma {:induction false} KeysInorder(t: Tree, i: nat)
    requires t.Valid() && i < |t.keys|
    ensures t.keys[i] in Inorder(t)
  {
    if t.kids != [] {
      var lo, hi := ChildSpan(t, t.keys, t.kids, i);
    }
  }

  /** What is found is stored and matches the probe. */
  lemma {:induction false} SearchSound(t: Tree, probe: Key)
    requires t.Valid() && Search(t, probe).Some?
    ensures Search(t, probe).value in Inorder(t) && Cmp(probe, Search(t, probe).value) == Equal
    decreases t
  {
    var i := Scan(t.keys, probe);
    if i < |t.keys| && Cmp(probe, t.keys[i]) == Equal {
      KeysInorder(t, i);
    } else {
      SearchSound(t.kids[i], probe);
      var lo, hi := ChildSpan(t, t.keys, t.kids, i);
      assert Search(t, probe).value in Inorder(t)[lo..hi];
    }
  }

  /** A gap in a stretch of the keys whose neighbours point into it is a gap in all of them. */
  lemma GapLifts(s: seq<Key>, child: seq<Key>, probe: Key, lo: nat, hi: nat, a: nat, b: nat)
    requires lo <= hi <= |s| && s[lo..hi] == child && BarrenGap(child, probe, a, b)
    requires lo > 0 ==> Cmp(probe, s[lo - 1]) == Greater
    requires hi < |s| ==> Cmp(probe, s[hi]) == Less
    ensures BarrenGap(s, probe, lo + a, lo + b)
  {
    assert forall k | 0 <= k < |child| :: s[lo + k] == child[k];
    forall k | lo + a <= k < lo + b ensures s[k] == child[k - lo] {}
  }

  /** Without a barren gap, the search finds a match whatever the shape of the tree. */
  lemma {:induction false} SearchFinds(t: Tree, probe: Key)
    requires t.Valid() && NoBarrenGap(Inorder(t), probe)
    ensures Search(t, probe).Some?
    decreases t
  {
    var i := Scan(t.keys, probe);
    var s := Inorder(t);
    if i < |t.keys| && Cmp(probe, t.keys[i]) == Equal {
    } else if t.kids == [] {
      assert BarrenGap(s, probe, i, i);
    } else {
      var lo, hi := ChildSpan(t, t.keys, t.kids, i);
      var child := Inorder(t.kids[i]);
      forall a: nat, b: nat ensures !BarrenGap(child, probe, a, b) {
        if BarrenGap(child, probe, a, b) { GapLifts(s, child, probe, lo, hi, a, b); }
      }
      SearchFinds(t.kids[i], probe);
    }
  }

  function Leaf(keys: seq<Key>): (t: Tree)
    ensures t.Valid() && Inorder(t) == keys
  {
    Node(keys, [])
  }

  /** A key with a leaf on either side. */
  function Fork2(left: Tree, key: Key, right: Tree): (t: Tree)
    requires left.Valid() && right.Valid()
    ensures t.Valid() && Inorder(t) == Inorder(left) + [key] + Inorder(right)
  {
    var t := Node([key], [left, right]);
    assert t.kids[0] == left && t.kids[1] == right;
    assert Inorder(t) == Weave(t, t.keys, t.kids);
    assert Weave(t, [key][1..], [left, right][1..]) == Inorder(right);
    t
  }

  /** A barren gap has a tree of its own that the probe gets lost in. */
  lemma GapDefeatsSearch(s: seq<Key>, probe: Key, lo: nat, hi: nat) returns (t: Tree)
    requires BarrenGap(s, probe, lo, hi)
    ensures t.Valid() && Inorder(t) == s && Search(t, probe).None?
  {
    var gap := Leaf(s[lo..hi]);
    assert Search(gap, probe).None? by { var i := Scan(s[lo..hi], probe); }
    var left := gap;
    if lo > 0 {
      left := Fork2(Leaf(s[..lo - 1]), s[lo - 1], gap);
      assert Scan([s[lo - 1]], probe) == 1;
      assert s[..lo - 1] + [s[lo - 1]] + s[lo..hi] == s[..hi];
    } else {
      assert s[lo..hi] == s[..hi];
    }
    t := left;
    if hi < |s| {
      t := Fork2(left, s[hi], Leaf(s[hi + 1..]));
      assert Scan([s[hi]], probe) == 0;
      assert s[..hi] + [s[hi]] + s[hi + 1..] == s;
    } else {
      assert s[..hi] == s;
    }
  }

  /** Exactly when a probe succeeds in every tree over the same keys in the same order. */
  lemma SearchSucceedsIff(s: seq<Key>, probe: Key)
    ensures (forall t: Tree | t.Valid() && Inorder(t) == s :: Search(t, probe).Some?) <==> NoBarrenGap(s, probe)
  {
    if NoBarrenGap(s, probe) {
      forall t: Tree | t.Valid() && Inorder(t) == s ensures Search(t, probe).Some? { SearchFinds(t, probe); }
    } else {
      var lo: nat, hi: nat :| BarrenGap(s, probe, lo, hi);
      var t := GapDefeatsSearch(s, probe, lo, hi);
    }
  }

  // ---------------------------------------------------------------- the two probes waitpid makes

  ghost predicate SortedByPid(s: seq<Key>) {
    && (forall i | 0 <= i < |s| :: Stored(s[i]))
    && (forall i, j | 0 <= i < j < |s| :: s[i].pid.value < s[j].pid.value)
  }

  ghost predicate PgidsAscend(s: seq<Key>) {
    forall i, j | 0 <= i < j < |s| :: Stored(s[i]) && Stored(s[j]) ==> s[i].pgid.value <= s[j].pgid.value
  }

  function ByPid(p: Pid): Key { Key(Some(p), None) }
  function ByPgid(g: Pid): Key { Key(None, Some(g)) }

  /** A probe that sees the keys as less, then equal, then greater leaves no barren gap. */
  lemma MonotoneHasNoGap(s: seq<Key>, probe: Key, m: nat)
    requires m < |s| && Cmp(probe, s[m]) == Equal
    requires forall k | 0 <= k < m :: Cmp(probe, s[k]) != Less
    requires forall k | m < k < |s| :: Cmp(probe, s[k]) != Greater
    ensures NoBarrenGap(s, probe)
  {
    forall lo: nat, hi: nat ensures !BarrenGap(s, probe, lo, hi) {
      assert BarrenGap(s, probe, lo, hi) ==> lo <= m < hi;
    }
  }

  /** A probe by pid finds that child's record, and only that, in any tree. */
  lemma PidProbeExact(t: Tree, p: Pid)
    requires t.Valid() && SortedByPid(Inorder(t))
    ensures Search(t, ByPid(p)).Some? <==> exists k :: k in Inorder(t) && k.pid == Some(p)
    ensures Search(t, ByPid(p)).Some? ==> Search(t, ByPid(p)).value in Inorder(t) && Search(t, ByPid(p)).value.pid == Some(p)
  {
    var s := Inorder(t);
    if Search(t, ByPid(p)).Some? { SearchSound(t, ByPid(p)); }
    if k :| k in s && k.pid == Some(p) {
      var m :| 0 <= m < |s| && s[m] == k;
      MonotoneHasNoGap(s, ByPid(p), m);
      SearchFinds(t, ByPid(p));
    }
  }

  /** A probe by group only ever finds a record of that group, and finds one if pgids ascend with pids. */
  lemma PgidProbe(t: Tree, g: Pid)
    requires t.Valid() && SortedByPid(Inorder(t))
    ensures Search(t, ByPgid(g)).Some? ==> Search(t, ByPgid(g)).value in Inorder(t) && Search(t, ByPgid(g)).value.pgid == Some(g)
    ensures PgidsAscend(Inorder(t)) ==>
              (Search(t, ByPgid(g)).Some? <==> exists k :: k in Inorder(t) && k.pgid == Some(g))
  {
    var s := Inorder(t);
    if Search(t, ByPgid(g)).Some? { SearchSound(t, ByPgid(g)); }
    if PgidsAscend(s) {
      if k :| k in s && k.pgid == Some(g) {
        var m :| 0 <= m < |s| && s[m] == k;
        MonotoneHasNoGap(s, ByPgid(g), m);
        SearchFinds(t, ByPgid(g));
      }
    }
  }

  // ---------------------------------------------------------------- the waitpid map as such a tree

  /** `t` holds exactly the keys of the records in `m`, in pid order. */
  ghost predicate Holds(t: Tree, m: map<Pid, Record>) {
    && t.Valid()
    && SortedByPid(Inorder(t))
    && forall k :: k in Inorder(t) <==> k.pid.Some? && k.pid.value in m && k.pgid == Some(m[k.pid.value].pgid)
  }

  function HitOf(found: Option<Key>): Option<Pid> {
    if found.Some? then found.value.pid else None
  }

  lemma PidSelects(t: Tree, m: map<Pid, Record>, own: Pid, p: Pid)
    requires Holds(t, m)
    ensures Select(m, SingleProc(p), own, None) == HitOf(Search(t, ByPid(p)))
  {
    PidProbeExact(t, p);
    if p in m { assert Key(Some(p), Some(m[p].pgid)) in Inorder(t); }
  }

  lemma PgidSelects(t: Tree, m: map<Pid, Record>, own: Pid, g: Pid)
    requires Holds(t, m)
    ensures Select(m, ProcGroup(g), own, HitOf(Search(t, ByPgid(g)))) == HitOf(Search(t, ByPgid(g)))
    ensures Select(m, AnyGroupMember, g, HitOf(Search(t, ByPgid(g)))) == HitOf(Search(t, ByPgid(g)))
  {
    PgidProbe(t, g);
  }

  lemma FirstSelects(t: Tree, m: map<Pid, Record>, own: Pid)
    requires Holds(t, m) && m != map[]
    ensures Inorder(t) != [] && Select(m, AnyChild, own, None) == Inorder(t)[0].pid
  {
    var s, low := Inorder(t), First(m);
    assert Key(Some(low), Some(m[low].pgid)) in s;
    assert s[0] in s;
  }

  /** What the tree search returns is what the step function selects, for every kind of lookup. */
  lemma SelectIsSearch(t: Tree, m: map<Pid, Record>, own: Pid, g: Pid, p: Pid)
    requires Holds(t, m)
    ensures Select(m, SingleProc(p), own, None) == HitOf(Search(t, ByPid(p)))
    ensures Select(m, ProcGroup(g), own, HitOf(Search(t, ByPgid(g)))) == HitOf(Search(t, ByPgid(g)))
    ensures Select(m, AnyGroupMember, own, HitOf(Search(t, ByPgid(own)))) == HitOf(Search(t, ByPgid(own)))
    ensures m != map[] ==> Inorder(t) != [] && Select(m, AnyChild, own, None) == Inorder(t)[0].pid
  {
    PidSelects(t, m, own, p);
    PgidSelects(t, m, own, g);
    PgidSelects(t, m, own, own);
    if m != map[] { FirstSelects(t, m, own); }
  }
}
