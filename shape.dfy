/** The shape of tables the bridge builds: a tree of values, and what it
    means for a value in a heap to be exactly that tree. */
module Shape {
  import opened LuaApi

  /** A Lua value seen as a tree: a non-table leaf, or a table whose fields
      are exactly the given keys, each holding a subtree. */
  datatype LuaTree = Leaf(v: Val) | Node(fields: map<Key, LuaTree>)

  /** v holds exactly t in h, and every table of t is one of the refs in A. */
  ghost predicate Denotes(h: Heap, v: Val, t: LuaTree, A: set<Ref>)
    decreases t
  {
    match t
    case Leaf(x) => v == x
    case Node(m) =>
      && v.TableRef? && v.ref in A && v.ref in h
      && h[v.ref].fields.Keys == m.Keys
      && forall k :: k in m ==> Denotes(h, h[v.ref].fields[k], m[k], A)
  }

  /** Table r holds exactly the fields m so far, and each field's subtree
      is made of tables allocated after base, other than r itself. */
  ghost predicate Filling(h: Heap, r: Ref, m: map<Key, LuaTree>, base: set<Ref>)
  {
    && r in h
    && h[r].fields.Keys == m.Keys
    && forall k :: k in m ==> Denotes(h, h[r].fields[k], m[k], h.Keys - base - {r})
  }

  /** Every table of h0 is still there and unchanged in h1. */
  ghost predicate KeepsOld(h0: Heap, h1: Heap)
  {
    h0.Keys <= h1.Keys && forall x :: x in h0 ==> h1[x] == h0[x]
  }

  /** As KeepsOld, except for table r. */
  ghost predicate OnlyTouches(h0: Heap, h1: Heap, r: Ref)
  {
    h0.Keys <= h1.Keys && forall x :: x in h0 && x != r ==> h1[x] == h0[x]
  }

  /** A tree's denotation depends only on the tables it may use. */
  lemma {:induction false} DenotesFrame(h: Heap, h': Heap, v: Val, t: LuaTree, A: set<Ref>, B: set<Ref>)
    requires Denotes(h, v, t, A) && A <= B
    requires forall x :: x in A && x in h ==> x in h' && h'[x] == h[x]
    ensures Denotes(h', v, t, B)
    decreases t
  {
    match t
    case Leaf(_) =>
    case Node(m) =>
      forall k | k in m
        ensures Denotes(h', h'[v.ref].fields[k], m[k], B)
      {
        DenotesFrame(h, h', h[v.ref].fields[k], m[k], A, B);
      }
  }

  /** A finished table denotes the node of its fields. */
  lemma Close(h: Heap, r: Ref, m: map<Key, LuaTree>, base: set<Ref>)
    requires Filling(h, r, m, base) && r !in base
    ensures Denotes(h, TableRef(r), Node(m), h.Keys - base)
  {
    forall k | k in m
      ensures Denotes(h, h[r].fields[k], m[k], h.Keys - base)
    {
      DenotesFrame(h, h, h[r].fields[k], m[k], h.Keys - base - {r}, h.Keys - base);
    }
  }

  /** Storing a non-nil leaf value under key k of the table being filled. */
  lemma BindLeaf(h: Heap, h': Heap, p: Ref, m: map<Key, LuaTree>, base: set<Ref>, k: Key, v: Val)
    requires Filling(h, p, m, base) && v != Nil
    requires h' == h[p := Store(h[p], k, v)]
    ensures Filling(h', p, m[k := Leaf(v)], base)
    ensures OnlyTouches(h, h', p)
  {
    forall k' | k' in m && k' != k
      ensures Denotes(h', h'[p].fields[k'], m[k'], h'.Keys - base - {p})
    {
      DenotesFrame(h, h', h[p].fields[k'], m[k'], h.Keys - base - {p}, h'.Keys - base - {p});
    }
  }

  /** Storing a finished child table c, built after h, under key k of p. */
  lemma BindChild(h: Heap, h1: Heap, h2: Heap, p: Ref, m: map<Key, LuaTree>, base: set<Ref>,
                  c: Ref, mc: map<Key, LuaTree>, k: Key)
    requires Filling(h, p, m, base) && base <= h.Keys && c !in h
    requires KeepsOld(h, h1) && Filling(h1, c, mc, h.Keys)
    requires h2 == h1[p := Store(h1[p], k, TableRef(c))]
    ensures Filling(h2, p, m[k := Node(mc)], base)
    ensures OnlyTouches(h, h2, p)
  {
    var A := h2.Keys - base - {p};
    Close(h1, c, mc, h.Keys);
    DenotesFrame(h1, h2, TableRef(c), Node(mc), h1.Keys - h.Keys, A);
    forall k' | k' in m && k' != k
      ensures Denotes(h2, h2[p].fields[k'], m[k'], A)
    {
      DenotesFrame(h, h2, h[p].fields[k'], m[k'], h.Keys - base - {p}, A);
    }
  }

  /** The first n elements of trees as a Lua sequence: key j holds element
      j-1, for j from 1 to n. */
  function Entries(trees: seq<LuaTree>, n: nat): map<Key, LuaTree>
    requires n <= |trees|
  {
    if n == 0 then map[] else Entries(trees, n - 1)[KInt(n) := trees[n - 1]]
  }

  /** A sequence table has exactly the integer keys 1..n, in order. */
  lemma {:induction false} EntriesShape(trees: seq<LuaTree>, n: nat)
    requires n <= |trees|
    ensures forall k :: k in Entries(trees, n) <==> k.KInt? && 1 <= k.n <= n
    ensures forall j :: 1 <= j <= n ==> Entries(trees, n)[KInt(j)] == trees[j - 1]
  {
    if n > 0 {
      EntriesShape(trees, n - 1);
    }
  }
}
