/** Thread-specific data: every value set under a key with a destructor has an association,
    a node on two doubly linked lists, its thread's and its key's. Node fields are maps from
    addresses to values, so that freeing a node, using its address again and following a
    dangling pointer are all visible. */
module Tsd {

  datatype Ptr = Null | To(a: nat)

  // ---- doubly linked lists ----

  /** One pair of link fields of all nodes, and the list heads. */
  datatype Links = Links(prev: map<nat, Ptr>, next: map<nat, Ptr>, heads: seq<Ptr>)

  function Nth(chain: seq<nat>, i: int): Ptr { if 0 <= i < |chain| then To(chain[i]) else Null }

  predicate LinkedAt(l: Links, chain: seq<nat>, i: nat)
    requires i < |chain|
  {
    && chain[i] in l.prev && l.prev[chain[i]] == Nth(chain, i - 1)
    && chain[i] in l.next && l.next[chain[i]] == Nth(chain, i + 1)
  }

  ghost predicate Distinct(chain: seq<nat>) { forall i, j :: 0 <= i < j < |chain| ==> chain[i] != chain[j] }

  /** `chain` is what following the links from `head` visits, in both directions. */
  ghost predicate Chained(l: Links, head: Ptr, chain: seq<nat>) {
    && head == Nth(chain, 0)
    && Distinct(chain)
    && forall i :: 0 <= i < |chain| ==> LinkedAt(l, chain, i)
  }

  ghost predicate OwnedBy(owner: map<nat, nat>, chain: seq<nat>, c: nat) {
    forall a :: a in chain ==> a in owner && owner[a] == c
  }

  ghost predicate ListsOk(l: Links, owner: map<nat, nat>, chains: seq<seq<nat>>)
    requires |l.heads| == |chains|
  {
    forall c :: 0 <= c < |chains| ==> Chained(l, l.heads[c], chains[c]) && OwnedBy(owner, chains[c], c)
  }

  /** Every live node is on exactly the list of its owner. */
  ghost predicate Lists(l: Links, owner: map<nat, nat>, chains: seq<seq<nat>>) {
    && |l.heads| == |chains|
    && l.prev.Keys == owner.Keys && l.next.Keys == owner.Keys
    && ListsOk(l, owner, chains)
    && (forall a :: a in owner ==> owner[a] < |chains| && a in chains[owner[a]])
  }

  // ---- removing a node ----

  /** The pointer updates of ptw32_tkAssocDestroy on one of the two lists, list c. */
  function Unlink(l: Links, c: nat, a: nat): Links
    requires a in l.prev && a in l.next && c < |l.heads|
  {
    var prev, next := l.prev[a], l.next[a];
    Links((if next.To? then l.prev[next.a := prev] else l.prev) - {a},
          (if prev.To? then l.next[prev.a := next] else l.next) - {a},
          if l.heads[c] == To(a) then l.heads[c := next] else l.heads)
  }

  function Without(chain: seq<nat>, a: nat): seq<nat> {
    if chain == [] then []
    else if chain[0] == a then chain[1..]
    else [chain[0]] + Without(chain[1..], a)
  }

  lemma {:induction false} WithoutCuts(chain: seq<nat>, i: nat)
    requires Distinct(chain) && i < |chain|
    ensures Without(chain, chain[i]) == chain[..i] + chain[i + 1..]
  {
    if i > 0 {
      assert chain[1..][i - 1] == chain[i] && chain[0] != chain[i];
      WithoutCuts(chain[1..], i - 1);
      assert chain[1..][..i - 1] == chain[1..i] && chain[1..][i..] == chain[i + 1..];
      assert chain[..i] == [chain[0]] + chain[1..i];
    }
  }

  lemma {:induction false} WithoutAbsent(chain: seq<nat>, a: nat)
    requires a !in chain
    ensures Without(chain, a) == chain
  {
    if chain != [] {
      WithoutAbsent(chain[1..], a);
    }
  }

  /** A list whose nodes the removal does not touch stays as it is. */
  lemma UnlinkKeepsChain(l: Links, l': Links, head: Ptr, chain: seq<nat>)
    requires Chained(l, head, chain)
    requires forall a :: a in chain ==> a in l'.prev && a in l'.next
    requires forall a :: a in chain && a in l.prev && a in l.next ==> l'.prev[a] == l.prev[a] && l'.next[a] == l.next[a]
    ensures Chained(l', head, chain)
  {
    forall i | 0 <= i < |chain| ensures LinkedAt(l', chain, i) {
      assert LinkedAt(l, chain, i) && chain[i] in chain;
    }
  }

  lemma UnlinkCuts(l: Links, c: nat, chain: seq<nat>, i: nat)
    requires c < |l.heads| && Chained(l, l.heads[c], chain) && i < |chain|
    ensures LinkedAt(l, chain, i)
    ensures Chained(Unlink(l, c, chain[i]), Unlink(l, c, chain[i]).heads[c], chain[..i] + chain[i + 1..])
  {
    assert LinkedAt(l, chain, i);
    var l', rest := Unlink(l, c, chain[i]), chain[..i] + chain[i + 1..];
    forall j | 0 <= j < |rest| ensures LinkedAt(l', rest, j) {
      UnlinkLinks(l, c, chain, i, j);
    }
    assert l'.heads[c] == Nth(rest, 0) by {
      if i == 0 {} else { assert chain[0] != chain[i]; }
    }
  }

  lemma UnlinkLinks(l: Links, c: nat, chain: seq<nat>, i: nat, j: nat)
    requires c < |l.heads| && Chained(l, l.heads[c], chain) && i < |chain| && j < |chain| - 1
    ensures LinkedAt(l, chain, i)
    ensures LinkedAt(Unlink(l, c, chain[i]), chain[..i] + chain[i + 1..], j)
  {
    var x := if j < i then j else j + 1;
    var rest := chain[..i] + chain[i + 1..];
    assert rest[j] == chain[x];
    assert LinkedAt(l, chain, i) && LinkedAt(l, chain, x);
    assert i > 0 ==> LinkedAt(l, chain, i - 1);
    assert i + 1 < |chain| ==> LinkedAt(l, chain, i + 1);
  }

  /** The other lists' nodes keep their owner and their links. */
  ghost predicate OthersKept(l: Links, owner: map<nat, nat>, l': Links, owner': map<nat, nat>, c: nat) {
    forall x :: x in owner && owner[x] != c ==>
      && x in owner' && owner'[x] == owner[x]
      && x in l.prev && x in l'.prev && l'.prev[x] == l.prev[x]
      && x in l.next && x in l'.next && l'.next[x] == l.next[x]
  }

  lemma OtherListKept(l: Links, owner: map<nat, nat>, l': Links, owner': map<nat, nat>, c: nat, d: nat,
                      head: Ptr, chain: seq<nat>)
    requires Chained(l, head, chain) && OwnedBy(owner, chain, d) && d != c && OthersKept(l, owner, l', owner', c)
    ensures Chained(l', head, chain) && OwnedBy(owner', chain, d)
  {
    forall a | a in chain
      ensures a in l'.prev && a in l'.next && a in owner' && owner'[a] == d
      ensures a in l.prev && a in l.next ==> l'.prev[a] == l.prev[a] && l'.next[a] == l.next[a]
    {
      assert owner[a] == d;
    }
    UnlinkKeepsChain(l, l', head, chain);
  }

  /** A step that changes one list only. */
  lemma OneListChanged(l: Links, owner: map<nat, nat>, chains: seq<seq<nat>>,
                       l': Links, owner': map<nat, nat>, c: nat, chain': seq<nat>)
    requires Lists(l, owner, chains) && c < |chains| && |l'.heads| == |l.heads|
    requires l'.heads == l.heads[c := l'.heads[c]]
    requires l'.prev.Keys == owner'.Keys && l'.next.Keys == owner'.Keys
    requires Chained(l', l'.heads[c], chain') && OwnedBy(owner', chain', c)
    requires OthersKept(l, owner, l', owner', c)
    requires forall x :: x in owner' ==> (x in owner && owner[x] != c && owner'[x] == owner[x]) || (owner'[x] == c && x in chain')
    ensures Lists(l', owner', chains[c := chain'])
  {
    hide Chained, OwnedBy, OthersKept;
    var chains' := chains[c := chain'];
    forall d | 0 <= d < |chains'| ensures Chained(l', l'.heads[d], chains'[d]) && OwnedBy(owner', chains'[d], d) {
      assert Chained(l, l.heads[d], chains[d]) && OwnedBy(owner, chains[d], d);
      if d != c { OtherListKept(l, owner, l', owner', c, d, l.heads[d], chains[d]); }
    }
  }

  lemma PlaceOf(l: Links, owner: map<nat, nat>, chains: seq<seq<nat>>, a: nat) returns (i: nat)
    requires Lists(l, owner, chains) && a in owner
    ensures owner[a] < |chains| == |l.heads| && i < |chains[owner[a]]| && chains[owner[a]][i] == a
    ensures Chained(l, l.heads[owner[a]], chains[owner[a]]) && OwnedBy(owner, chains[owner[a]], owner[a])
    ensures l.prev.Keys == owner.Keys && l.next.Keys == owner.Keys
  {
    i :| 0 <= i < |chains[owner[a]]| && chains[owner[a]][i] == a;
  }

  lemma UnlinkKeepsLists(l: Links, owner: map<nat, nat>, chains: seq<seq<nat>>, a: nat)
    requires Lists(l, owner, chains) && a in owner
    ensures Lists(Unlink(l, owner[a], a), owner - {a}, chains[owner[a] := Without(chains[owner[a]], a)])
  {
    hide Lists, OthersKept, OwnedBy, LinkedAt;
    var i := PlaceOf(l, owner, chains, a);
    var c := owner[a];
    var chain := chains[c];
    WithoutCuts(chain, i);
    UnlinkCuts(l, c, chain, i);
    UnlinkKeepsOthers(l, owner, c, chain, i);
    CutKeepsRest(owner, chain, c, i);
    hide Chained, Without;
    UnlinkOneList(l, owner, chains, a, c, Without(chain, a));
  }

  lemma UnlinkOneList(l: Links, owner: map<nat, nat>, chains: seq<seq<nat>>, a: nat, c: nat, rest: seq<nat>)
    requires Lists(l, owner, chains) && a in owner && owner[a] == c
    requires forall x :: x in chains[c] && x != a ==> x in rest
    requires Unlink(l, c, a).prev.Keys == (owner - {a}).Keys && Unlink(l, c, a).next.Keys == (owner - {a}).Keys
    requires Chained(Unlink(l, c, a), Unlink(l, c, a).heads[c], rest) && OwnedBy(owner - {a}, rest, c)
    requires OthersKept(l, owner, Unlink(l, c, a), owner - {a}, c)
    ensures Lists(Unlink(l, c, a), owner - {a}, chains[c := rest])
  {
    hide Chained, OthersKept, OwnedBy, ListsOk;
    OneListChanged(l, owner, chains, Unlink(l, c, a), owner - {a}, c, rest);
  }

  lemma CutKeepsRest(owner: map<nat, nat>, chain: seq<nat>, c: nat, i: nat)
    requires Distinct(chain) && i < |chain| && OwnedBy(owner, chain, c)
    ensures OwnedBy(owner - {chain[i]}, chain[..i] + chain[i + 1..], c)
    ensures forall x :: x in chain && x != chain[i] ==> x in chain[..i] + chain[i + 1..]
  {
    var rest := chain[..i] + chain[i + 1..];
    forall x | x in chain && x != chain[i] ensures x in rest {
      var j :| 0 <= j < |chain| && chain[j] == x;
      assert x == rest[if j < i then j else j - 1];
    }
    forall x | x in rest ensures x in owner - {chain[i]} && owner[x] == c {
      var j :| 0 <= j < |rest| && rest[j] == x;
      assert x == chain[if j < i then j else j + 1];
    }
  }

  lemma UnlinkKeepsOthers(l: Links, owner: map<nat, nat>, c: nat, chain: seq<nat>, i: nat)
    requires l.prev.Keys == owner.Keys && l.next.Keys == owner.Keys
    requires c < |l.heads| && Chained(l, l.heads[c], chain) && OwnedBy(owner, chain, c) && i < |chain|
    ensures LinkedAt(l, chain, i)
    ensures OthersKept(l, owner, Unlink(l, c, chain[i]), owner - {chain[i]}, c)
    ensures Unlink(l, c, chain[i]).prev.Keys == (owner - {chain[i]}).Keys
    ensures Unlink(l, c, chain[i]).next.Keys == (owner - {chain[i]}).Keys
  {
    assert LinkedAt(l, chain, i);
    assert i > 0 ==> chain[i - 1] in chain;
    assert i + 1 < |chain| ==> chain[i + 1] in chain;
    assert chain[i] in chain;
  }

  // ---- adding a node ----

  /** The pointer updates of ptw32_tkAssocCreate on one of the two lists, list c. */
  function Push(l: Links, c: nat, a: nat): Links
    requires c < |l.heads|
  {
    var head := l.heads[c];
    Links((if head.To? then l.prev[head.a := To(a)] else l.prev)[a := Null],
          l.next[a := head],
          l.heads[c := To(a)])
  }

  lemma PushLinks(l: Links, c: nat, chain: seq<nat>, a: nat, j: nat)
    requires c < |l.heads| && Chained(l, l.heads[c], chain) && a !in chain && j <= |chain|
    ensures LinkedAt(Push(l, c, a), [a] + chain, j)
  {
    var chain' := [a] + chain;
    if j > 0 {
      assert chain'[j] == chain[j - 1];
      assert LinkedAt(l, chain, j - 1);
    }
  }

  lemma PushKeepsLists(l: Links, owner: map<nat, nat>, chains: seq<seq<nat>>, c: nat, a: nat)
    requires Lists(l, owner, chains) && a !in owner && c < |chains|
    ensures Lists(Push(l, c, a), owner[a := c], chains[c := [a] + chains[c]])
  {
    var l', owner', chain := Push(l, c, a), owner[a := c], chains[c];
    assert Chained(l, l.heads[c], chain) && OwnedBy(owner, chain, c);
    assert OwnedBy(owner', [a] + chain, c);
    assert chain != [] ==> chain[0] in chain;
    PushChains(l, c, chain, a);
    hide Chained, OwnedBy;
    OneListChanged(l, owner, chains, l', owner', c, [a] + chain);
  }

  lemma PushChains(l: Links, c: nat, chain: seq<nat>, a: nat)
    requires c < |l.heads| && Chained(l, l.heads[c], chain) && a !in chain
    ensures Chained(Push(l, c, a), To(a), [a] + chain)
  {
    forall j | 0 <= j < |[a] + chain| ensures LinkedAt(Push(l, c, a), [a] + chain, j) {
      PushLinks(l, c, chain, a, j);
    }
  }

  // ---- the cursor ----

  /** What a walk along the list from p still has to visit. */
  function Rest(chain: seq<nat>, p: Ptr): seq<nat> {
    if chain == [] then [] else if To(chain[0]) == p then chain else Rest(chain[1..], p)
  }

  predicate OnChain(p: Ptr, chain: seq<nat>) { p.To? ==> p.a in chain }

  lemma {:induction false} RestIsSuffix(chain: seq<nat>, i: nat)
    requires Distinct(chain) && i <= |chain|
    ensures Rest(chain, Nth(chain, i)) == chain[i..]
  {
    if 0 < i < |chain| {
      assert chain[0] != chain[i];
      assert chain[1..][i - 1] == chain[i];
      RestIsSuffix(chain[1..], i - 1);
    } else if i == |chain| {
      RestOfNull(chain);
    }
  }

  lemma {:induction false} RestOfNull(chain: seq<nat>)
    ensures Rest(chain, Null) == []
  {
    if chain != [] { RestOfNull(chain[1..]); }
  }

  lemma {:induction false} RestAt(chain: seq<nat>, p: Ptr) returns (i: nat)
    requires Distinct(chain) && OnChain(p, chain)
    ensures i <= |chain| && p == Nth(chain, i) && Rest(chain, p) == chain[i..]
  {
    if p.To? {
      i :| 0 <= i < |chain| && chain[i] == p.a;
    } else {
      i := |chain|;
    }
    RestIsSuffix(chain, i);
  }

  /** A removal takes the node out of what the cursor still has to visit and keeps the
      rest, whether the node is before, at or after the cursor. */
  lemma RestWithout(chain: seq<nat>, i: nat, p: Ptr)
    requires Distinct(chain) && OnChain(p, chain) && i < |chain|
    ensures var p' := if p == To(chain[i]) then Nth(chain, i + 1) else p;
      && OnChain(p', Without(chain, chain[i]))
      && Rest(Without(chain, chain[i]), p') == Without(Rest(chain, p), chain[i])
  {
    hide Rest, Without;
    var a, p' := chain[i], if p == To(chain[i]) then Nth(chain, i + 1) else p;
    WithoutCuts(chain, i);
    var rest := chain[..i] + chain[i + 1..];
    DistinctCut(chain, i);
    var j := RestAt(chain, p);
    var j' := if j <= i then j else j - 1;
    SamePlace(chain, i, j, p);
    RestIsSuffix(rest, j');
    SuffixOfCut(chain, i, j);
    WithoutInSuffix(chain, i, j);
  }

  /** Where the cursor is after the removal. */
  lemma SamePlace(chain: seq<nat>, i: nat, j: nat, p: Ptr)
    requires Distinct(chain) && i < |chain| && j <= |chain| && p == Nth(chain, j)
    ensures (if p == To(chain[i]) then Nth(chain, i + 1) else p) ==
      Nth(chain[..i] + chain[i + 1..], if j <= i then j else j - 1)
  {
  }

  lemma WithoutInSuffix(chain: seq<nat>, i: nat, j: nat)
    requires Distinct(chain) && i < |chain| && j <= |chain|
    ensures Without(chain[j..], chain[i]) ==
      if j <= i then chain[j..][..i - j] + chain[j..][i - j + 1..] else chain[j..]
  {
    if j <= i {
      assert chain[j..][i - j] == chain[i];
      WithoutCuts(chain[j..], i - j);
    } else {
      WithoutAbsent(chain[j..], chain[i]);
    }
  }

  lemma SuffixOfCut(chain: seq<nat>, i: nat, j: nat)
    requires i < |chain| && j <= |chain|
    ensures var rest := chain[..i] + chain[i + 1..];
      if j <= i then rest[j..] == chain[j..][..i - j] + chain[j..][i - j + 1..] else rest[j - 1..] == chain[j..]
  {
    var rest := chain[..i] + chain[i + 1..];
    if j <= i {
      assert chain[j..][..i - j] == chain[j..i] && chain[j..][i - j + 1..] == chain[i + 1..];
      assert rest[j..] == chain[j..i] + chain[i + 1..];
    } else {
      assert rest[j - 1..] == chain[j..];
    }
  }

  lemma DistinctCut(chain: seq<nat>, i: nat)
    requires Distinct(chain) && i < |chain|
    ensures Distinct(chain[..i] + chain[i + 1..])
  {
    var rest := chain[..i] + chain[i + 1..];
    forall x, y | 0 <= x < y < |rest| ensures rest[x] != rest[y] {
      assert rest[x] == chain[if x < i then x else x + 1] && rest[y] == chain[if y < i then y else y + 1];
    }
  }

  /** The nodes of a list that do not belong to key k, in their order. */
  function Others(chain: seq<nat>, key: map<nat, nat>, k: nat): seq<nat> {
    if chain == [] then []
    else (if chain[0] in key && key[chain[0]] == k then [] else [chain[0]]) + Others(chain[1..], key, k)
  }

  lemma {:induction false} OthersWithout(chain: seq<nat>, key: map<nat, nat>, k: nat, a: nat)
    requires a in key && key[a] == k
    ensures Others(Without(chain, a), key, k) == Others(chain, key, k)
  {
    if chain != [] && chain[0] != a {
      OthersWithout(chain[1..], key, k, a);
      assert Without(chain, a)[1..] == Without(chain[1..], a);
    }
  }

  lemma {:induction false} OthersAll(chain: seq<nat>, key: map<nat, nat>, k: nat)
    requires forall a :: a in chain ==> !(a in key && key[a] == k)
    ensures Others(chain, key, k) == chain
  {
    if chain != [] {
      assert forall a :: a in chain[1..] ==> a in chain;
      OthersAll(chain[1..], key, k);
    }
  }

  lemma {:induction false} InOthers(chain: seq<nat>, key: map<nat, nat>, k: nat, a: nat)
    ensures a in Others(chain, key, k) <==> a in chain && !(a in key && key[a] == k)
  {
    if chain != [] {
      InOthers(chain[1..], key, k, a);
    }
  }

  lemma {:induction false} WithoutShorter(chain: seq<nat>, a: nat)
    ensures |Without(chain, a)| <= |chain|
    ensures forall x :: x in Without(chain, a) ==> x in chain
  {
    if chain != [] { WithoutShorter(chain[1..], a); }
  }

  lemma {:induction false} OthersShorter(chain: seq<nat>, key: map<nat, nat>, k: nat)
    ensures |Others(chain, key, k)| <= |chain|
  {
    if chain != [] { OthersShorter(chain[1..], key, k); }
  }

  // ---- threads, keys and values ----

  ghost predicate Unique(thread: map<nat, nat>, key: map<nat, nat>) {
    forall a, b :: a in thread && a in key && b in thread && b in key && thread[a] == thread[b] && key[a] == key[b] ==> a == b
  }

  ghost predicate CursorsOk(cursors: seq<Ptr>, columns: seq<seq<nat>>) {
    |cursors| == |columns| && forall t :: 0 <= t < |columns| ==> OnChain(cursors[t], columns[t])
  }

  /** Only keys that are not freed and have a destructor have associations. */
  ghost predicate RowsLive(rows: seq<seq<nat>>, present: seq<bool>, destructor: seq<bool>) {
    && |rows| == |present| == |destructor|
    && forall k :: 0 <= k < |rows| && rows[k] != [] ==> present[k] && destructor[k]
  }

  /** The nodes are exactly those on both families of lists, at most one for each thread
      and key, and no cursor points to a freed node. */
  ghost predicate Wiring(byThread: Links, byKey: Links, thread: map<nat, nat>, key: map<nat, nat>,
                         columns: seq<seq<nat>>, rows: seq<seq<nat>>, cursors: seq<Ptr>,
                         present: seq<bool>, destructor: seq<bool>)
  {
    && Lists(byThread, thread, columns) && Lists(byKey, key, rows) && thread.Keys == key.Keys
    && Unique(thread, key) && CursorsOk(cursors, columns) && RowsLive(rows, present, destructor)
  }

  function Value(tls: map<(nat, nat), nat>, t: nat, k: nat): nat { if (t, k) in tls then tls[(t, k)] else 0 }

  ghost predicate Associated(thread: map<nat, nat>, key: map<nat, nat>, t: nat, k: nat) {
    exists a :: a in thread && a in key && thread[a] == t && key[a] == k
  }

  /** No value that needs a destructor is without its association. */
  ghost predicate Covered(tls: map<(nat, nat), nat>, thread: map<nat, nat>, key: map<nat, nat>,
                          live: seq<bool>, destructor: seq<bool>)
  {
    forall t: nat, k: nat :: k < |live| && k < |destructor| && live[k] && destructor[k] && Value(tls, t, k) != 0 ==>
      Associated(thread, key, t, k)
  }

  datatype Result = OK | ENOMEM | EAGAIN

  /** A call, or a step of one, made by thread t or by any thread; `block` is what calloc
      returns to it. */
  datatype Op =
    | Set(t: nat, k: nat, v: nat, block: Ptr, stored: bool)
    | Create(destructor: bool, memory: bool, slot: bool)
    | Delete(k: nat)
    // the steps of a key_delete between which other threads get in
    | BeginDelete(k: nat)
    | DeleteNext(k: nat)
    // the steps of another exiting thread
    | StartPass(t: nat)
    | TakeNext(t: nat, pass: nat)

  lemma DestroyKeepsWiring(byThread: Links, byKey: Links, thread: map<nat, nat>, key: map<nat, nat>,
                           columns: seq<seq<nat>>, rows: seq<seq<nat>>, cursors: seq<Ptr>,
                           present: seq<bool>, destructor: seq<bool>, a: nat)
    requires Wiring(byThread, byKey, thread, key, columns, rows, cursors, present, destructor) && a in thread
    ensures a in key && thread[a] < |columns| == |cursors| == |byThread.heads| && key[a] < |rows| == |byKey.heads|
    ensures a in byThread.prev && a in byThread.next && a in byKey.prev && a in byKey.next
    ensures var t, k := thread[a], key[a];
      var p := if cursors[t] == To(a) then byThread.next[a] else cursors[t];
      && Wiring(Unlink(byThread, t, a), Unlink(byKey, k, a), thread - {a}, key - {a},
                columns[t := Without(columns[t], a)], rows[k := Without(rows[k], a)], cursors[t := p], present, destructor)
      && Rest(Without(columns[t], a), p) == Without(Rest(columns[t], cursors[t]), a)
  {
    hide Unlink, Rest, Without;
    UnlinkKeepsLists(byThread, thread, columns, a);
    UnlinkKeepsLists(byKey, key, rows, a);
    RowsStayLive(rows, present, destructor, key[a], a);
    var i := PlaceOf(byThread, thread, columns, a);
    var j := PlaceOf(byKey, key, rows, a);
    CursorMovesOff(byThread, thread[a], columns, cursors, i);
  }

  lemma CursorMovesOff(l: Links, t: nat, columns: seq<seq<nat>>, cursors: seq<Ptr>, i: nat)
    requires t < |columns| == |l.heads| && Chained(l, l.heads[t], columns[t]) && i < |columns[t]|
    requires CursorsOk(cursors, columns)
    ensures columns[t][i] in l.next
    ensures var a := columns[t][i];
      var p := if cursors[t] == To(a) then l.next[a] else cursors[t];
      && CursorsOk(cursors[t := p], columns[t := Without(columns[t], a)])
      && Rest(Without(columns[t], a), p) == Without(Rest(columns[t], cursors[t]), a)
  {
    assert LinkedAt(l, columns[t], i);
    RestWithout(columns[t], i, cursors[t]);
  }

  lemma RowsStayLive(rows: seq<seq<nat>>, present: seq<bool>, destructor: seq<bool>, k: nat, a: nat)
    requires RowsLive(rows, present, destructor) && k < |rows|
    ensures RowsLive(rows[k := Without(rows[k], a)], present, destructor)
  {
    WithoutShorter(rows[k], a);
  }

  lemma ListOf(l: Links, owner: map<nat, nat>, chains: seq<seq<nat>>, c: nat)
    requires Lists(l, owner, chains) && c < |chains|
    ensures |l.heads| == |chains| && Chained(l, l.heads[c], chains[c])
    ensures forall a :: a in chains[c] ==> a in owner && owner[a] == c && a in l.next && a in l.prev
  {
    assert OwnedBy(owner, chains[c], c);
  }

  lemma Associates(thread: map<nat, nat>, key: map<nat, nat>, a: nat)
    requires a in thread && a in key
    ensures Associated(thread, key, thread[a], key[a])
  {
  }

  lemma NotAssociated(l: Links, thread: map<nat, nat>, key: map<nat, nat>, columns: seq<seq<nat>>, t: nat, k: nat)
    requires Lists(l, thread, columns) && t < |columns|
    requires forall j :: 0 <= j < |columns[t]| ==> columns[t][j] in key && key[columns[t][j]] != k
    ensures !Associated(thread, key, t, k)
  {
    forall a | a in thread && thread[a] == t ensures a in key && key[a] != k {
      var i := PlaceOf(l, thread, columns, a);
    }
  }

  lemma SizesOk(byThread: Links, byKey: Links, thread: map<nat, nat>, key: map<nat, nat>,
                columns: seq<seq<nat>>, rows: seq<seq<nat>>, cursors: seq<Ptr>, present: seq<bool>, destructor: seq<bool>)
    requires Wiring(byThread, byKey, thread, key, columns, rows, cursors, present, destructor)
    ensures thread.Keys == key.Keys
    ensures |columns| == |cursors| == |byThread.heads| && |rows| == |byKey.heads| == |present| == |destructor|
  {
  }

  lemma CreateKeepsWiring(byThread: Links, byKey: Links, thread: map<nat, nat>, key: map<nat, nat>,
                          columns: seq<seq<nat>>, rows: seq<seq<nat>>, cursors: seq<Ptr>,
                          present: seq<bool>, destructor: seq<bool>, t: nat, k: nat, a: nat)
    requires Wiring(byThread, byKey, thread, key, columns, rows, cursors, present, destructor)
    requires t < |columns| && k < |rows| && k < |present| && k < |destructor| && present[k] && destructor[k]
    requires !Associated(thread, key, t, k) && a !in thread
    ensures |columns| == |cursors| == |byThread.heads| && |rows| == |byKey.heads|
    ensures Wiring(Push(byThread, t, a), Push(byKey, k, a), thread[a := t], key[a := k],
                   columns[t := [a] + columns[t]], rows[k := [a] + rows[k]], cursors, present, destructor)
    ensures Rest([a] + columns[t], cursors[t]) == Rest(columns[t], cursors[t])
  {
    hide Rest, Push, CursorsOk;
    PushKeepsLists(byThread, thread, columns, t, a);
    PushKeepsLists(byKey, key, rows, k, a);
    StaysUnique(thread, key, t, k, a);
    PushBehindCursor(byThread, thread, columns, cursors, t, a);
    hide Lists, Unique;
    assert RowsLive(rows[k := [a] + rows[k]], present, destructor);
  }

  lemma StaysUnique(thread: map<nat, nat>, key: map<nat, nat>, t: nat, k: nat, a: nat)
    requires Unique(thread, key) && !Associated(thread, key, t, k) && a !in thread && thread.Keys == key.Keys
    ensures Unique(thread[a := t], key[a := k]) && thread[a := t].Keys == key[a := k].Keys
  {
    assert forall x :: x in thread && x in key && thread[x] == t ==> key[x] != k;
  }

  lemma PushBehindCursor(l: Links, owner: map<nat, nat>, columns: seq<seq<nat>>, cursors: seq<Ptr>, t: nat, a: nat)
    requires Lists(l, owner, columns) && CursorsOk(cursors, columns) && t < |columns| && a !in owner
    ensures t < |cursors| == |columns| && CursorsOk(cursors, columns[t := [a] + columns[t]])
    ensures Rest([a] + columns[t], cursors[t]) == Rest(columns[t], cursors[t])
  {
    ListOf(l, owner, columns, t);
    assert ([a] + columns[t])[1..] == columns[t];
  }

  ghost predicate KeysOk(live: seq<bool>, present: seq<bool>) {
    |live| == |present| && forall k :: 0 <= k < |live| && live[k] ==> present[k]
  }

  lemma LiveIsPresent(live: seq<bool>, present: seq<bool>, k: nat)
    requires KeysOk(live, present) && k < |live|
    ensures |live| == |present| && (live[k] ==> present[k])
    ensures KeysOk(live[k := false], present)
    ensures !live[k] ==> KeysOk(live, present[k := false])
  {
  }

  lemma NewKeyOk(live: seq<bool>, present: seq<bool>)
    requires KeysOk(live, present)
    ensures |live| == |present| && KeysOk(live + [true], present + [true])
  {
  }

  /** An association on its own does no harm. */
  lemma CreateKeepsCovered(tls: map<(nat, nat), nat>, thread: map<nat, nat>, key: map<nat, nat>,
                           live: seq<bool>, destructor: seq<bool>, t: nat, k: nat, block: Ptr)
    requires Covered(tls, thread, key, live, destructor)
    requires block.To? ==> block.a !in thread
    ensures block.To? ==> Covered(tls, thread[block.a := t], key[block.a := k], live, destructor)
  {
    if block.To? {
      var thread', key' := thread[block.a := t], key[block.a := k];
      forall u: nat, j: nat | j < |live| && j < |destructor| && live[j] && destructor[j] && Value(tls, u, j) != 0
        ensures Associated(thread', key', u, j)
      {
        assert Associated(thread, key, u, j);
        var a :| a in thread && a in key && thread[a] == u && key[a] == j;
        Associates(thread', key', a);
      }
    }
  }

  lemma SetKeepsCovered(tls: map<(nat, nat), nat>, thread: map<nat, nat>, key: map<nat, nat>,
                        live: seq<bool>, destructor: seq<bool>, t: nat, k: nat, v: nat)
    requires Covered(tls, thread, key, live, destructor) && k < |destructor|
    requires !destructor[k] || v == 0 || Associated(thread, key, t, k)
    ensures Covered(tls[(t, k) := v], thread, key, live, destructor)
  {
  }

  /** TlsAlloc's slot is empty in every thread. */
  function WithoutKey(tls: map<(nat, nat), nat>, k: nat): map<(nat, nat), nat> {
    map x | x in tls && x.1 != k :: tls[x]
  }

  lemma NewKeyKeepsWiring(byThread: Links, byKey: Links, thread: map<nat, nat>, key: map<nat, nat>,
                          columns: seq<seq<nat>>, rows: seq<seq<nat>>, cursors: seq<Ptr>,
                          present: seq<bool>, destructor: seq<bool>, d: bool)
    requires Wiring(byThread, byKey, thread, key, columns, rows, cursors, present, destructor)
    ensures |byKey.heads| == |rows| == |present| == |destructor|
    ensures Wiring(byThread, byKey.(heads := byKey.heads + [Null]), thread, key, columns, rows + [[]], cursors,
                   present + [true], destructor + [d])
  {
    var byKey', rows' := byKey.(heads := byKey.heads + [Null]), rows + [[]];
    forall c | 0 <= c < |rows'| ensures Chained(byKey', byKey'.heads[c], rows'[c]) && OwnedBy(key, rows'[c], c) {
      if c < |rows| {
        assert Chained(byKey, byKey.heads[c], rows[c]) && OwnedBy(key, rows[c], c);
        UnlinkKeepsChain(byKey, byKey', byKey.heads[c], rows[c]);
      }
    }
  }

  lemma NewKeyCovered(tls: map<(nat, nat), nat>, thread: map<nat, nat>, key: map<nat, nat>,
                      live: seq<bool>, destructor: seq<bool>, d: bool)
    requires Covered(tls, thread, key, live, destructor) && |live| == |destructor|
    ensures Covered(WithoutKey(tls, |live|), thread, key, live + [true], destructor + [d])
  {
  }

  lemma CoveredWithout(tls: map<(nat, nat), nat>, thread: map<nat, nat>, key: map<nat, nat>,
                       live: seq<bool>, destructor: seq<bool>, k: nat)
    requires Covered(tls, thread, key, live, destructor) && k < |live|
    ensures Covered(tls, thread, key, live[k := false], destructor)
  {
  }

  /** Only nodes of key k are gone so far. */
  ghost predicate Deleted(thread: map<nat, nat>, key: map<nat, nat>,
                          thread': map<nat, nat>, key': map<nat, nat>, k: nat)
  {
    && (forall a :: a in key' ==> a in key && key'[a] == key[a])
    && (forall a :: a in thread' ==> a in thread && thread'[a] == thread[a])
    && (forall a :: a in key && key[a] != k ==> a in key' && (a in thread ==> a in thread'))
  }

  /** The nodes of the other keys keep their places in every list and before every cursor. */
  ghost predicate SameOthers(columns: seq<seq<nat>>, cursors: seq<Ptr>, columns': seq<seq<nat>>, cursors': seq<Ptr>,
                             key: map<nat, nat>, k: nat)
  {
    && |columns| == |cursors| == |columns'| == |cursors'|
    && forall t :: 0 <= t < |columns| ==>
      && Others(columns'[t], key, k) == Others(columns[t], key, k)
      && Others(Rest(columns'[t], cursors'[t]), key, k) == Others(Rest(columns[t], cursors[t]), key, k)
  }

  lemma NothingDeleted(thread: map<nat, nat>, key: map<nat, nat>, columns: seq<seq<nat>>, cursors: seq<Ptr>, k: nat)
    requires |columns| == |cursors|
    ensures Deleted(thread, key, thread, key, k) && SameOthers(columns, cursors, columns, cursors, key, k)
  {
  }

  lemma WithoutFirst(chain: seq<nat>)
    ensures chain != [] ==> Without(chain, chain[0]) == chain[1..]
  {
  }

  lemma HeadOfRow(byThread: Links, byKey: Links, thread: map<nat, nat>, key: map<nat, nat>,
                  columns: seq<seq<nat>>, rows: seq<seq<nat>>, cursors: seq<Ptr>,
                  present: seq<bool>, destructor: seq<bool>, k: nat)
    requires Wiring(byThread, byKey, thread, key, columns, rows, cursors, present, destructor) && k < |rows|
    ensures |byKey.heads| == |rows| == |destructor| && byKey.heads[k] == Nth(rows[k], 0)
    ensures rows[k] != [] ==> rows[k][0] in key && key[rows[k][0]] == k && rows[k][0] in thread && destructor[k]
  {
    ListOf(byKey, key, rows, k);
  }

  /** One turn of the loop. */
  lemma DeleteOne(thread0: map<nat, nat>, key0: map<nat, nat>, thread: map<nat, nat>, key: map<nat, nat>,
                  columns0: seq<seq<nat>>, cursors0: seq<Ptr>, columns: seq<seq<nat>>, cursors: seq<Ptr>, k: nat, a: nat)
    requires Deleted(thread0, key0, thread, key, k) && a in key && key[a] == k && a in thread
    requires SameOthers(columns0, cursors0, columns, cursors, key0, k)
    ensures Deleted(thread0, key0, thread - {a}, key - {a}, k)
    ensures forall t: nat, p: Ptr ::
      (t < |columns| && Rest(Without(columns[t], a), p) == Without(Rest(columns[t], cursors[t]), a)) ==>
        SameOthers(columns0, cursors0, columns[t := Without(columns[t], a)], cursors[t := p], key0, k)
  {
    hide Rest;
    forall t: nat, p: Ptr | t < |columns| && Rest(Without(columns[t], a), p) == Without(Rest(columns[t], cursors[t]), a)
      ensures SameOthers(columns0, cursors0, columns[t := Without(columns[t], a)], cursors[t := p], key0, k)
    {
      OthersWithout(columns[t], key0, k, a);
      OthersWithout(Rest(columns[t], cursors[t]), key0, k, a);
    }
  }

  lemma CoveredWithoutNode(tls: map<(nat, nat), nat>, thread: map<nat, nat>, key: map<nat, nat>,
                           live: seq<bool>, destructor: seq<bool>, a: nat)
    requires Covered(tls, thread, key, live, destructor) && a in thread && a in key
    requires key[a] < |live| && live[key[a]] ==> Value(tls, thread[a], key[a]) == 0
    ensures Covered(tls, thread - {a}, key - {a}, live, destructor)
  {
    forall t: nat, k: nat | k < |live| && k < |destructor| && live[k] && destructor[k] && Value(tls, t, k) != 0
      ensures Associated(thread - {a}, key - {a}, t, k)
    {
      assert Associated(thread, key, t, k);
      var b :| b in thread && b in key && thread[b] == t && key[b] == k;
      Associates(thread - {a}, key - {a}, b);
    }
  }

  /** Once the key's list is empty, the other keys' nodes are all there is. */
  lemma NoneLeft(byThread: Links, byKey: Links, thread: map<nat, nat>, key: map<nat, nat>,
                 columns: seq<seq<nat>>, rows: seq<seq<nat>>, cursors: seq<Ptr>, present: seq<bool>, destructor: seq<bool>,
                 thread0: map<nat, nat>, key0: map<nat, nat>, columns0: seq<seq<nat>>, cursors0: seq<Ptr>, k: nat)
    requires Wiring(byThread, byKey, thread, key, columns, rows, cursors, present, destructor)
    requires k < |rows| && rows[k] == []
    requires Deleted(thread0, key0, thread, key, k)
    requires SameOthers(columns0, cursors0, columns, cursors, key0, k)
    ensures k !in key.Values
    ensures forall t :: 0 <= t < |columns| ==>
      && columns[t] == Others(columns0[t], key0, k)
      && Rest(columns[t], cursors[t]) == Others(Rest(columns0[t], cursors0[t]), key0, k)
    ensures Wiring(byThread, byKey, thread, key, columns, rows, cursors, present[k := false], destructor)
  {
    hide Rest, Others;
    forall t | 0 <= t < |columns|
      ensures columns[t] == Others(columns0[t], key0, k)
      ensures Rest(columns[t], cursors[t]) == Others(Rest(columns0[t], cursors0[t]), key0, k)
    {
      ListOf(byThread, thread, columns, t);
      RestOnChain(columns[t], cursors[t]);
      OthersAll(columns[t], key0, k);
      OthersAll(Rest(columns[t], cursors[t]), key0, k);
    }
  }

  lemma {:induction false} RestOnChain(chain: seq<nat>, p: Ptr)
    ensures |Rest(chain, p)| <= |chain| && forall a :: a in Rest(chain, p) ==> a in chain
  {
    if chain != [] { RestOnChain(chain[1..], p); }
  }

  /** What a cursor still has to visit only ever loses nodes, and those left keep their key. */
  ghost predicate Narrower(rest: seq<nat>, key: map<nat, nat>, rest': seq<nat>, key': map<nat, nat>) {
    && |rest'| <= |rest|
    && forall a :: a in rest' ==> a in rest && a in key && a in key' && key'[a] == key[a]
  }

  lemma SetNarrows(rest: seq<nat>, key: map<nat, nat>, key': map<nat, nat>, block: Ptr, k: nat)
    requires forall a :: a in rest ==> a in key
    requires key' == key || (block.To? && block.a !in key && key' == key[block.a := k])
    ensures Narrower(rest, key, rest, key')
  {
  }

  lemma DeleteNarrows(rest: seq<nat>, thread: map<nat, nat>, key: map<nat, nat>,
                      thread': map<nat, nat>, key': map<nat, nat>, k: nat)
    requires forall a :: a in rest ==> a in key
    requires Deleted(thread, key, thread', key', k)
    ensures Narrower(rest, key, Others(rest, key, k), key')
  {
    OthersShorter(rest, key, k);
    forall a | a in Others(rest, key, k) ensures a in rest && a in key && a in key' && key'[a] == key[a] {
      InOthers(rest, key, k, a);
    }
  }

  // ---- a key whose turn is still to come ----

  predicate HasKey(chain: seq<nat>, key: map<nat, nat>, k: nat) {
    exists a :: a in chain && a in key && key[a] == k
  }

  /** The operation may delete key k, or set thread t's value under it. */
  predicate Touches(op: Op, t: nat, k: nat) {
    match op
    case Set(u, j, _, _, _) => u == t && j == k
    case Delete(j) => j == k
    case BeginDelete(j) => j == k
    case DeleteNext(j) => j == k
    case _ => false
  }

  ghost predicate NoneTouches(ops: seq<Op>, t: nat, k: nat) {
    forall i :: 0 <= i < |ops| ==> !Touches(ops[i], t, k)
  }

  lemma HasKeyAfterSet(chain: seq<nat>, key: map<nat, nat>, key': map<nat, nat>, block: Ptr, j: nat, k: nat)
    requires HasKey(chain, key, k)
    requires key' == key || (block.To? && block.a !in key && key' == key[block.a := j])
    ensures HasKey(chain, key', k)
  {
    var a :| a in chain && a in key && key[a] == k;
    assert a in key' && key'[a] == k;
  }

  lemma HasKeyAfterDelete(chain: seq<nat>, thread: map<nat, nat>, key: map<nat, nat>,
                          thread': map<nat, nat>, key': map<nat, nat>, j: nat, k: nat)
    requires HasKey(chain, key, k) && j != k && Deleted(thread, key, thread', key', j)
    ensures HasKey(Others(chain, key, j), key', k)
  {
    var a :| a in chain && a in key && key[a] == k;
    InOthers(chain, key, j, a);
    assert a in key' && key'[a] == k;
  }

  lemma HasKeyAfterRemoval(chain: seq<nat>, key: map<nat, nat>, b: nat, k: nat)
    requires HasKey(chain, key, k) && b in key && key[b] != k
    ensures HasKey(chain, key - {b}, k) && HasKey(Without(chain, b), key - {b}, k)
  {
    var a :| a in chain && a in key && key[a] == k;
    InWithout(chain, b, a);
    assert a in key - {b} && (key - {b})[a] == k;
  }

  lemma {:induction false} InWithout(chain: seq<nat>, b: nat, a: nat)
    requires a in chain && a != b
    ensures a in Without(chain, b)
  {
    if chain[0] != b && chain[0] != a { InWithout(chain[1..], b, a); }
  }

  lemma HasKeyInRest(first: nat, rest: seq<nat>, key: map<nat, nat>, k: nat)
    requires HasKey([first] + rest, key, k) && first in key && key[first] != k
    ensures HasKey(rest, key, k)
  {
    var a :| a in [first] + rest && a in key && key[a] == k;
  }

  lemma AssociatedIsListed(l: Links, thread: map<nat, nat>, key: map<nat, nat>, columns: seq<seq<nat>>, t: nat, k: nat)
    requires Lists(l, thread, columns) && t < |columns| && Associated(thread, key, t, k)
    ensures HasKey(columns[t], key, k)
  {
    var a :| a in thread && a in key && thread[a] == t && key[a] == k;
    var i := PlaceOf(l, thread, columns, a);
  }

  predicate BeginsWith(chain: seq<nat>, key: map<nat, nat>, k: nat) {
    chain != [] && chain[0] in key && key[chain[0]] == k
  }

  lemma {:induction false} OthersFewer(chain: seq<nat>, key: map<nat, nat>, k: nat)
    requires BeginsWith(chain, key, k)
    ensures |Others(chain, key, k)| < |chain|
  {
    OthersShorter(chain[1..], key, k);
  }

  lemma WithoutNarrows(rest: seq<nat>, key: map<nat, nat>, a: nat)
    requires forall x :: x in rest ==> x in key
    ensures a !in rest ==> Narrower(rest, key, rest, key - {a})
    ensures a !in Without(rest, a) ==> Narrower(rest, key, Without(rest, a), key - {a})
  {
    WithoutShorter(rest, a);
  }

  lemma HasKeyKept(rest: seq<nat>, key: map<nat, nat>, key': map<nat, nat>, a: nat, thread: map<nat, nat>, t: nat, k: nat)
    requires forall x :: x in rest ==> x in thread && x in key && thread[x] == t
    requires a in thread && thread[a] != t && (key' == key || key' == key - {a}) && HasKey(rest, key, k)
    ensures HasKey(rest, key', k)
  {
    var b :| b in rest && b in key && key[b] == k;
    assert b in key' && key'[b] == k;
  }

  lemma RemovalNarrows(rest: seq<nat>, key: map<nat, nat>, key': map<nat, nat>, a: nat, thread: map<nat, nat>, t: nat)
    requires forall x :: x in rest ==> x in thread && x in key && thread[x] == t
    requires a in thread && thread[a] != t && (key' == key || key' == key - {a})
    ensures Narrower(rest, key, rest, key')
  {
  }

  lemma NextIsPresent(byThread: Links, byKey: Links, thread: map<nat, nat>, key: map<nat, nat>,
                      columns: seq<seq<nat>>, rows: seq<seq<nat>>, cursors: seq<Ptr>,
                      present: seq<bool>, destructor: seq<bool>, t: nat)
    requires Wiring(byThread, byKey, thread, key, columns, rows, cursors, present, destructor)
    requires t < |columns| && t < |cursors| && cursors[t].To?
    ensures cursors[t].a in key && key[cursors[t].a] < |present| == |rows| && present[key[cursors[t].a]]
  {
    ListOf(byThread, thread, columns, t);
    assert cursors[t].a in columns[t];
    var i := PlaceOf(byKey, key, rows, cursors[t].a);
  }

  lemma AheadIsLive(byThread: Links, byKey: Links, thread: map<nat, nat>, key: map<nat, nat>,
                    columns: seq<seq<nat>>, rows: seq<seq<nat>>, cursors: seq<Ptr>,
                    present: seq<bool>, destructor: seq<bool>, t: nat)
    requires Wiring(byThread, byKey, thread, key, columns, rows, cursors, present, destructor) && t < |columns|
    ensures t < |cursors| && forall a :: a in Rest(columns[t], cursors[t]) ==> a in thread && a in key && thread[a] == t
  {
    ListOf(byThread, thread, columns, t);
    RestOnChain(columns[t], cursors[t]);
  }

  lemma NarrowerStill(rest0: seq<nat>, key0: map<nat, nat>, rest1: seq<nat>, key1: map<nat, nat>,
                      rest2: seq<nat>, key2: map<nat, nat>)
    requires Narrower(rest0, key0, rest1, key1) && Narrower(rest1, key1, rest2, key2)
    ensures Narrower(rest0, key0, rest2, key2)
  {
  }

  // ---- thread exit ----

  const PTHREAD_DESTRUCTOR_ITERATIONS := 4

  predicate Calls(value: nat, pass: nat) { value != 0 && pass <= PTHREAD_DESTRUCTOR_ITERATIONS }

  lemma CursorStep(byThread: Links, byKey: Links, thread: map<nat, nat>, key: map<nat, nat>,
                   columns: seq<seq<nat>>, rows: seq<seq<nat>>, cursors: seq<Ptr>,
                   present: seq<bool>, destructor: seq<bool>, t: nat)
    requires Wiring(byThread, byKey, thread, key, columns, rows, cursors, present, destructor)
    requires t < |columns| && t < |cursors| && cursors[t].To?
    ensures var a, rest := cursors[t].a, Rest(columns[t], cursors[t]);
      && a in byThread.next && a in thread && a in key && thread[a] == t && rest != [] && rest[0] == a
      && Wiring(byThread, byKey, thread, key, columns, rows, cursors[t := byThread.next[a]], present, destructor)
      && Rest(columns[t], byThread.next[a]) == rest[1..]
      && Without(rest[1..], a) == rest[1..]
      && forall x :: x in rest[1..] ==> x in key && key[x] != key[a]
  {
    hide Rest, Lists, Without, Distinct, LinkedAt, RowsLive;
    ListOf(byThread, thread, columns, t);
    var a, rest := cursors[t].a, Rest(columns[t], cursors[t]);
    CursorStepOn(byThread, columns[t], cursors[t]);
    RestOnChain(columns[t], cursors[t]);
    forall x | x in rest[1..] ensures x in key && key[x] != key[a] {
      assert x in rest;
    }
  }

  lemma CursorStepOn(l: Links, chain: seq<nat>, p: Ptr)
    requires Chained(l, Nth(chain, 0), chain) && OnChain(p, chain) && p.To?
    ensures p.a in l.next && OnChain(l.next[p.a], chain)
    ensures Rest(chain, p) != [] && Rest(chain, p)[0] == p.a && p.a !in Rest(chain, p)[1..]
    ensures Rest(chain, l.next[p.a]) == Rest(chain, p)[1..] == Without(Rest(chain, p)[1..], p.a)
  {
    var i := RestAt(chain, p);
    assert LinkedAt(l, chain, i);
    RestIsSuffix(chain, i + 1);
    assert p.a !in chain[i + 1..];
    WithoutAbsent(chain[i + 1..], p.a);
    assert chain[i..][1..] == chain[i + 1..];
  }

  lemma TakenStaysCovered(tls: map<(nat, nat), nat>, thread: map<nat, nat>, key: map<nat, nat>,
                          live: seq<bool>, destructor: seq<bool>, t: nat, k: nat)
    requires Covered(tls, thread, key, live, destructor)
    ensures Covered(tls[(t, k) := 0], thread, key, live, destructor)
  {
    forall u: nat, j: nat | j < |live| && j < |destructor| && live[j] && destructor[j] && Value(tls[(t, k) := 0], u, j) != 0
      ensures Associated(thread, key, u, j)
    {
      assert Value(tls, u, j) != 0;
    }
  }

  /** A destructor call: in which pass, for which key and with which value. */
  datatype Call = Call(pass: nat, key: nat, value: nat)

  /** What other threads do between two turns, and whether one is then in the key's way. */
  datatype Turn = Turn(calls: seq<Op>, busy: bool)

  /** Nobody touches thread t's value under key k, except that key's own destructor. */
  ghost predicate Spared(t: nat, k: nat, others: seq<Turn>, destructors: nat -> seq<Op>, calls: seq<Call>) {
    && (forall i :: 0 <= i < |others| ==> NoneTouches(others[i].calls, t, k))
    && (forall n :: 0 <= n < |calls| && calls[n].key != k ==> NoneTouches(destructors(n), t, k))
  }

  lemma SparedBefore(t: nat, k: nat, others: seq<Turn>, destructors: nat -> seq<Op>, calls: seq<Call>, call: Call)
    ensures Spared(t, k, others, destructors, calls + [call]) ==>
      Spared(t, k, others, destructors, calls) && (call.key != k ==> NoneTouches(destructors(|calls|), t, k))
  {
    var calls' := calls + [call];
    assert calls'[|calls|] == call;
    forall n | 0 <= n < |calls| ensures calls'[n] == calls[n] {}
  }

  lemma SparedByOthers(t: nat, k: nat, others: seq<Turn>, destructors: nat -> seq<Op>, calls: seq<Call>, turn: Turn)
    requires turn in others
    ensures Spared(t, k, others, destructors, calls) ==> NoneTouches(turn.calls, t, k)
  {
    var i :| 0 <= i < |others| && others[i] == turn;
  }

  lemma NothingHasKey(key: map<nat, nat>, k: nat)
    ensures !HasKey([], key, k)
  {
  }

  /** The nodes behind a turn's own keep their key. */
  lemma StillHasKey(a: nat, rest: seq<nat>, key: map<nat, nat>, key': map<nat, nat>, k: nat)
    requires HasKey([a] + rest, key, k) && a in key && key[a] != k
    requires forall x :: x in rest ==> x in key && x in key' && key'[x] == key[x]
    ensures HasKey(rest, key', k)
  {
    HasKeyInRest(a, rest, key, k);
    var b :| b in rest && b in key && key[b] == k;
    assert b in key' && key'[b] == k;
  }

  lemma SparedInPrefix(t: nat, k: nat, others: seq<Turn>, destructors: nat -> seq<Op>, calls: seq<Call>, n: nat)
    requires n <= |calls| && Spared(t, k, others, destructors, calls)
    ensures Spared(t, k, others, destructors, calls[..n])
  {
  }

  /** Destructors get values, in the first passes only, and no key twice in a pass. */
  ghost predicate CallsOk(calls: seq<Call>, passes: int) {
    && (forall i :: 0 <= i < |calls| ==>
          1 <= calls[i].pass <= passes && Calls(calls[i].value, calls[i].pass))
    && (forall i, j :: 0 <= i < j < |calls| ==>
          calls[i].pass <= calls[j].pass && (calls[i].key == calls[j].key ==> calls[i].pass < calls[j].pass))
  }

  lemma NoCalls()
    ensures CallsOk([], 0)
  {
  }

  function CallsFor(calls: seq<Call>, k: nat): nat {
    if calls == [] then 0
    else CallsFor(calls[..|calls| - 1], k) + if calls[|calls| - 1].key == k then 1 else 0
  }

  /** No key's destructor is called more often than the constant says. */
  lemma {:induction false} DestructorCallsBounded(calls: seq<Call>, passes: int, k: nat)
    requires CallsOk(calls, passes)
    ensures CallsFor(calls, k) <= PTHREAD_DESTRUCTOR_ITERATIONS
    ensures calls != [] ==> CallsFor(calls, k) <= calls[|calls| - 1].pass
  {
    if calls != [] {
      var init, last := calls[..|calls| - 1], calls[|calls| - 1];
      DestructorCallsBounded(init, passes, k);
      if last.key == k { CallsBefore(init, k, last.pass); }
    }
  }

  lemma {:induction false} CallsBefore(calls: seq<Call>, k: nat, pass: nat)
    requires CallsOk(calls, pass) && pass >= 1
    requires forall i :: 0 <= i < |calls| && calls[i].key == k ==> calls[i].pass < pass
    ensures CallsFor(calls, k) <= pass - 1
  {
    if calls != [] {
      var init, last := calls[..|calls| - 1], calls[|calls| - 1];
      if last.key == k {
        assert CallsOk(init, last.pass);
        CallsBefore(init, k, last.pass);
      } else {
        assert CallsOk(init, pass);
        CallsBefore(init, k, pass);
      }
    }
  }

  /** The keys still ahead of the cursor have not had their turn in this pass. */
  ghost predicate NotYetCalled(calls: seq<Call>, pass: nat, rest: seq<nat>, key: map<nat, nat>) {
    forall c, a :: c in calls && c.pass == pass && a in rest ==> a in key && key[a] != c.key
  }

  lemma NotYetCalledStill(calls: seq<Call>, pass: nat, rest: seq<nat>, key: map<nat, nat>,
                          rest': seq<nat>, key': map<nat, nat>)
    requires NotYetCalled(calls, pass, rest, key) && Narrower(rest, key, rest', key')
    ensures NotYetCalled(calls, pass, rest', key')
    ensures |rest'| <= |rest|
  {
  }

  lemma PassStarts(calls: seq<Call>, pass: nat)
    requires CallsOk(calls, pass - 1)
    ensures CallsOk(calls, pass)
    ensures forall rest: seq<nat>, key: map<nat, nat> :: NotYetCalled(calls, pass, rest, key)
  {
  }

  lemma TurnTaken(calls: seq<Call>, pass: nat, rest0: seq<nat>, key0: map<nat, nat>, rest: seq<nat>, key: map<nat, nat>,
                  a: nat, k: nat, value: nat)
    requires CallsOk(calls, pass) && NotYetCalled(calls, pass, rest0, key0) && pass >= 1
    requires rest0 == [a] + rest && a in key0 && k == key0[a]
    requires forall x :: x in rest ==> x in key && x in key0 && key[x] == key0[x] && key[x] != k
    ensures NotYetCalled(calls, pass, rest, key) && NotYetCalled(calls + [Call(pass, k, value)], pass, rest, key)
    ensures Calls(value, pass) ==> CallsOk(calls + [Call(pass, k, value)], pass)
  {
    assert a in rest0;
    var calls' := calls + [Call(pass, k, value)];
    assert forall x :: x in rest ==> x in rest0;
    assert forall i :: 0 <= i < |calls| ==> calls[i] in calls;
    assert forall c :: c in calls' ==> c in calls || c == Call(pass, k, value);
  }

  lemma StartCursor(byThread: Links, byKey: Links, thread: map<nat, nat>, key: map<nat, nat>,
                    columns: seq<seq<nat>>, rows: seq<seq<nat>>, cursors: seq<Ptr>,
                    present: seq<bool>, destructor: seq<bool>, t: nat)
    requires Wiring(byThread, byKey, thread, key, columns, rows, cursors, present, destructor) && t < |columns|
    ensures |columns| == |cursors| == |byThread.heads|
    ensures Wiring(byThread, byKey, thread, key, columns, rows, cursors[t := byThread.heads[t]], present, destructor)
    ensures Rest(columns[t], byThread.heads[t]) == columns[t]
  {
    ListOf(byThread, thread, columns, t);
    RestIsSuffix(columns[t], 0);
  }

  lemma NothingLeft(byThread: Links, byKey: Links, thread: map<nat, nat>, key: map<nat, nat>,
                    columns: seq<seq<nat>>, rows: seq<seq<nat>>, cursors: seq<Ptr>,
                    present: seq<bool>, destructor: seq<bool>, live: seq<bool>, tls: map<(nat, nat), nat>, t: nat)
    requires Wiring(byThread, byKey, thread, key, columns, rows, cursors, present, destructor)
    requires Covered(tls, thread, key, live, destructor) && t < |columns| && columns[t] == []
    ensures forall k: nat :: k < |live| && k < |destructor| && live[k] && destructor[k] ==> Value(tls, t, k) == 0
  {
    forall k: nat | k < |live| && k < |destructor| && live[k] && destructor[k] ensures Value(tls, t, k) == 0 {
      NotAssociated(byThread, thread, key, columns, t, k);
    }
  }

  /** The library's thread-specific data in the C program's own form. Every method is what
      happens while the locks it needs are held. */
  class Registry {
    // struct ThreadKeyAssoc, by address
    var thread: map<nat, nat>
    var key: map<nat, nat>
    var prevKey: map<nat, Ptr>
    var nextKey: map<nat, Ptr>
    var prevThread: map<nat, Ptr>
    var nextThread: map<nat, Ptr>
    // struct ptw32_thread_t
    var keys: seq<Ptr>
    var nextAssoc: seq<Ptr>
    // struct pthread_key_t_
    var threads: seq<Ptr>
    var destructor: seq<bool>
    /** The key is not freed; and nobody has begun to delete it. */
    var present: seq<bool>
    var live: seq<bool>
    // the operating system's thread-local storage
    var tls: map<(nat, nat), nat>
    /** The lists of the threads and of the keys, front to back. */
    ghost var columns: seq<seq<nat>>
    ghost var rows: seq<seq<nat>>

    ghost function ByThread(): Links reads this { Links(prevKey, nextKey, keys) }

    ghost function ByKey(): Links reads this { Links(prevThread, nextThread, threads) }

    ghost predicate Wired() reads this {
      Wiring(ByThread(), ByKey(), thread, key, columns, rows, nextAssoc, present, destructor)
    }

    ghost predicate Valid() reads this {
      Wired() && Covered(tls, thread, key, live, destructor) && KeysOk(live, present)
    }

    /** A key_delete of k is under way and holds the key's lock. */
    ghost predicate Deleting(k: nat) reads this { k < |live| == |present| && present[k] && !live[k] }

    ghost function Ahead(t: nat): seq<nat>
      requires t < |columns| && t < |nextAssoc|
      reads this
    {
      Rest(columns[t], nextAssoc[t])
    }

    constructor (n: nat)
      ensures Valid() && |columns| == n && rows == [] && thread == map[] && tls == map[]
    {
      thread, key, prevKey, nextKey, prevThread, nextThread := map[], map[], map[], map[], map[], map[];
      keys, nextAssoc := seq(n, i => Null), seq(n, i => Null);
      threads, destructor, present, live, tls := [], [], [], [], map[];
      columns, rows := seq(n, i => []), [];
    }

    method UnlinkFromThread(a: nat)
      requires a in thread && a in prevKey && a in nextKey && thread[a] < |keys| && thread[a] < |nextAssoc|
      modifies this`prevKey, this`nextKey, this`keys, this`nextAssoc
      ensures ByThread() == old(Unlink(ByThread(), thread[a], a))
      ensures nextAssoc == old(nextAssoc[thread[a] := if nextAssoc[thread[a]] == To(a) then nextKey[a] else nextAssoc[thread[a]]])
    {
      var t := thread[a];
      var prev, next := prevKey[a], nextKey[a];
      if prev.To? { nextKey := nextKey[prev.a := next]; }
      if next.To? { prevKey := prevKey[next.a := prev]; }
      if keys[t] == To(a) { keys := keys[t := next]; }
      if nextAssoc[t] == To(a) { nextAssoc := nextAssoc[t := next]; }
      prevKey, nextKey := prevKey - {a}, nextKey - {a};
    }

    method UnlinkFromKey(a: nat)
      requires a in key && a in prevThread && a in nextThread && key[a] < |threads|
      modifies this`prevThread, this`nextThread, this`threads
      ensures ByKey() == old(Unlink(ByKey(), key[a], a))
    {
      var k := key[a];
      var prev, next := prevThread[a], nextThread[a];
      if prev.To? { nextThread := nextThread[prev.a := next]; }
      if next.To? { prevThread := prevThread[next.a := prev]; }
      if threads[k] == To(a) { threads := threads[k := next]; }
      prevThread, nextThread := prevThread - {a}, nextThread - {a};
    }

    /** ptw32_tkAssocDestroy: unlinks a from both lists, moves the cursor off it, frees it. */
    method AssocDestroy(a: nat)
      requires Wired() && a in thread
      modifies this`thread, this`key, this`prevKey, this`nextKey, this`prevThread, this`nextThread,
               this`keys, this`nextAssoc, this`threads, this`columns, this`rows
      ensures Wired() && thread == old(thread) - {a} && key == old(key) - {a}
      ensures old(a in key && thread[a] < |columns| == |nextAssoc| && key[a] < |rows|)
      ensures columns == old(columns[thread[a] := Without(columns[thread[a]], a)])
      ensures rows == old(rows[key[a] := Without(rows[key[a]], a)])
      ensures |nextAssoc| == |columns| && nextAssoc == old(nextAssoc)[old(thread[a]) := nextAssoc[old(thread[a])]]
      ensures Ahead(old(thread[a])) == old(Without(Ahead(thread[a]), a))
    {
      hide Wiring, Unlink, Without, Rest;
      DestroyKeepsWiring(ByThread(), ByKey(), thread, key, columns, rows, nextAssoc, present, destructor, a);
      ghost var t, k := thread[a], key[a];
      UnlinkFromThread(a);
      UnlinkFromKey(a);
      thread, key := thread - {a}, key - {a};
      columns, rows := columns[t := Without(columns[t], a)], rows[k := Without(rows[k], a)];
    }

    method PushOnThread(t: nat, a: nat)
      requires t < |keys|
      modifies this`prevKey, this`nextKey, this`keys
      ensures ByThread() == Push(old(ByThread()), t, a)
    {
      var head := keys[t];
      nextKey := nextKey[a := head];
      if head.To? { prevKey := prevKey[head.a := To(a)]; }
      prevKey := prevKey[a := Null];
      keys := keys[t := To(a)];
    }

    method PushOnKey(k: nat, a: nat)
      requires k < |threads|
      modifies this`prevThread, this`nextThread, this`threads
      ensures ByKey() == Push(old(ByKey()), k, a)
    {
      var head := threads[k];
      nextThread := nextThread[a := head];
      if head.To? { prevThread := prevThread[head.a := To(a)]; }
      prevThread := prevThread[a := Null];
      threads := threads[k := To(a)];
    }

    method CreateAt(t: nat, k: nat, a: nat)
      requires Wired() && t < |columns| && k < |rows| && present[k] && destructor[k] && a !in thread
      requires !Associated(thread, key, t, k)
      modifies this`thread, this`key, this`prevKey, this`nextKey, this`prevThread, this`nextThread,
               this`keys, this`threads, this`columns, this`rows
      ensures Wired() && thread == old(thread)[a := t] && key == old(key)[a := k]
      ensures columns == old(columns)[t := [a] + old(columns)[t]] && rows == old(rows)[k := [a] + old(rows)[k]]
      ensures |nextAssoc| == |columns| && Ahead(t) == old(Ahead(t))
    {
      hide Wiring, Push, Rest, Associated;
      SizesOk(ByThread(), ByKey(), thread, key, columns, rows, nextAssoc, present, destructor);
      CreateKeepsWiring(ByThread(), ByKey(), thread, key, columns, rows, nextAssoc, present, destructor, t, k, a);
      PushOnKey(k, a);
      PushOnThread(t, a);
      thread := thread[a := t];
      key := key[a := k];
      columns, rows := columns[t := [a] + columns[t]], rows[k := [a] + rows[k]];
    }

    /** ptw32_tkAssocCreate, at the address calloc returned. */
    method AssocCreate(t: nat, k: nat, block: Ptr) returns (r: Result)
      requires Wired() && t < |columns| && k < |rows| && present[k] && destructor[k]
      requires block.To? ==> block.a !in thread
      requires !Associated(thread, key, t, k)
      modifies this`thread, this`key, this`prevKey, this`nextKey, this`prevThread, this`nextThread,
               this`keys, this`threads, this`columns, this`rows
      ensures Wired() && r == if block == Null then ENOMEM else OK
      ensures r == ENOMEM ==> columns == old(columns) && rows == old(rows) && thread == old(thread) && key == old(key)
      ensures r == OK ==>
        && thread == old(thread)[block.a := t] && key == old(key)[block.a := k]
        && columns == old(columns)[t := [block.a] + old(columns)[t]]
        && rows == old(rows)[k := [block.a] + old(rows)[k]]
      ensures t < |nextAssoc| && |nextAssoc| == |columns| && Ahead(t) == old(Ahead(t))
    {
      hide Wiring, Rest, Associated;
      SizesOk(ByThread(), ByKey(), thread, key, columns, rows, nextAssoc, present, destructor);
      if block == Null { return ENOMEM; }
      CreateAt(t, k, block.a);
      return OK;
    }

    /** The search loop of pthread_setspecific. */
    method Find(t: nat, k: nat) returns (found: bool)
      requires Wired() && t < |columns|
      ensures found <==> Associated(thread, key, t, k)
    {
      hide Unique, CursorsOk, RowsLive, Lists, Associated;
      ListOf(ByThread(), thread, columns, t);
      var assoc := keys[t];
      ghost var i := 0;
      found := false;
      while assoc != Null
        invariant i <= |columns[t]| && assoc == Nth(columns[t], i) && !found
        invariant forall j :: 0 <= j < i ==> columns[t][j] in key && key[columns[t][j]] != k
        decreases |columns[t]| - i
      {
        assert LinkedAt(ByThread(), columns[t], i);
        if key[assoc.a] == k {
          assert Associated(thread, key, t, k) by { Associates(thread, key, assoc.a); }
          return true;
        }
        assoc := nextKey[assoc.a];
        i := i + 1;
      }
      NotAssociated(ByThread(), thread, key, columns, t, k);
    }

    /** The part of pthread_setspecific that holds the key's and the thread's lock. */
    method Associate(t: nat, k: nat, v: nat, block: Ptr) returns (r: Result)
      requires Valid() && t < |columns| && k < |live| && live[k]
      requires block.To? ==> block.a !in thread
      modifies this`thread, this`key, this`prevKey, this`nextKey, this`prevThread, this`nextThread,
               this`keys, this`threads, this`columns, this`rows
      ensures Valid() && |columns| == old(|columns|) && |rows| == old(|rows|) && k < |destructor|
      ensures var needs := old(destructor[k] && v != 0 && !Associated(thread, key, t, k));
        && r == (if needs && block == Null then ENOMEM else OK)
        && (if needs && r == OK then
              && thread == old(thread)[block.a := t] && key == old(key)[block.a := k]
              && columns == old(columns)[t := [block.a] + old(columns)[t]]
              && rows == old(rows)[k := [block.a] + old(rows)[k]]
            else thread == old(thread) && key == old(key) && columns == old(columns) && rows == old(rows))
      ensures r == OK && destructor[k] && v != 0 ==> Associated(thread, key, t, k)
      ensures t < |nextAssoc| && |nextAssoc| == |columns| && Ahead(t) == old(Ahead(t))
    {
      hide Wiring, Rest, Associated, Covered, KeysOk;
      SizesOk(ByThread(), ByKey(), thread, key, columns, rows, nextAssoc, present, destructor);
      CreateKeepsCovered(tls, thread, key, live, destructor, t, k, block);
      LiveIsPresent(live, present, k);
      r := OK;
      if destructor[k] && v != 0 {
        var found := Find(t, k);
        if !found {
          r := AssocCreate(t, k, block);
          if r == OK { Associates(thread, key, block.a); }
        }
      }
    }

    /** pthread_setspecific on behalf of thread t; `stored` is what TlsSetValue returns. */
    method SetSpecific(t: nat, k: nat, v: nat, block: Ptr, stored: bool) returns (r: Result)
      requires Valid() && t < |columns| && k < |live| && live[k]
      requires block.To? ==> block.a !in thread
      modifies this`thread, this`key, this`prevKey, this`nextKey, this`prevThread, this`nextThread,
               this`keys, this`threads, this`columns, this`rows, this`tls
      ensures Valid() && |columns| == old(|columns|) && |rows| == old(|rows|)
      ensures var needs := old(destructor[k] && v != 0 && !Associated(thread, key, t, k));
        && r == (if needs && block == Null then ENOMEM else if !stored then EAGAIN else OK)
        && tls == (if r == OK then old(tls)[(t, k) := v] else old(tls))
        && (if needs && r != ENOMEM then
              && thread == old(thread)[block.a := t] && key == old(key)[block.a := k]
              && columns == old(columns)[t := [block.a] + old(columns)[t]]
              && rows == old(rows)[k := [block.a] + old(rows)[k]]
            else thread == old(thread) && key == old(key) && columns == old(columns) && rows == old(rows))
      ensures t < |nextAssoc| && |nextAssoc| == |columns| && Ahead(t) == old(Ahead(t))
    {
      hide Wiring, Rest, Associated, Covered, KeysOk;
      r := Associate(t, k, v, block);
      if r == OK {
        SizesOk(ByThread(), ByKey(), thread, key, columns, rows, nextAssoc, present, destructor);
        SetKeepsCovered(tls, thread, key, live, destructor, t, k, v);
        if stored { tls := tls[(t, k) := v]; } else { r := EAGAIN; }
      }
    }

    method AddKey(hasDestructor: bool) returns (k: nat)
      requires Valid()
      modifies this`threads, this`destructor, this`present, this`live, this`rows, this`tls
      ensures Valid() && k == old(|rows|) && rows == old(rows) + [[]] && tls == WithoutKey(old(tls), k)
      ensures destructor == old(destructor) + [hasDestructor]
      ensures live == old(live) + [true] && present == old(present) + [true]
    {
      hide Wiring, Covered, KeysOk, WithoutKey;
      NewKeyOk(live, present);
      NewKeyKeepsWiring(ByThread(), ByKey(), thread, key, columns, rows, nextAssoc, present, destructor, hasDestructor);
      NewKeyCovered(tls, thread, key, live, destructor, hasDestructor);
      k := |threads|;
      tls, threads := WithoutKey(tls, k), threads + [Null];
      destructor, present, live := destructor + [hasDestructor], present + [true], live + [true];
      rows := rows + [[]];
    }

    /** pthread_key_create; `memory` and `slot` say whether calloc and TlsAlloc succeed. */
    method KeyCreate(hasDestructor: bool, memory: bool, slot: bool) returns (r: Result, k: nat)
      requires Valid()
      modifies this`threads, this`destructor, this`present, this`live, this`rows, this`tls
      ensures Valid() && r == if !memory then ENOMEM else if !slot then EAGAIN else OK
      ensures r != OK ==>
        && rows == old(rows) && tls == old(tls)
        && destructor == old(destructor) && live == old(live) && present == old(present)
      ensures r == OK ==>
        && k == old(|rows|) && rows == old(rows) + [[]] && tls == WithoutKey(old(tls), k)
        && destructor == old(destructor) + [hasDestructor]
        && live == old(live) + [true] && present == old(present) + [true]
    {
      hide *;
      r, k := OK, 0;
      if !memory { r := ENOMEM; }
      else if !slot { r := EAGAIN; }
      else { k := AddKey(hasDestructor); }
    }

    /** The key's lock is taken: from now on nobody gets a new association for it. */
    method BeginDelete(k: nat)
      requires Valid() && k < |live| && live[k]
      modifies this`live
      ensures Valid() && Deleting(k) && live == old(live)[k := false]
    {
      hide Wiring, Covered;
      CoveredWithout(tls, thread, key, live, destructor, k);
      LiveIsPresent(live, present, k);
      live := live[k := false];
    }

    /** One turn of the loop of pthread_key_delete, under the key's and a thread's lock. */
    method DeleteNext(k: nat)
      requires Valid() && Deleting(k) && k < |threads| && threads[k].To?
      modifies this`thread, this`key, this`prevKey, this`nextKey, this`prevThread, this`nextThread,
               this`keys, this`nextAssoc, this`threads, this`columns, this`rows
      ensures Valid() && old(k < |rows|) && old(rows[k]) != [] && rows == old(rows)[k := old(rows)[k][1..]]
      ensures |columns| == |nextAssoc| == old(|columns|) == old(|nextAssoc|)
      ensures var a := old(rows[k][0]);
        && a in old(key) && old(key)[a] == k && key == old(key) - {a}
        && a in old(thread) && old(thread)[a] < |columns| && thread == old(thread) - {a}
        && columns == old(columns)[old(thread)[a] := Without(old(columns)[old(thread)[a]], a)]
        && nextAssoc == old(nextAssoc)[old(thread)[a] := nextAssoc[old(thread)[a]]]
        && Ahead(old(thread)[a]) == Without(Rest(old(columns)[old(thread)[a]], old(nextAssoc)[old(thread)[a]]), a)
    {
      hide Wiring, Covered, Rest, Without;
      SizesOk(ByThread(), ByKey(), thread, key, columns, rows, nextAssoc, present, destructor);
      HeadOfRow(ByThread(), ByKey(), thread, key, columns, rows, nextAssoc, present, destructor, k);
      ghost var a := rows[k][0];
      CoveredWithoutNode(tls, thread, key, live, destructor, a);
      WithoutFirst(rows[k]);
      AssocDestroy(threads[k].a);
      SizesOk(ByThread(), ByKey(), thread, key, columns, rows, nextAssoc, present, destructor);
    }

    /** The loop of pthread_key_delete. */
    method EmptyRow(k: nat)
      requires Valid() && Deleting(k)
      modifies this`thread, this`key, this`prevKey, this`nextKey, this`prevThread, this`nextThread,
               this`keys, this`nextAssoc, this`threads, this`columns, this`rows
      ensures Valid() && old(k < |rows|) && rows == old(rows)[k := []]
      ensures |columns| == |nextAssoc| == old(|columns|) == old(|nextAssoc|)
      ensures Deleted(old(thread), old(key), thread, key, k)
      ensures SameOthers(old(columns), old(nextAssoc), columns, nextAssoc, old(key), k)
    {
      hide Wiring, Covered, Rest, Others, Without, SameOthers, Deleted;
      SizesOk(ByThread(), ByKey(), thread, key, columns, rows, nextAssoc, present, destructor);
      HeadOfRow(ByThread(), ByKey(), thread, key, columns, rows, nextAssoc, present, destructor, k);
      NothingDeleted(thread, key, columns, nextAssoc, k);
      while threads[k] != Null
        invariant Valid() && Deleting(k)
        invariant |columns| == |nextAssoc| == old(|columns|) == old(|nextAssoc|) && |threads| == |rows| == old(|rows|)
        invariant k < |rows| && rows == old(rows)[k := rows[k]]
        invariant threads[k] == Nth(rows[k], 0)
        invariant Deleted(old(thread), old(key), thread, key, k)
        invariant SameOthers(old(columns), old(nextAssoc), columns, nextAssoc, old(key), k)
        decreases |rows[k]|
      {
        ghost var a, thread1, key1, columns1, nextAssoc1 := rows[k][0], thread, key, columns, nextAssoc;
        DeleteNext(k);
        DeleteOne(old(thread), old(key), thread1, key1, old(columns), old(nextAssoc), columns1, nextAssoc1, k, a);
        assert SameOthers(old(columns), old(nextAssoc), columns, nextAssoc, old(key), k);
        SizesOk(ByThread(), ByKey(), thread, key, columns, rows, nextAssoc, present, destructor);
        HeadOfRow(ByThread(), ByKey(), thread, key, columns, rows, nextAssoc, present, destructor, k);
      }
    }

    /** The rest of a key_delete that has been begun: the remaining turns of the loop, and
        free. */
    method EndDelete(k: nat)
      requires Valid() && Deleting(k)
      modifies this`thread, this`key, this`prevKey, this`nextKey, this`prevThread, this`nextThread,
               this`keys, this`nextAssoc, this`threads, this`columns, this`rows, this`present
      ensures Valid() && present == old(present)[k := false] && old(k < |rows|) && rows == old(rows)[k := []]
      ensures k !in key.Values && Deleted(old(thread), old(key), thread, key, k)
      ensures |columns| == |nextAssoc| == old(|columns|) == old(|nextAssoc|)
      ensures forall t :: 0 <= t < |columns| ==> columns[t] == Others(old(columns)[t], old(key), k)
      ensures forall t :: 0 <= t < |columns| ==> Ahead(t) == old(Others(Ahead(t), key, k))
    {
      hide Wiring, Covered, Rest, Others, Without, Deleted, SameOthers;
      SizesOk(ByThread(), ByKey(), thread, key, columns, rows, nextAssoc, present, destructor);
      EmptyRow(k);
      NoneLeft(ByThread(), ByKey(), thread, key, columns, rows, nextAssoc, present, destructor,
               old(thread), old(key), old(columns), old(nextAssoc), k);
      LiveIsPresent(live, present, k);
      present := present[k := false];
    }

    /** pthread_key_delete without anybody in between. */
    method KeyDelete(k: nat)
      requires Valid() && k < |live| && live[k]
      modifies this`thread, this`key, this`prevKey, this`nextKey, this`prevThread, this`nextThread,
               this`keys, this`nextAssoc, this`threads, this`columns, this`rows, this`live, this`present
      ensures Valid() && live == old(live)[k := false] && old(k < |rows|) && rows == old(rows)[k := []]
      ensures old(k < |present|) && present == old(present)[k := false]
      ensures k !in key.Values && Deleted(old(thread), old(key), thread, key, k)
      ensures |columns| == |nextAssoc| == old(|columns|) == old(|nextAssoc|)
      ensures forall t :: 0 <= t < |columns| ==> columns[t] == Others(old(columns)[t], old(key), k)
      ensures forall t :: 0 <= t < |columns| ==> Ahead(t) == old(Others(Ahead(t), key, k))
    {
      hide Wiring, Covered, Rest, Others, Without, Deleted;
      BeginDelete(k);
      EndDelete(k);
    }

    /** Setting the cursor to the front, as every pass of an exiting thread begins. */
    method StartPass(t: nat)
      requires Valid() && t < |columns|
      modifies this`nextAssoc
      ensures Valid() && |columns| == |nextAssoc| == old(|nextAssoc|)
      ensures nextAssoc == old(nextAssoc)[t := nextAssoc[t]] && Ahead(t) == columns[t]
    {
      hide Wiring, Covered, Rest;
      StartCursor(ByThread(), ByKey(), thread, key, columns, rows, nextAssoc, present, destructor, t);
      nextAssoc := nextAssoc[t := keys[t]];
    }

    /** The try_acquire of the key's lock by an exiting thread fails for a key being deleted. */
    method KeyOfNext(t: nat) returns (k: nat, free: bool)
      requires Valid() && t < |columns| && t < |nextAssoc| && nextAssoc[t].To?
      ensures k < |live| && (if free then live[k] else Deleting(k))
      ensures BeginsWith(Ahead(t), key, k)
    {
      hide Wiring, Covered, Rest;
      NextIsPresent(ByThread(), ByKey(), thread, key, columns, rows, nextAssoc, present, destructor, t);
      CursorStep(ByThread(), ByKey(), thread, key, columns, rows, nextAssoc, present, destructor, t);
      k := key[nextAssoc[t].a];
      free := live[k];
    }

    /** Key k is live, and its association is still ahead of thread t's cursor. */
    ghost predicate Pending(t: nat, k: nat)
      reads this
    {
      && t < |columns| && t < |nextAssoc| && k < |live| && live[k] && HasKey(Ahead(t), key, k)
    }

    method DeleteStep(j: nat, ghost t: nat, ghost k: nat)
      requires Valid() && t < |columns| && Deleting(j)
      modifies this`thread, this`key, this`prevKey, this`nextKey, this`prevThread, this`nextThread,
               this`keys, this`nextAssoc, this`threads, this`columns, this`rows, this`present
      ensures Valid() && |columns| == old(|columns|) && |nextAssoc| == |columns| && old(|nextAssoc| == |columns|)
      ensures Narrower(old(Ahead(t)), old(key), Ahead(t), key)
      ensures old(columns[t] == Ahead(t)) ==> columns[t] == Ahead(t)
      ensures old(Pending(t, k)) ==> Pending(t, k)
    {
      hide Wiring, Covered, Rest, Without, Narrower, Deleted, Others, HasKey;
      SizesOk(ByThread(), ByKey(), thread, key, columns, rows, nextAssoc, present, destructor);
      AheadIsLive(ByThread(), ByKey(), thread, key, columns, rows, nextAssoc, present, destructor, t);
      HeadOfRow(ByThread(), ByKey(), thread, key, columns, rows, nextAssoc, present, destructor, j);
      if threads[j] != Null {
        ghost var a := rows[j][0];
        if Pending(t, k) { HasKeyAfterRemoval(Ahead(t), key, a, k); }
        DeleteNext(j);
        AheadIsLive(ByThread(), ByKey(), thread, key, columns, rows, nextAssoc, present, destructor, t);
        WithoutNarrows(old(Ahead(t)), old(key), a);
      } else {
        EndDelete(j);
        DeleteNarrows(old(Ahead(t)), old(thread), old(key), thread, key, j);
        if old(Pending(t, k)) { HasKeyAfterDelete(old(Ahead(t)), old(thread), old(key), thread, key, j, k); }
      }
    }

    method WholeDelete(j: nat, ghost t: nat, ghost k: nat)
      requires Valid() && t < |columns| && j < |live| && live[j]
      modifies this`thread, this`key, this`prevKey, this`nextKey, this`prevThread, this`nextThread,
               this`keys, this`nextAssoc, this`threads, this`columns, this`rows, this`live, this`present
      ensures Valid() && |columns| == old(|columns|) && |nextAssoc| == |columns| && old(|nextAssoc| == |columns|)
      ensures Narrower(old(Ahead(t)), old(key), Ahead(t), key)
      ensures old(columns[t] == Ahead(t)) ==> columns[t] == Ahead(t)
      ensures old(Pending(t, k)) && j != k ==> Pending(t, k)
    {
      hide Wiring, Covered, Rest, Without, Narrower, Deleted, Others, HasKey;
      SizesOk(ByThread(), ByKey(), thread, key, columns, rows, nextAssoc, present, destructor);
      AheadIsLive(ByThread(), ByKey(), thread, key, columns, rows, nextAssoc, present, destructor, t);
      KeyDelete(j);
      DeleteNarrows(old(Ahead(t)), old(thread), old(key), thread, key, j);
      if old(Pending(t, k)) && j != k { HasKeyAfterDelete(old(Ahead(t)), old(thread), old(key), thread, key, j, k); }
    }

    /** What other exiting threads do does not reach thread t's list or its values. */
    method TeardownStep(u: nat, pass: nat, ghost t: nat, ghost k: nat)
      requires Valid() && t < |columns| && u < |columns| && u != t && u < |nextAssoc|
      modifies this`thread, this`key, this`prevKey, this`nextKey, this`prevThread, this`nextThread,
               this`keys, this`nextAssoc, this`threads, this`columns, this`rows, this`tls
      ensures Valid() && |columns| == old(|columns|) && |nextAssoc| == |columns| && old(|nextAssoc| == |columns|)
      ensures columns[t] == old(columns[t]) && Narrower(old(Ahead(t)), old(key), Ahead(t), key)
      ensures Ahead(t) == old(Ahead(t)) && Value(tls, t, k) == old(Value(tls, t, k))
      ensures old(Pending(t, k)) ==> Pending(t, k)
    {
      hide Wiring, Covered, Rest, Without, Narrower, HasKey;
      SizesOk(ByThread(), ByKey(), thread, key, columns, rows, nextAssoc, present, destructor);
      AheadIsLive(ByThread(), ByKey(), thread, key, columns, rows, nextAssoc, present, destructor, t);
      SetNarrows(Ahead(t), key, key, Null, 0);
      if nextAssoc[u].To? {
        var j, free := KeyOfNext(u);
        if free {
          var j', value, a := TakeNext(u, pass);
          RemovalNarrows(Ahead(t), old(key), key, a, old(thread), t);
          if old(Pending(t, k)) { HasKeyKept(Ahead(t), old(key), key, a, old(thread), t, k); }
        }
      }
    }

    method SetStep(u: nat, j: nat, v: nat, block: Ptr, stored: bool, ghost t: nat, ghost k: nat)
      requires Valid() && t < |columns| && u < |columns| && j < |live| && live[j]
      requires block.To? ==> block.a !in thread
      modifies this`thread, this`key, this`prevKey, this`nextKey, this`prevThread, this`nextThread,
               this`keys, this`threads, this`columns, this`rows, this`tls
      ensures Valid() && |columns| == old(|columns|) && |nextAssoc| == |columns| && old(|nextAssoc| == |columns|)
      ensures Narrower(old(Ahead(t)), old(key), Ahead(t), key)
      ensures u != t && old(columns[t] == Ahead(t)) ==> columns[t] == Ahead(t)
      ensures old(Pending(t, k)) ==> Pending(t, k)
      ensures u != t || j != k ==> Value(tls, t, k) == old(Value(tls, t, k))
    {
      hide Wiring, Covered, Rest, Narrower, HasKey;
      SizesOk(ByThread(), ByKey(), thread, key, columns, rows, nextAssoc, present, destructor);
      AheadIsLive(ByThread(), ByKey(), thread, key, columns, rows, nextAssoc, present, destructor, t);
      var r := SetSpecific(u, j, v, block, stored);
      SetNarrows(old(Ahead(t)), old(key), key, block, j);
      if old(Pending(t, k)) { HasKeyAfterSet(old(Ahead(t)), old(key), key, block, j, k); }
    }

    /** One call or step by any thread; calls on keys that do not exist any more are the
        caller's error and are left out, as are addresses calloc cannot return. */
    method Perform(op: Op, ghost t: nat, ghost k: nat)
      requires Valid() && t < |columns|
      requires op.StartPass? || op.TakeNext? ==> op.t != t
      modifies this
      ensures Valid() && |columns| == old(|columns|) && |nextAssoc| == |columns| && old(|nextAssoc| == |columns|)
      ensures Narrower(old(Ahead(t)), old(key), Ahead(t), key)
      ensures old(columns[t] == Ahead(t)) && !(op.Set? && op.t == t) ==> columns[t] == Ahead(t)
      ensures old(Pending(t, k)) && !Touches(op, t, k) ==> Pending(t, k) && Value(tls, t, k) == old(Value(tls, t, k))
    {
      hide Wiring, Covered, Rest, Narrower, HasKey;
      SizesOk(ByThread(), ByKey(), thread, key, columns, rows, nextAssoc, present, destructor);
      AheadIsLive(ByThread(), ByKey(), thread, key, columns, rows, nextAssoc, present, destructor, t);
      SetNarrows(Ahead(t), key, key, Null, 0);
      match op
      case Set(u, j, v, block, stored) =>
        if u < |keys| && j < |live| && live[j] && (block.To? ==> block.a !in thread) {
          SetStep(u, j, v, block, stored, t, k);
        }
      case Create(d, memory, slot) =>
        var r, j := KeyCreate(d, memory, slot);
      case Delete(j) =>
        if j < |live| && live[j] { WholeDelete(j, t, k); }
      case BeginDelete(j) =>
        if j < |live| && live[j] { BeginDelete(j); }
      case DeleteNext(j) =>
        if j < |live| && present[j] && !live[j] { DeleteStep(j, t, k); }
      case StartPass(u) =>
        if u < |keys| { StartPass(u); }
      case TakeNext(u, pass) =>
        if u < |keys| { TeardownStep(u, pass, t, k); }
    }

    /** A run of calls and steps, none of them of thread t's exit; with `others` set, none
        of the calls is thread t's either. */
    method PerformAll(ops: seq<Op>, t: nat, others: bool, ghost k: nat)
      requires Valid() && t < |columns|
      modifies this
      ensures Valid() && |columns| == old(|columns|) && |nextAssoc| == |columns| && old(|nextAssoc| == |columns|)
      ensures Narrower(old(Ahead(t)), old(key), Ahead(t), key)
      ensures old(columns[t] == Ahead(t)) && others ==> columns[t] == Ahead(t)
      ensures old(Pending(t, k)) && NoneTouches(ops, t, k) ==>
        Pending(t, k) && Value(tls, t, k) == old(Value(tls, t, k))
    {
      hide Wiring, Covered, Rest, Narrower, HasKey, Touches;
      SizesOk(ByThread(), ByKey(), thread, key, columns, rows, nextAssoc, present, destructor);
      AheadIsLive(ByThread(), ByKey(), thread, key, columns, rows, nextAssoc, present, destructor, t);
      SetNarrows(Ahead(t), key, key, Null, 0);
      for i := 0 to |ops|
        invariant Valid() && |columns| == |nextAssoc| == old(|columns|) == old(|nextAssoc|)
        invariant Narrower(old(Ahead(t)), old(key), Ahead(t), key)
        invariant old(columns[t] == Ahead(t)) && others ==> columns[t] == Ahead(t)
        invariant old(Pending(t, k)) && NoneTouches(ops, t, k) ==>
          Pending(t, k) && Value(tls, t, k) == old(Value(tls, t, k))
      {
        if !(others && ops[i].Set? && ops[i].t == t) && !((ops[i].StartPass? || ops[i].TakeNext?) && ops[i].t == t) {
          ghost var rest, key1 := Ahead(t), key;
          Perform(ops[i], t, k);
          NarrowerStill(old(Ahead(t)), old(key), rest, key1, Ahead(t), key);
        }
      }
    }

    /** The part of ptw32_callUserDestroyRoutines' loop that holds both locks: moves the
        cursor on, takes the value, and frees the node unless the destructor is to run. */
    method TakeNext(t: nat, pass: nat) returns (k: nat, value: nat, ghost a: nat)
      requires Valid() && t < |columns| && t < |nextAssoc| && nextAssoc[t].To?
      modifies this`thread, this`key, this`prevKey, this`nextKey, this`prevThread, this`nextThread,
               this`keys, this`nextAssoc, this`threads, this`columns, this`rows, this`tls
      ensures Valid() && |columns| == old(|columns|) && |nextAssoc| == |columns|
      ensures old(|nextAssoc|) == |columns| && old(Ahead(t)) == [a] + Ahead(t)
      ensures a in old(thread) && old(thread)[a] == t && nextAssoc == old(nextAssoc)[t := nextAssoc[t]]
      ensures a in old(key) && k == old(key)[a] && value == Value(old(tls), t, k) && tls == old(tls)[(t, k) := 0]
      ensures forall x :: x in Ahead(t) ==> x in key && x in old(key) && key[x] == old(key)[x] && key[x] != k
      ensures BeginsWith(old(Ahead(t)), old(key), k)
      ensures key == if value != 0 && pass <= 4 then old(key) else old(key) - {a}
      ensures columns == if value != 0 && pass <= 4 then old(columns) else old(columns)[t := Without(old(columns)[t], a)]
    {
      hide Wiring, Covered, Rest, Without;
      SizesOk(ByThread(), ByKey(), thread, key, columns, rows, nextAssoc, present, destructor);
      AheadIsLive(ByThread(), ByKey(), thread, key, columns, rows, nextAssoc, present, destructor, t);
      CursorStep(ByThread(), ByKey(), thread, key, columns, rows, nextAssoc, present, destructor, t);
      var assoc := nextAssoc[t].a;
      nextAssoc := nextAssoc[t := nextKey[assoc]];
      a, k := assoc, key[assoc];
      value := Value(tls, t, k);
      TakenStaysCovered(tls, thread, key, live, destructor, t, k);
      tls := tls[(t, k) := 0];
      if !Calls(value, pass) {
        CoveredWithoutNode(tls, thread, key, live, destructor, assoc);
        AssocDestroy(assoc);
      }
    }

    /** One pass over thread t's associations. Before each turn the other threads make the
        calls of the next entry of `others`; a turn is lost if one of them then holds the
        key's lock. `destructors` gives what the n-th destructor call does. In the first
        four passes, every key k that has an association and a value at the beginning, and
        that nobody else touches, has its destructor called with that value. */
    method Pass(t: nat, pass: nat, destructors: nat -> seq<Op>, others: seq<Turn>, before: seq<Call>, ghost k: nat)
      returns (calls: seq<Call>, later: seq<Turn>)
      requires Valid() && t < |columns| && pass >= 1 && CallsOk(before, pass - 1)
      modifies this
      ensures Valid() && |columns| == old(|columns|) && CallsOk(calls, pass)
      ensures |calls| >= |before| && calls[..|before|] == before
      ensures |calls| > |before| ==> pass <= PTHREAD_DESTRUCTOR_ITERATIONS
      ensures |calls| == |before| ==> columns[t] == []
      ensures
        old(Associated(thread, key, t, k) && k < |live| && live[k] && Value(tls, t, k) != 0) && pass <= 4 &&
        Spared(t, k, others, destructors, calls) ==>
          Call(pass, k, old(Value(tls, t, k))) in calls
    {
      hide Wiring, Covered, Rest, Without, Narrower, CallsOk, Calls, HasKey, Associated, Spared, NotYetCalled, NoneTouches;
      SizesOk(ByThread(), ByKey(), thread, key, columns, rows, nextAssoc, present, destructor);
      PassStarts(before, pass);
      ghost var owed := Associated(thread, key, t, k) && k < |live| && live[k] && Value(tls, t, k) != 0 && pass <= 4;
      ghost var v := Value(tls, t, k);
      if owed { IsListed(t, k); }
      StartPass(t);
      calls, later := before, others;
      var finished := false;
      while !finished
        invariant Valid() && |columns| == |nextAssoc| == old(|columns|)
        invariant CallsOk(calls, pass) && |calls| >= |before| && calls[..|before|] == before
        invariant |calls| > |before| ==> pass <= PTHREAD_DESTRUCTOR_ITERATIONS
        invariant |calls| == |before| ==> columns[t] == Ahead(t)
        invariant NotYetCalled(calls, pass, Ahead(t), key)
        invariant finished ==> nextAssoc[t] == Null
        invariant forall turn :: turn in later ==> turn in others
        invariant owed && Spared(t, k, others, destructors, calls) ==>
          Call(pass, k, v) in calls || (Pending(t, k) && Value(tls, t, k) == v)
        decreases !finished, |later|, |Ahead(t)|
      {
        var busy := false;
        if later != [] {
          busy := later[0].busy;
          SparedByOthers(t, k, others, destructors, calls, later[0]);
          OthersTurn(t, pass, later[0].calls, calls, k);
          later := later[1..];
        }
        if nextAssoc[t] == Null {
          finished := true;
        } else if !busy {
          calls := OwnTurn(t, pass, destructors, calls, later == [], others, k);
        }
      }
      RestOfNull(columns[t]);
      assert !Pending(t, k) by { NothingHasKey(key, k); }
    }

    /** What the other threads do before a turn. */
    method OthersTurn(t: nat, pass: nat, ops: seq<Op>, ghost calls: seq<Call>, ghost k: nat)
      requires Valid() && t < |columns| && t < |nextAssoc| && NotYetCalled(calls, pass, Ahead(t), key)
      modifies this
      ensures Valid() && |columns| == |nextAssoc| == old(|columns|)
      ensures NotYetCalled(calls, pass, Ahead(t), key) && |Ahead(t)| <= old(|Ahead(t)|)
      ensures old(columns[t] == Ahead(t)) ==> columns[t] == Ahead(t)
      ensures old(Pending(t, k)) && NoneTouches(ops, t, k) ==>
        Pending(t, k) && Value(tls, t, k) == old(Value(tls, t, k))
    {
      hide Wiring, Covered, Rest, Narrower, HasKey, NotYetCalled, NoneTouches;
      ghost var rest, key1 := Ahead(t), key;
      PerformAll(ops, t, true, k);
      NotYetCalledStill(calls, pass, rest, key1, Ahead(t), key);
    }

    /** What thread t does in a turn. With its key being deleted it can only wait, unless
        nobody else has anything left to do. */
    method OwnTurn(t: nat, pass: nat, destructors: nat -> seq<Op>, before: seq<Call>, last: bool,
                   ghost others: seq<Turn>, ghost k: nat)
      returns (calls: seq<Call>)
      requires Valid() && t < |columns| && t < |nextAssoc| && nextAssoc[t].To?
      requires pass >= 1 && CallsOk(before, pass) && NotYetCalled(before, pass, Ahead(t), key)
      modifies this
      ensures Valid() && |columns| == |nextAssoc| == old(|columns|)
      ensures CallsOk(calls, pass) && NotYetCalled(calls, pass, Ahead(t), key)
      ensures |Ahead(t)| <= old(|Ahead(t)|) && (last ==> |Ahead(t)| < old(|Ahead(t)|))
      ensures |calls| >= |before| && calls[..|before|] == before
      ensures |calls| > |before| ==> pass <= PTHREAD_DESTRUCTOR_ITERATIONS
      ensures |calls| == |before| && old(columns[t] == Ahead(t)) ==> columns[t] == Ahead(t)
      ensures Spared(t, k, others, destructors, calls) ==> Spared(t, k, others, destructors, before)
      ensures old(Pending(t, k)) && Spared(t, k, others, destructors, calls) ==>
        || (Pending(t, k) && Value(tls, t, k) == old(Value(tls, t, k)))
        || (pass <= 4 && old(Value(tls, t, k)) != 0 ==> Call(pass, k, old(Value(tls, t, k))) in calls)
    {
      hide Wiring, Covered, Rest, Narrower, CallsOk, HasKey, Spared, NotYetCalled;
      SizesOk(ByThread(), ByKey(), thread, key, columns, rows, nextAssoc, present, destructor);
      calls := before;
      ghost var rest, key1 := Ahead(t), key;
      var j, free := KeyOfNext(t);
      if free {
        calls := TakeTurn(t, pass, destructors, calls, others, k);
      } else if last {
        FinishDeletion(t, j, k);
        NotYetCalledStill(calls, pass, rest, key1, Ahead(t), key);
      }
    }

    /** An association is on its thread's list. */
    lemma IsListed(t: nat, k: nat)
      requires Valid() && t < |columns| && Associated(thread, key, t, k)
      ensures HasKey(columns[t], key, k)
    {
      AssociatedIsListed(ByThread(), thread, key, columns, t, k);
    }

    /** Nobody else has anything left to do, so a deletion under way comes to its end. */
    method FinishDeletion(t: nat, j: nat, ghost k: nat)
      requires Valid() && t < |columns| && t < |nextAssoc| && Deleting(j) && BeginsWith(Ahead(t), key, j)
      modifies this`thread, this`key, this`prevKey, this`nextKey, this`prevThread, this`nextThread,
               this`keys, this`nextAssoc, this`threads, this`columns, this`rows, this`present
      ensures Valid() && |columns| == old(|columns|) && |nextAssoc| == |columns|
      ensures Narrower(old(Ahead(t)), old(key), Ahead(t), key) && |Ahead(t)| < old(|Ahead(t)|)
      ensures old(columns[t] == Ahead(t)) ==> columns[t] == Ahead(t)
      ensures old(Pending(t, k)) ==> Pending(t, k)
    {
      hide Wiring, Covered, Rest, Without, Narrower, Deleted, Others, HasKey;
      SizesOk(ByThread(), ByKey(), thread, key, columns, rows, nextAssoc, present, destructor);
      AheadIsLive(ByThread(), ByKey(), thread, key, columns, rows, nextAssoc, present, destructor, t);
      OthersFewer(Ahead(t), key, j);
      EndDelete(j);
      DeleteNarrows(old(Ahead(t)), old(thread), old(key), thread, key, j);
      if old(Pending(t, k)) { HasKeyAfterDelete(old(Ahead(t)), old(thread), old(key), thread, key, j, k); }
    }

    /** A turn that gets both locks. A value taken in the first four passes goes to the
        destructor of its key. */
    method TakeTurn(t: nat, pass: nat, destructors: nat -> seq<Op>, before: seq<Call>,
                    ghost others: seq<Turn>, ghost k: nat)
      returns (calls: seq<Call>)
      requires Valid() && t < |columns| && t < |nextAssoc| && nextAssoc[t].To?
      requires pass >= 1 && CallsOk(before, pass) && NotYetCalled(before, pass, Ahead(t), key)
      modifies this
      ensures Valid() && |columns| == |nextAssoc| == old(|columns|)
      ensures CallsOk(calls, pass) && NotYetCalled(calls, pass, Ahead(t), key)
      ensures |Ahead(t)| < old(|Ahead(t)|)
      ensures |calls| >= |before| && calls[..|before|] == before
      ensures |calls| > |before| ==> pass <= PTHREAD_DESTRUCTOR_ITERATIONS
      ensures |calls| == |before| && old(columns[t] == Ahead(t)) ==> columns[t] == Ahead(t)
      ensures old(BeginsWith(Ahead(t), key, k)) ==>
        calls == if old(Value(tls, t, k)) != 0 && pass <= 4 then before + [Call(pass, k, old(Value(tls, t, k)))] else before
      ensures old(Pending(t, k)) && !old(BeginsWith(Ahead(t), key, k)) && Spared(t, k, others, destructors, calls) ==>
        Pending(t, k) && Value(tls, t, k) == old(Value(tls, t, k))
      ensures Spared(t, k, others, destructors, calls) ==> Spared(t, k, others, destructors, before)
    {
      hide Wiring, Covered, Rest, Narrower, CallsOk, HasKey, Spared;
      calls := before;
      ghost var rest0, key0 := Ahead(t), key;
      var j, value, a := TakeNext(t, pass);
      ghost var rest, key1 := Ahead(t), key;
      TurnTaken(before, pass, rest0, key0, rest, key1, a, j, value);
      if j != k && old(Pending(t, k)) { StillHasKey(a, rest, key0, key1, k); }
      SparedBefore(t, k, others, destructors, before, Call(pass, j, value));
      if Calls(value, pass) {
        var ops := destructors(|calls|);
        calls := calls + [Call(pass, j, value)];
        PerformAll(ops, t, false, k);
        NotYetCalledStill(calls, pass, rest, key1, Ahead(t), key);
      }
    }

    /** ptw32_callUserDestroyRoutines. It ends after at most one pass more than there are
        iterations, and leaves nothing: no association of the thread, and no value under
        any live key that has a destructor. Every key k that has an association and a value
        at the beginning, and that nobody else touches, has its destructor called with that
        value in the first pass. */
    method CallUserDestroyRoutines(t: nat, destructors: nat -> seq<Op>, others: seq<Turn>, ghost k: nat)
      returns (calls: seq<Call>, passes: nat)
      requires Valid() && t < |columns|
      modifies this
      ensures Valid() && t < |columns| && columns[t] == []
      ensures forall j: nat :: j < |live| && j < |destructor| && live[j] && destructor[j] ==> Value(tls, t, j) == 0
      ensures 1 <= passes <= PTHREAD_DESTRUCTOR_ITERATIONS + 1
      ensures CallsOk(calls, passes)
      ensures
        old(Associated(thread, key, t, k) && k < |live| && live[k] && Value(tls, t, k) != 0) &&
        Spared(t, k, others, destructors, calls) ==>
          Call(1, k, old(Value(tls, t, k))) in calls
    {
      hide Wiring, Covered, CallsOk, Associated, Spared;
      var later := others;
      var remaining := true;
      passes, calls := 0, [];
      ghost var owed := Associated(thread, key, t, k) && k < |live| && live[k] && Value(tls, t, k) != 0;
      ghost var v := Value(tls, t, k);
      assert CallsOk(calls, passes) by { NoCalls(); }
      while remaining
        invariant Valid() && |columns| == old(|columns|) && CallsOk(calls, passes)
        invariant passes <= PTHREAD_DESTRUCTOR_ITERATIONS + 1
        invariant passes == PTHREAD_DESTRUCTOR_ITERATIONS + 1 ==> !remaining
        invariant !remaining ==> passes > 0 && columns[t] == []
        invariant passes == 0 ==> later == others && calls == []
        invariant passes == 0 ==> Associated(thread, key, t, k) == old(Associated(thread, key, t, k))
        invariant passes == 0 ==> live == old(live) && tls == old(tls)
        invariant passes > 0 && owed && Spared(t, k, others, destructors, calls) ==> Call(1, k, v) in calls
        decreases PTHREAD_DESTRUCTOR_ITERATIONS + 1 - passes
      {
        passes := passes + 1;
        var soFar := calls;
        calls, later := Pass(t, passes, destructors, later, calls, k);
        if Spared(t, k, others, destructors, calls) {
          SparedInPrefix(t, k, others, destructors, calls, |soFar|);
          assert calls[..|soFar|] == soFar;
        }
        remaining := |calls| != |soFar|;
      }
      NothingLeft(ByThread(), ByKey(), thread, key, columns, rows, nextAssoc, present, destructor, live, tls, t);
    }
  }
}
