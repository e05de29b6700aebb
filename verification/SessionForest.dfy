/**
 How the session list turns parent paths into a displayed forest. Parent paths may miss, form
 cycles or lead into cycles. The loops are methods here; the recursive parts are functions.
 */
module SessionForest {
  import opened Wrappers

  /** Absent backend and parent are empty strings: the program tests both for truth. */
  datatype Session = Session(id: string, path: string, backendId: string, parentSessionPath: string)

  function SessionKey(backendId: string, path: string): string {
    if backendId != "" then backendId + "\0" + path else path
  }

  function Key(s: Session): string {
    SessionKey(s.backendId, s.path)
  }

  function Keys(g: seq<Session>): set<string> {
    set s | s in g :: Key(s)
  }

  ghost predicate DistinctKeys(g: seq<Session>) {
    forall i, j | 0 <= i < j < |g| :: Key(g[i]) != Key(g[j])
  }

  /** The key of the parent, if the parent is in the group. */
  function ParentKey(keys: set<string>, s: Session): Option<string> {
    if s.parentSessionPath == "" then None
    else
      var key := SessionKey(s.backendId, s.parentSessionPath);
      if key in keys then Some(key) else None
  }

  /** Key to parent key, over the sessions of the group that have a parent in it. */
  ghost function Parents(g: seq<Session>): map<string, string>
    requires DistinctKeys(g)
  {
    map k | k in Keys(g) && ParentKey(Keys(g), Named(g, k)).Some? :: ParentKey(Keys(g), Named(g, k)).value
  }

  ghost function Named(g: seq<Session>, k: string): (s: Session)
    requires DistinctKeys(g) && k in Keys(g)
    ensures s in g && Key(s) == k
  {
    var s :| s in g && Key(s) == k;
    s
  }

  lemma NamedIsUnique(g: seq<Session>, s: Session)
    requires DistinctKeys(g) && s in g
    ensures Key(s) in Keys(g) && Named(g, Key(s)) == s
  {
  }

  // ---- Chains of parents ---------------------------------------------------------------------

  /** The key `n` steps up from `k`, if the chain is that long. */
  function Ancestor(p: map<string, string>, k: string, n: nat): Option<string> {
    if n == 0 then Some(k)
    else match Ancestor(p, k, n - 1)
      case None => None
      case Some(a) => if a in p then Some(p[a]) else None
  }

  /** The chain never ends, so it runs into a cycle. */
  ghost predicate Endless(p: map<string, string>, k: string) {
    forall n: nat :: Ancestor(p, k, n).Some?
  }

  lemma {:induction false} AncestorShift(p: map<string, string>, k: string, n: nat)
    ensures Ancestor(p, k, n + 1) == if k in p then Ancestor(p, p[k], n) else None
  {
    if n > 0 {
      AncestorShift(p, k, n - 1);
    } else {
      assert Ancestor(p, k, 0) == Some(k);
    }
  }

  lemma {:induction false} AncestorAdds(p: map<string, string>, k: string, n: nat, m: nat)
    requires Ancestor(p, k, n).Some?
    ensures Ancestor(p, k, n + m) == Ancestor(p, Ancestor(p, k, n).value, m)
  {
    if m > 0 {
      AncestorAdds(p, k, n, m - 1);
    }
  }

  lemma {:induction false} ShorterIsSome(p: map<string, string>, k: string, m: nat, n: nat)
    requires m <= n && Ancestor(p, k, n).Some?
    ensures Ancestor(p, k, m).Some?
    decreases n - m
  {
    if m < n { ShorterIsSome(p, k, m + 1, n); }
  }

  /** A chain that meets the same key twice never ends. */
  lemma RepetitionIsEndless(p: map<string, string>, k: string, i: nat, j: nat)
    requires i < j && Ancestor(p, k, j).Some? && Ancestor(p, k, i) == Ancestor(p, k, j)
    ensures Endless(p, k)
  {
    forall n: nat ensures Ancestor(p, k, n).Some? { LongAncestor(p, k, i, j, n); }
  }

  lemma {:induction false} LongAncestor(p: map<string, string>, k: string, i: nat, j: nat, n: nat)
    requires i < j && Ancestor(p, k, j).Some? && Ancestor(p, k, i) == Ancestor(p, k, j)
    ensures Ancestor(p, k, n).Some?
    decreases n
  {
    if n <= j {
      ShorterIsSome(p, k, n, j);
    } else {
      LongAncestor(p, k, i, j, n - j + i);
      AncestorAdds(p, k, i, n - j);
      AncestorAdds(p, k, j, n - j);
    }
  }

  lemma ParentOfEndless(p: map<string, string>, k: string)
    requires k in p
    ensures Endless(p, k) <==> Endless(p, p[k])
  {
    if Endless(p, k) {
      forall n: nat ensures Ancestor(p, p[k], n).Some? { AncestorShift(p, k, n); }
    } else {
      var n: nat :| Ancestor(p, k, n).None?;
      AncestorShift(p, k, n - 1);
    }
  }

  /** `hasCycle`: walks up and remembers what it saw; exact, whatever the parents are. */
  method HasCycle(g: seq<Session>, byKey: map<string, Session>, s: Session) returns (cycle: bool)
    requires DistinctKeys(g) && s in g
    requires byKey.Keys == Keys(g) && forall k | k in byKey :: byKey[k] == Named(g, k)
    ensures cycle <==> Endless(Parents(g), Key(s))
  {
    ghost var p, n: nat := Parents(g), 0;
    ghost var at := Key(s);
    var seen := {Key(s)};
    var key := ParentKey(byKey.Keys, s);
    NamedIsUnique(g, s);
    while key.Some?
      invariant seen <= Keys(g) && at in Keys(g)
      invariant Ancestor(p, Key(s), n) == Some(at)
      invariant key == ParentKey(Keys(g), Named(g, at))
      invariant key == Ancestor(p, Key(s), n + 1)
      invariant forall k | k in seen :: exists i: nat :: i <= n && Ancestor(p, Key(s), i) == Some(k)
      decreases Keys(g) - seen
    {
      if key.value in seen {
        ghost var i: nat :| i <= n && Ancestor(p, Key(s), i) == key;
        RepetitionIsEndless(p, Key(s), i, n + 1);
        return true;
      }
      seen := seen + {key.value};
      at := key.value;
      n := n + 1;
      key := ParentKey(byKey.Keys, byKey[key.value]);
    }
    return false;
  }

  // ---- The kept edges ------------------------------------------------------------------------

  /** Only a session whose chain ends stays under its parent. */
  ghost function Kept(g: seq<Session>): map<string, string>
    requires DistinctKeys(g)
  {
    map k | k in Parents(g) && !Endless(Parents(g), k) :: Parents(g)[k]
  }

  ghost predicate Acyclic(q: map<string, string>) {
    forall k :: !Endless(q, k)
  }

  lemma {:induction false} KeptFollowsParents(g: seq<Session>, k: string, n: nat)
    requires DistinctKeys(g) && !Endless(Parents(g), k)
    ensures Ancestor(Kept(g), k, n) == Ancestor(Parents(g), k, n)
    ensures Ancestor(Parents(g), k, n).Some? ==> !Endless(Parents(g), Ancestor(Parents(g), k, n).value)
  {
    if n > 0 {
      KeptFollowsParents(g, k, n - 1);
      var a := Ancestor(Parents(g), k, n - 1);
      if a.Some? && a.value in Parents(g) { ParentOfEndless(Parents(g), a.value); }
    }
  }

  /** Whatever the parents were, the kept edges have no cycle. */
  lemma KeptIsAcyclic(g: seq<Session>)
    requires DistinctKeys(g)
    ensures Acyclic(Kept(g))
  {
    forall k ensures !Endless(Kept(g), k) {
      if Endless(Parents(g), k) {
        assert Ancestor(Kept(g), k, 0) == Some(k);
        assert Ancestor(Kept(g), k, 1).None?;
      } else {
        var n: nat :| Ancestor(Parents(g), k, n).None?;
        KeptFollowsParents(g, k, n);
      }
    }
  }

  // ---- Levels --------------------------------------------------------------------------------

  ghost predicate IsLevel(q: map<string, string>, k: string, n: nat) {
    Ancestor(q, k, n).Some? && Ancestor(q, k, n + 1).None?
  }

  lemma {:induction false} SomeLevel(q: map<string, string>, k: string, n: nat)
    requires Ancestor(q, k, n).None?
    ensures exists m: nat :: IsLevel(q, k, m)
    decreases n
  {
    if Ancestor(q, k, n - 1).Some? {
      assert IsLevel(q, k, n - 1);
    } else {
      SomeLevel(q, k, n - 1);
    }
  }

  lemma OneLevel(q: map<string, string>, k: string, m: nat, n: nat)
    requires IsLevel(q, k, m) && IsLevel(q, k, n)
    ensures m == n
  {
    if m < n { ShorterIsSome(q, k, m + 1, n); }
    if n < m { ShorterIsSome(q, k, n + 1, m); }
  }

  /** The number of kept ancestors. */
  ghost function Level(q: map<string, string>, k: string): (n: nat)
    requires Acyclic(q)
    ensures IsLevel(q, k, n)
  {
    assert exists m: nat :: IsLevel(q, k, m) by {
      assert !Endless(q, k);
      var m: nat :| Ancestor(q, k, m).None?;
      SomeLevel(q, k, m);
    }
    var n: nat :| IsLevel(q, k, n);
    n
  }

  lemma LevelOfChild(q: map<string, string>, k: string)
    requires Acyclic(q)
    ensures Level(q, k) == if k in q then Level(q, q[k]) + 1 else 0
  {
    AncestorShift(q, k, 0);
    if k in q {
      var n := Level(q, q[k]);
      AncestorShift(q, k, n);
      AncestorShift(q, k, n + 1);
      OneLevel(q, k, n + 1, Level(q, k));
    } else {
      OneLevel(q, k, 0, Level(q, k));
    }
  }

  /** The keys at this level or deeper. */
  ghost function AtLeast(g: seq<Session>, q: map<string, string>, level: nat): set<string>
    requires Acyclic(q)
  {
    set k | k in Keys(g) && Level(q, k) >= level
  }

  // ---- Building the forest -------------------------------------------------------------------

  datatype Forest = Forest(roots: seq<Session>, children: map<string, seq<Session>>)

  function Kids(f: Forest, key: string): seq<Session> {
    if key in f.children then f.children[key] else []
  }

  /** The sessions without a kept parent, and those kept under `k`, in the order of the group. */
  function RootsOf(g: seq<Session>, q: map<string, string>): (r: seq<Session>)
    ensures forall s :: s in r <==> s in g && Key(s) !in q
  {
    if g == [] then []
    else
      var last := g[|g| - 1];
      RootsOf(g[..|g| - 1], q) + (if Key(last) in q then [] else [last])
  }

  function KidsOf(g: seq<Session>, q: map<string, string>, k: string): (r: seq<Session>)
    ensures forall s :: s in r <==> s in g && Key(s) in q && q[Key(s)] == k
  {
    if g == [] then []
    else
      var last := g[|g| - 1];
      KidsOf(g[..|g| - 1], q, k) + (if Key(last) in q && q[Key(last)] == k then [last] else [])
  }

  ghost predicate IsForestOf(f: Forest, g: seq<Session>, q: map<string, string>) {
    f.roots == RootsOf(g, q) && forall k :: Kids(f, k) == KidsOf(g, q, k)
  }

  function Up(q: map<string, string>, k: string): Option<string> {
    if k in q then Some(q[k]) else None
  }

  /** `placed` is `f` with `s` under `parent`, or as a root. */
  ghost predicate Places(f: Forest, s: Session, parent: Option<string>, placed: Forest) {
    && placed.roots == f.roots + (if parent.None? then [s] else [])
    && forall k :: Kids(placed, k) == Kids(f, k) + (if parent == Some(k) then [s] else [])
  }

  /** The forest of one session more. */
  lemma ForestGrows(before: Forest, after: Forest, g: seq<Session>, i: nat, q: map<string, string>)
    requires i < |g| && IsForestOf(before, g[..i], q)
    requires Places(before, g[i], Up(q, Key(g[i])), after)
    ensures IsForestOf(after, g[..i + 1], q)
  {
    assert g[..i + 1][..i] == g[..i];
    forall k ensures Kids(after, k) == KidsOf(g[..i + 1], q, k) {
      assert Kids(before, k) == KidsOf(g[..i], q, k);
    }
  }

  method IndexByKey(g: seq<Session>) returns (byKey: map<string, Session>)
    requires DistinctKeys(g)
    ensures byKey.Keys == Keys(g) && forall k | k in byKey :: byKey[k] == Named(g, k)
  {
    byKey := map[];
    var i := 0;
    while i < |g|
      invariant 0 <= i <= |g|
      invariant byKey.Keys == set s | s in g[..i] :: Key(s)
      invariant forall k | k in byKey :: k in Keys(g) && byKey[k] == Named(g, k)
    {
      NamedIsUnique(g, g[i]);
      assert g[..i + 1] == g[..i] + [g[i]];
      byKey := byKey[Key(g[i]) := g[i]];
      i := i + 1;
    }
    assert g[..i] == g;
  }

  method Place(f: Forest, s: Session, parent: Option<string>) returns (placed: Forest)
    ensures Places(f, s, parent, placed)
  {
    if parent.None? { return f.(roots := f.roots + [s]); }
    var children := f.children;
    if parent.value !in children { children := children[parent.value := []]; }
    children := children[parent.value := children[parent.value] + [s]];
    return f.(children := children);
  }

  lemma KeptUp(g: seq<Session>, s: Session)
    requires DistinctKeys(g) && s in g
    ensures Up(Kept(g), Key(s)) == if Endless(Parents(g), Key(s)) then None else ParentKey(Keys(g), s)
  {
    NamedIsUnique(g, s);
  }

  /** The parents of a group, cut where a chain never ends. */
  method BuildForest(g: seq<Session>) returns (f: Forest)
    requires DistinctKeys(g)
    ensures IsForestOf(f, g, Kept(g))
  {
    var byKey := IndexByKey(g);
    f := Forest([], map[]);
    var i := 0;
    while i < |g|
      invariant 0 <= i <= |g|
      invariant IsForestOf(f, g[..i], Kept(g))
    {
      var parent := ParentKey(byKey.Keys, g[i]);
      var cycle := HasCycle(g, byKey, g[i]);
      var placed := Place(f, g[i], if cycle then None else parent);
      KeptUp(g, g[i]);
      ForestGrows(f, placed, g, i, Kept(g));
      f := placed;
      i := i + 1;
    }
    assert g[..i] == g;
  }

  /** `a` stands in front of `b`. */
  ghost predicate Ahead(list: seq<Session>, a: Session, b: Session) {
    exists k, m :: 0 <= k < m < |list| && list[k] == a && list[m] == b
  }

  /** The sessions of `part` stand in the order of `list`. */
  ghost predicate Follows(part: seq<Session>, list: seq<Session>) {
    forall i, j | 0 <= i < j < |part| :: Ahead(list, part[i], part[j])
  }

  lemma AheadStays(list: seq<Session>, last: Session, a: Session, b: Session)
    requires (Ahead(list, a, b) || (a in list && b == last))
    ensures Ahead(list + [last], a, b)
  {
    var longer := list + [last];
    if k, m :| 0 <= k < m < |list| && list[k] == a && list[m] == b {
      assert longer[k] == a && longer[m] == b;
    } else {
      var k :| 0 <= k < |list| && list[k] == a;
      assert longer[k] == a && longer[|list|] == b;
    }
  }

  /** The children of a session, and the sessions without a parent, keep the order of the group. */
  lemma {:induction false} GroupOrderIsKept(g: seq<Session>, q: map<string, string>, k: string)
    ensures Follows(KidsOf(g, q, k), g) && Follows(RootsOf(g, q), g)
    decreases |g|
  {
    if g != [] {
      var most, last := g[..|g| - 1], g[|g| - 1];
      assert g == most + [last];
      GroupOrderIsKept(most, q, k);
      assert KidsOf(most, q, k) + [] == KidsOf(most, q, k) && RootsOf(most, q) + [] == RootsOf(most, q);
      OneBehind(KidsOf(most, q, k), most, last);
      OneBehind(RootsOf(most, q), most, last);
    }
  }

  lemma OneBehind(part: seq<Session>, list: seq<Session>, last: Session)
    requires Follows(part, list) && forall s | s in part :: s in list
    ensures Follows(part, list + [last]) && Follows(part + [last], list + [last])
  {
    var longer := part + [last];
    forall i, j | 0 <= i < j < |longer| ensures Ahead(list + [last], longer[i], longer[j]) {
      assert longer[i] == part[i] && longer[i] in part;
      if j < |part| { assert Ahead(list, part[i], part[j]); }
      AheadStays(list, last, longer[i], longer[j]);
    }
    forall i, j | 0 <= i < j < |part| ensures Ahead(list + [last], part[i], part[j]) {
      assert Ahead(list, part[i], part[j]);
      AheadStays(list, last, part[i], part[j]);
    }
  }

  // ---- Rows ----------------------------------------------------------------------------------

  /** What the user folded and unfolded, and the keys of the running and of the open sessions. */
  datatype View = View(childVisibility: map<string, bool>, running: set<string>, active: set<string>)

  datatype Row = Row(session: Session, depth: nat, childCount: nat, childrenExpanded: bool)

  ghost predicate KidsFit(g: seq<Session>, q: map<string, string>, f: Forest, k: string) {
    DistinctKeys(Kids(f, k)) && forall s :: s in Kids(f, k) <==> s in g && Key(s) in q && q[Key(s)] == k
  }

  ghost predicate ParentFits(g: seq<Session>, q: map<string, string>, k: string)
    requires k in q
  {
    q[k] in Keys(g)
  }

  /** `f` is the forest of `g` along `q`: what the recursions below descend by. */
  ghost predicate Sound(g: seq<Session>, q: map<string, string>, f: Forest) {
    && DistinctKeys(g) && Acyclic(q)
    && (forall k {:trigger KidsFit(g, q, f, k)} :: KidsFit(g, q, f, k))
    && (forall k {:trigger ParentFits(g, q, k)} | k in q :: ParentFits(g, q, k))
  }

  lemma {:induction false} KidsAreDistinct(g: seq<Session>, q: map<string, string>, k: string)
    requires DistinctKeys(g)
    ensures DistinctKeys(KidsOf(g, q, k))
    decreases |g|
  {
    if g != [] { KidsAreDistinct(g[..|g| - 1], q, k); }
  }

  lemma {:induction false} RootsAreDistinct(g: seq<Session>, q: map<string, string>)
    requires DistinctKeys(g)
    ensures DistinctKeys(RootsOf(g, q))
    decreases |g|
  {
    if g != [] { RootsAreDistinct(g[..|g| - 1], q); }
  }

  lemma BuiltForestIsSound(g: seq<Session>, f: Forest)
    requires DistinctKeys(g) && IsForestOf(f, g, Kept(g))
    ensures Sound(g, Kept(g), f)
  {
    KeptIsAcyclic(g);
    forall k ensures KidsFit(g, Kept(g), f, k) {
      assert Kids(f, k) == KidsOf(g, Kept(g), k);
      KidsAreDistinct(g, Kept(g), k);
    }
  }

  ghost predicate AllAt(g: seq<Session>, q: map<string, string>, list: seq<Session>, level: nat)
    requires Acyclic(q)
  {
    forall s | s in list :: s in g && Level(q, Key(s)) == level
  }

  lemma KidsAreDeeper(g: seq<Session>, q: map<string, string>, f: Forest, s: Session)
    requires Sound(g, q, f) && s in g
    ensures AllAt(g, q, Kids(f, Key(s)), Level(q, Key(s)) + 1)
    ensures AtLeast(g, q, Level(q, Key(s)) + 1) < AtLeast(g, q, Level(q, Key(s)))
  {
    assert KidsFit(g, q, f, Key(s));
    forall kid | kid in Kids(f, Key(s)) ensures kid in g && Level(q, Key(kid)) == Level(q, Key(s)) + 1 {
      LevelOfChild(q, Key(kid));
    }
    assert Key(s) in AtLeast(g, q, Level(q, Key(s)));
  }

  /** Whether `s` or a session below it is among `keys`. */
  predicate SubtreeMatches(ghost g: seq<Session>, ghost q: map<string, string>, f: Forest, keys: set<string>, s: Session)
    requires Sound(g, q, f) && s in g
    decreases AtLeast(g, q, Level(q, Key(s))), 0, 0
  {
    KidsAreDeeper(g, q, f, s);
    Key(s) in keys || SomeMatches(g, q, f, keys, Kids(f, Key(s)), Level(q, Key(s)) + 1)
  }

  predicate SomeMatches(
    ghost g: seq<Session>, ghost q: map<string, string>, f: Forest, keys: set<string>, list: seq<Session>, ghost level: nat)
    requires Sound(g, q, f) && AllAt(g, q, list, level)
    decreases AtLeast(g, q, level), 1, |list|
  {
    list != [] && (SubtreeMatches(g, q, f, keys, list[0]) || SomeMatches(g, q, f, keys, list[1..], level))
  }

  /** The user's choice, else whether something below runs or is open. */
  predicate ChildrenExpanded(ghost g: seq<Session>, ghost q: map<string, string>, f: Forest, v: View, s: Session)
    requires Sound(g, q, f) && s in g
  {
    KidsAreDeeper(g, q, f, s);
    Kids(f, Key(s)) != []
    && (if Key(s) in v.childVisibility then v.childVisibility[Key(s)]
        else SomeMatches(g, q, f, v.running + v.active, Kids(f, Key(s)), Level(q, Key(s)) + 1))
  }

  function Rows(ghost g: seq<Session>, ghost q: map<string, string>, f: Forest, v: View, s: Session, depth: nat): seq<Row>
    requires Sound(g, q, f) && s in g
    decreases AtLeast(g, q, Level(q, Key(s))), 0, 0
  {
    KidsAreDeeper(g, q, f, s);
    var kids := Kids(f, Key(s));
    var expanded := ChildrenExpanded(g, q, f, v, s);
    [Row(s, depth, |kids|, expanded)]
    + (if expanded then RowsOf(g, q, f, v, kids, depth + 1, Level(q, Key(s)) + 1) else [])
  }

  function RowsOf(
    ghost g: seq<Session>, ghost q: map<string, string>, f: Forest, v: View, list: seq<Session>, depth: nat, ghost level: nat)
    : seq<Row>
    requires Sound(g, q, f) && AllAt(g, q, list, level)
    decreases AtLeast(g, q, level), 1, |list|
  {
    if list == [] then [] else Rows(g, q, f, v, list[0], depth) + RowsOf(g, q, f, v, list[1..], depth, level)
  }
}
