/**
 What the displayed rows of a group are, for any parents, any folding and any truncation.
 */
module SessionRows {
  import opened Wrappers
  import opened SessionForest

  // ---- Ancestry ------------------------------------------------------------------------------

  /** `a` is `k` or one of its kept ancestors. */
  ghost predicate Above(q: map<string, string>, a: string, k: string)
    requires Acyclic(q)
  {
    Level(q, a) <= Level(q, k) && Ancestor(q, k, Level(q, k) - Level(q, a)) == Some(a)
  }

  lemma {:induction false} AncestorLevel(q: map<string, string>, k: string, n: nat)
    requires Acyclic(q)
    ensures n <= Level(q, k) <==> Ancestor(q, k, n).Some?
    ensures Ancestor(q, k, n).Some? ==> Level(q, Ancestor(q, k, n).value) == Level(q, k) - n
  {
    if n > 0 {
      AncestorLevel(q, k, n - 1);
      var a := Ancestor(q, k, n - 1);
      if a.Some? { LevelOfChild(q, a.value); }
    }
  }

  /** Above a key there is one key of each level. */
  lemma OneAbovePerLevel(q: map<string, string>, a: string, b: string, k: string)
    requires Acyclic(q) && Above(q, a, k) && Above(q, b, k) && Level(q, a) == Level(q, b)
    ensures a == b
  {
  }

  lemma AboveItself(q: map<string, string>, k: string)
    requires Acyclic(q)
    ensures Above(q, k, k)
  {
  }

  lemma ParentIsAbove(q: map<string, string>, k: string, t: string)
    requires Acyclic(q) && k in q && Above(q, k, t)
    ensures Above(q, q[k], t) && q[k] != t
  {
    LevelOfChild(q, k);
    var n := Level(q, t) - Level(q, k);
    assert Ancestor(q, t, n + 1) == Some(q[k]);
  }

  /** Between an ancestor and a key below it lies a child of the ancestor. */
  lemma ChildTowards(q: map<string, string>, a: string, t: string) returns (c: string)
    requires Acyclic(q) && Above(q, a, t) && a != t
    ensures c in q && q[c] == a && Above(q, c, t)
  {
    var n := Level(q, t) - Level(q, a);
    AncestorLevel(q, t, n - 1);
    c := Ancestor(q, t, n - 1).value;
    assert Ancestor(q, t, n) == Some(a);
  }

  /** The ancestors of a key form a chain. */
  lemma AboveIsLinear(q: map<string, string>, a: string, b: string, k: string)
    requires Acyclic(q) && Above(q, a, k) && Above(q, b, k) && Level(q, a) <= Level(q, b)
    ensures Above(q, a, b)
  {
    AncestorAdds(q, k, Level(q, k) - Level(q, b), Level(q, b) - Level(q, a));
  }

  lemma {:induction false} AboveIsNamed(g: seq<Session>, q: map<string, string>, f: Forest, k: string, n: nat)
    requires Sound(g, q, f) && k in Keys(g) && Ancestor(q, k, n).Some?
    ensures Ancestor(q, k, n).value in Keys(g)
  {
    if n > 0 {
      AboveIsNamed(g, q, f, k, n - 1);
      assert ParentFits(g, q, Ancestor(q, k, n - 1).value);
    }
  }

  // ---- What is shown -------------------------------------------------------------------------

  ghost predicate Expanded(g: seq<Session>, q: map<string, string>, f: Forest, v: View, k: string)
    requires Sound(g, q, f) && k in Keys(g)
  {
    ChildrenExpanded(g, q, f, v, Named(g, k))
  }

  /** Every session from `a` down to the one above `t` is unfolded. */
  ghost predicate Shown(g: seq<Session>, q: map<string, string>, f: Forest, v: View, a: string, t: string)
    requires Sound(g, q, f)
  {
    Above(q, a, t) && forall b | b in Keys(g) && Above(q, a, b) && Above(q, b, t) && b != t :: Expanded(g, q, f, v, b)
  }

  lemma ShownThroughChild(g: seq<Session>, q: map<string, string>, f: Forest, v: View, s: Session, t: Session)
    requires Sound(g, q, f) && s in g && t in g && s != t
    ensures Shown(g, q, f, v, Key(s), Key(t))
            <==> ChildrenExpanded(g, q, f, v, s) && exists kid :: kid in Kids(f, Key(s)) && Shown(g, q, f, v, Key(kid), Key(t))
  {
    var a, k := Key(s), Key(t);
    NamedIsUnique(g, s);
    NamedIsUnique(g, t);
    AboveItself(q, a);
    if Shown(g, q, f, v, a, k) {
      var kid := ShownChild(g, q, f, v, s, t);
    }
    forall kid | ChildrenExpanded(g, q, f, v, s) && kid in Kids(f, a) && Shown(g, q, f, v, Key(kid), k) ensures Shown(g, q, f, v, a, k) {
      ShownParent(g, q, f, v, s, t, kid);
    }
  }

  lemma KidTowards(g: seq<Session>, q: map<string, string>, f: Forest, s: Session, t: Session) returns (kid: Session)
    requires Sound(g, q, f) && s in g && t in g && s != t && Above(q, Key(s), Key(t))
    ensures kid in Kids(f, Key(s)) && kid in g && Key(kid) in q && q[Key(kid)] == Key(s) && Above(q, Key(kid), Key(t))
  {
    NamedIsUnique(g, s);
    NamedIsUnique(g, t);
    var c := ChildTowards(q, Key(s), Key(t));
    AboveIsNamed(g, q, f, Key(t), Level(q, Key(t)) - Level(q, c));
    kid := Named(g, c);
    assert KidsFit(g, q, f, Key(s));
  }

  lemma ShownChild(g: seq<Session>, q: map<string, string>, f: Forest, v: View, s: Session, t: Session) returns (kid: Session)
    requires Sound(g, q, f) && s in g && t in g && s != t && Shown(g, q, f, v, Key(s), Key(t))
    ensures kid in Kids(f, Key(s)) && Shown(g, q, f, v, Key(kid), Key(t))
  {
    kid := KidTowards(g, q, f, s, t);
    forall b | b in Keys(g) && Above(q, Key(kid), b) && Above(q, b, Key(t)) && b != Key(t) ensures Expanded(g, q, f, v, b) {
      ParentIsAbove(q, Key(kid), b);
    }
  }

  lemma ShownParent(g: seq<Session>, q: map<string, string>, f: Forest, v: View, s: Session, t: Session, kid: Session)
    requires Sound(g, q, f) && s in g && t in g && kid in Kids(f, Key(s))
    requires ChildrenExpanded(g, q, f, v, s) && Shown(g, q, f, v, Key(kid), Key(t))
    ensures Shown(g, q, f, v, Key(s), Key(t))
  {
    var a, c, k := Key(s), Key(kid), Key(t);
    assert KidsFit(g, q, f, a);
    NamedIsUnique(g, s);
    ParentIsAbove(q, c, k);
    LevelOfChild(q, c);
    forall b | b in Keys(g) && Above(q, a, b) && Above(q, b, k) && b != k ensures Expanded(g, q, f, v, b) {
      if Level(q, b) == Level(q, a) {
        OneAbovePerLevel(q, a, b, k);
      } else {
        AboveIsLinear(q, c, b, k);
      }
    }
  }

  // ---- Counting rows -------------------------------------------------------------------------

  /** How often a session is listed. */
  function Times(rows: seq<Row>, t: Session): nat {
    if rows == [] then 0 else One(rows[0].session == t) + Times(rows[1..], t)
  }

  lemma {:induction false} TimesAdds(a: seq<Row>, b: seq<Row>, t: Session)
    ensures Times(a + b, t) == Times(a, t) + Times(b, t)
    decreases |a|
  {
    if a == [] {
      assert a + b == b;
    } else {
      assert (a + b)[1..] == a[1..] + b;
      TimesAdds(a[1..], b, t);
    }
  }

  ghost predicate SomeShows(g: seq<Session>, q: map<string, string>, f: Forest, v: View, list: seq<Session>, t: Session)
    requires Sound(g, q, f)
  {
    exists s :: s in list && Shown(g, q, f, v, Key(s), Key(t))
  }

  /** A subtree lists a session once if everything between is unfolded, and else not at all. */
  lemma {:induction false} RowsListOnce(
    g: seq<Session>, q: map<string, string>, f: Forest, v: View, s: Session, depth: nat, t: Session)
    requires Sound(g, q, f) && s in g && t in g
    ensures Times(Rows(g, q, f, v, s, depth), t) == One(Shown(g, q, f, v, Key(s), Key(t)))
    decreases AtLeast(g, q, Level(q, Key(s))), 0, 0
  {
    KidsAreDeeper(g, q, f, s);
    assert KidsFit(g, q, f, Key(s));
    var kids, expanded := Kids(f, Key(s)), ChildrenExpanded(g, q, f, v, s);
    var head := [Row(s, depth, |kids|, expanded)];
    var below := if expanded then RowsOf(g, q, f, v, kids, depth + 1, Level(q, Key(s)) + 1) else [];
    TimesAdds(head, below, t);
    assert Times(head, t) == One(s == t);
    if expanded { RowsOfListOnce(g, q, f, v, kids, depth + 1, Level(q, Key(s)) + 1, t); }
    if s == t {
      ItselfIsShown(g, q, f, v, s);
    } else {
      ShownThroughChild(g, q, f, v, s, t);
    }
  }

  lemma ItselfIsShown(g: seq<Session>, q: map<string, string>, f: Forest, v: View, s: Session)
    requires Sound(g, q, f) && s in g
    ensures Shown(g, q, f, v, Key(s), Key(s)) && !SomeShows(g, q, f, v, Kids(f, Key(s)), s)
  {
    AboveItself(q, Key(s));
    KidsAreDeeper(g, q, f, s);
    forall b | b in Keys(g) && Above(q, Key(s), b) && Above(q, b, Key(s)) ensures b == Key(s) {
      OneAbovePerLevel(q, b, Key(s), Key(s));
    }
  }

  lemma {:induction false} RowsOfListOnce(
    g: seq<Session>, q: map<string, string>, f: Forest, v: View, list: seq<Session>, depth: nat, level: nat, t: Session)
    requires Sound(g, q, f) && AllAt(g, q, list, level) && DistinctKeys(list) && t in g
    ensures Times(RowsOf(g, q, f, v, list, depth, level), t) == One(SomeShows(g, q, f, v, list, t))
    decreases AtLeast(g, q, level), 1, |list|
  {
    if list != [] {
      RowsListOnce(g, q, f, v, list[0], depth, t);
      RowsOfListOnce(g, q, f, v, list[1..], depth, level, t);
      TimesAdds(Rows(g, q, f, v, list[0], depth), RowsOf(g, q, f, v, list[1..], depth, level), t);
      forall s | s in list[1..] && Shown(g, q, f, v, Key(s), Key(t)) && Shown(g, q, f, v, Key(list[0]), Key(t)) ensures false {
        OneAbovePerLevel(q, Key(s), Key(list[0]), Key(t));
      }
      assert SomeShows(g, q, f, v, list, t) <==> Shown(g, q, f, v, Key(list[0]), Key(t)) || SomeShows(g, q, f, v, list[1..], t);
    }
  }

  // ---- Where rows stand ----------------------------------------------------------------------

  lemma RowsShape(g: seq<Session>, q: map<string, string>, f: Forest, v: View, s: Session, depth: nat)
    returns (first: Row, below: seq<Row>)
    requires Sound(g, q, f) && s in g
    ensures Rows(g, q, f, v, s, depth) == [first] + below && first.session == s && first.depth == depth
    ensures AllAt(g, q, Kids(f, Key(s)), Level(q, Key(s)) + 1)
    ensures below == [] || below == RowsOf(g, q, f, v, Kids(f, Key(s)), depth + 1, Level(q, Key(s)) + 1)
  {
    KidsAreDeeper(g, q, f, s);
    first := Rows(g, q, f, v, s, depth)[0];
    below := Rows(g, q, f, v, s, depth)[1..];
  }

  /** Each row of a subtree is at or below its top, and as much deeper as its level is. */
  lemma {:induction false} RowsAreBelow(g: seq<Session>, q: map<string, string>, f: Forest, v: View, s: Session, depth: nat, i: nat)
    requires Sound(g, q, f) && s in g && i < |Rows(g, q, f, v, s, depth)|
    ensures var row := Rows(g, q, f, v, s, depth)[i];
            && row.session in g && Above(q, Key(s), Key(row.session))
            && row.depth == depth + Level(q, Key(row.session)) - Level(q, Key(s))
    decreases AtLeast(g, q, Level(q, Key(s))), 0, 0
  {
    var first, below := RowsShape(g, q, f, v, s, depth);
    if i == 0 {
      AboveItself(q, Key(s));
    } else {
      KidsAreDeeper(g, q, f, s);
      var kids := Kids(f, Key(s));
      var n := AllRowsAreBelow(g, q, f, v, kids, depth + 1, Level(q, Key(s)) + 1, i - 1);
      KidRowIsBelow(g, q, f, s, kids[n], below[i - 1], depth);
    }
  }

  lemma KidRowIsBelow(g: seq<Session>, q: map<string, string>, f: Forest, s: Session, kid: Session, row: Row, depth: nat)
    requires Sound(g, q, f) && s in g && kid in Kids(f, Key(s)) && Above(q, Key(kid), Key(row.session))
    requires row.depth == depth + Level(q, Key(row.session)) - Level(q, Key(s))
    ensures Above(q, Key(s), Key(row.session))
  {
    assert KidsFit(g, q, f, Key(s));
    ParentIsAbove(q, Key(kid), Key(row.session));
  }

  /** Each row of a list of subtrees is at or below one of their tops. */
  lemma {:induction false} AllRowsAreBelow(
    g: seq<Session>, q: map<string, string>, f: Forest, v: View, list: seq<Session>, depth: nat, level: nat, i: nat) returns (n: nat)
    requires Sound(g, q, f) && AllAt(g, q, list, level) && i < |RowsOf(g, q, f, v, list, depth, level)|
    ensures var row := RowsOf(g, q, f, v, list, depth, level)[i];
            && n < |list| && row.session in g && Above(q, Key(list[n]), Key(row.session))
            && row.depth == depth + Level(q, Key(row.session)) - level && Level(q, Key(row.session)) >= level
    decreases AtLeast(g, q, level), 1, |list|
  {
    var first := Rows(g, q, f, v, list[0], depth);
    if i < |first| {
      RowsAreBelow(g, q, f, v, list[0], depth, i);
      n := 0;
    } else {
      n := AllRowsAreBelow(g, q, f, v, list[1..], depth, level, i - |first|);
      n := n + 1;
    }
  }

  lemma NoneIsShallower(g: seq<Session>, q: map<string, string>, f: Forest, v: View, list: seq<Session>, depth: nat, level: nat)
    requires Sound(g, q, f) && AllAt(g, q, list, level)
    ensures forall m | 0 <= m < |RowsOf(g, q, f, v, list, depth, level)| :: RowsOf(g, q, f, v, list, depth, level)[m].depth >= depth
  {
    forall m | 0 <= m < |RowsOf(g, q, f, v, list, depth, level)| ensures RowsOf(g, q, f, v, list, depth, level)[m].depth >= depth {
      var n := AllRowsAreBelow(g, q, f, v, list, depth, level, m);
    }
  }

  // ---- Children follow their parents ---------------------------------------------------------

  /** Row `i` comes after its parent, one deeper, and no row between them is less deep: its parent is the row it is indented under. */
  ghost predicate Led(q: map<string, string>, rows: seq<Row>, i: nat)
    requires i < |rows|
  {
    Key(rows[i].session) in q
    && exists j: nat :: IndentedUnder(q, rows, i, j)
  }

  ghost predicate IndentedUnder(q: map<string, string>, rows: seq<Row>, i: nat, j: nat)
    requires i < |rows| && Key(rows[i].session) in q
  {
    && j < i && q[Key(rows[i].session)] == Key(rows[j].session) && rows[j].depth + 1 == rows[i].depth
    && forall m | j < m < i :: rows[m].depth >= rows[i].depth
  }

  lemma LedShifts(q: map<string, string>, a: seq<Row>, b: seq<Row>, i: nat)
    requires i < |b| && Led(q, b, i)
    ensures Led(q, a + b, |a| + i)
  {
    var j: nat :| IndentedUnder(q, b, i, j);
    assert IndentedUnder(q, a + b, |a| + i, |a| + j);
  }

  lemma LedBelow(g: seq<Session>, q: map<string, string>, f: Forest, s: Session, first: Row, below: seq<Row>, i: nat)
    requires Sound(g, q, f) && first.session == s && i < |below|
    requires forall m | 0 <= m < |below| :: below[m].depth > first.depth
    requires (below[i].session in Kids(f, Key(s)) && below[i].depth == first.depth + 1) || Led(q, below, i)
    ensures Led(q, [first] + below, i + 1)
  {
    if Led(q, below, i) {
      LedShifts(q, [first], below, i);
    } else {
      assert KidsFit(g, q, f, Key(s));
      assert IndentedUnder(q, [first] + below, i + 1, 0);
    }
  }

  /** In a subtree every row but the first comes after its parent, one deeper. */
  lemma {:induction false} ChildrenFollow(g: seq<Session>, q: map<string, string>, f: Forest, v: View, s: Session, depth: nat, i: nat)
    requires Sound(g, q, f) && s in g && i < |Rows(g, q, f, v, s, depth)|
    ensures var rows := Rows(g, q, f, v, s, depth);
            && rows[0].session == s && rows[0].depth == depth
            && (i > 0 ==> Led(q, rows, i))
    decreases AtLeast(g, q, Level(q, Key(s))), 0, 0
  {
    var first, below := RowsShape(g, q, f, v, s, depth);
    if i > 0 {
      var level := Level(q, Key(s)) + 1;
      KidsAreDeeper(g, q, f, s);
      ChildrenFollowAll(g, q, f, v, Kids(f, Key(s)), depth + 1, level, i - 1);
      AfterFirst(g, q, f, v, s, first, below, depth, level, i - 1);
    }
  }

  lemma AfterFirst(
    g: seq<Session>, q: map<string, string>, f: Forest, v: View, s: Session, first: Row, below: seq<Row>, depth: nat, level: nat, i: nat)
    requires Sound(g, q, f) && AllAt(g, q, Kids(f, Key(s)), level) && first.session == s && first.depth == depth
    requires below == RowsOf(g, q, f, v, Kids(f, Key(s)), depth + 1, level) && i < |below|
    requires (below[i].session in Kids(f, Key(s)) && below[i].depth == depth + 1) || Led(q, below, i)
    ensures Led(q, [first] + below, i + 1)
  {
    NoneIsShallower(g, q, f, v, Kids(f, Key(s)), depth + 1, level);
    LedBelow(g, q, f, s, first, below, i);
  }

  lemma {:induction false} ChildrenFollowAll(
    g: seq<Session>, q: map<string, string>, f: Forest, v: View, list: seq<Session>, depth: nat, level: nat, i: nat)
    requires Sound(g, q, f) && AllAt(g, q, list, level) && i < |RowsOf(g, q, f, v, list, depth, level)|
    ensures var rows := RowsOf(g, q, f, v, list, depth, level);
            (rows[i].session in list && rows[i].depth == depth) || Led(q, rows, i)
    decreases AtLeast(g, q, level), 1, |list|
  {
    var first, rest := Rows(g, q, f, v, list[0], depth), RowsOf(g, q, f, v, list[1..], depth, level);
    var rows := first + rest;
    if i < |first| {
      ChildrenFollow(g, q, f, v, list[0], depth, i);
      if i > 0 {
        var j: nat :| IndentedUnder(q, first, i, j);
        assert IndentedUnder(q, rows, i, j);
      }
    } else {
      ChildrenFollowAll(g, q, f, v, list[1..], depth, level, i - |first|);
      if Led(q, rest, i - |first|) { LedShifts(q, first, rest, i - |first|); }
    }
  }

  // ---- Siblings keep their order -------------------------------------------------------------

  /** What is above a key is at it or above its parent. */
  lemma AboveParent(q: map<string, string>, a: string, k: string)
    requires Acyclic(q) && Above(q, a, k) && a != k
    ensures k in q && Above(q, a, q[k])
  {
    var n := Level(q, k) - Level(q, a);
    AncestorShift(q, k, n - 1);
    LevelOfChild(q, k);
  }

  /** Two sessions of the same parent, below two different sessions of one level, are those sessions. */
  lemma SiblingsApart(g: seq<Session>, q: map<string, string>, f: Forest, a: Session, b: Session, x: Session, y: Session)
    requires Sound(g, q, f) && a in g && b in g && x in g && y in g
    requires Key(a) != Key(b) && Level(q, Key(a)) == Level(q, Key(b))
    requires Above(q, Key(a), Key(x)) && Above(q, Key(b), Key(y)) && Up(q, Key(x)) == Up(q, Key(y))
    ensures x == a && y == b
  {
    LevelOfChild(q, Key(x));
    LevelOfChild(q, Key(y));
    if Key(x) != Key(a) {
      AboveParent(q, Key(a), Key(x));
      AboveParent(q, Key(b), Key(y));
      OneAbovePerLevel(q, Key(a), Key(b), q[Key(x)]);
    }
    NamedIsUnique(g, x);
    NamedIsUnique(g, a);
    NamedIsUnique(g, y);
    NamedIsUnique(g, b);
  }

  /** The rows of two children of one session stand in the order of its children. */
  lemma {:induction false} SiblingsKeepOrder(
    g: seq<Session>, q: map<string, string>, f: Forest, v: View, s: Session, depth: nat, i: nat, j: nat)
    requires Sound(g, q, f) && s in g && i < j < |Rows(g, q, f, v, s, depth)|
    requires var rows := Rows(g, q, f, v, s, depth); Key(rows[i].session) in q && Up(q, Key(rows[i].session)) == Up(q, Key(rows[j].session))
    ensures var rows := Rows(g, q, f, v, s, depth); Ahead(Kids(f, q[Key(rows[i].session)]), rows[i].session, rows[j].session)
    decreases AtLeast(g, q, Level(q, Key(s))), 0, 0
  {
    var first, below := RowsShape(g, q, f, v, s, depth);
    KidsAreDeeper(g, q, f, s);
    var kids := Kids(f, Key(s));
    if i == 0 {
      TopHasNoSibling(g, q, f, v, s, kids, depth, j - 1);
    } else {
      KidsAreOfOne(g, q, f, s);
      AllSiblingsKeepOrder(g, q, f, v, kids, depth + 1, Level(q, Key(s)) + 1, kids, 0, i - 1, j - 1);
    }
  }

  lemma KidsAreOfOne(g: seq<Session>, q: map<string, string>, f: Forest, s: Session)
    requires Sound(g, q, f)
    ensures var kids := Kids(f, Key(s));
            kids[0..] == kids && DistinctKeys(kids) && forall kid | kid in kids :: Key(kid) in q && kids == Kids(f, q[Key(kid)])
  {
    assert KidsFit(g, q, f, Key(s));
  }

  lemma TopHasNoSibling(g: seq<Session>, q: map<string, string>, f: Forest, v: View, s: Session, kids: seq<Session>, depth: nat, j: nat)
    requires Sound(g, q, f) && s in g && AllAt(g, q, kids, Level(q, Key(s)) + 1)
    requires j < |RowsOf(g, q, f, v, kids, depth + 1, Level(q, Key(s)) + 1)|
    ensures Up(q, Key(RowsOf(g, q, f, v, kids, depth + 1, Level(q, Key(s)) + 1)[j].session)) != Up(q, Key(s))
  {
    var n := AllRowsAreBelow(g, q, f, v, kids, depth + 1, Level(q, Key(s)) + 1, j);
    LevelOfChild(q, Key(s));
    LevelOfChild(q, Key(RowsOf(g, q, f, v, kids, depth + 1, Level(q, Key(s)) + 1)[j].session));
  }

  /** `list` is what is left of `whole` from `n` on: the children of one session, or sessions without a parent. */
  lemma {:induction false} AllSiblingsKeepOrder(
    g: seq<Session>, q: map<string, string>, f: Forest, v: View, list: seq<Session>, depth: nat, level: nat,
    whole: seq<Session>, n: nat, i: nat, j: nat)
    requires Sound(g, q, f) && AllAt(g, q, list, level) && DistinctKeys(list) && n <= |whole| && list == whole[n..]
    requires forall s | s in list && Key(s) in q :: whole == Kids(f, q[Key(s)])
    requires i < j < |RowsOf(g, q, f, v, list, depth, level)|
    requires var rows := RowsOf(g, q, f, v, list, depth, level); Up(q, Key(rows[i].session)) == Up(q, Key(rows[j].session))
    ensures var rows := RowsOf(g, q, f, v, list, depth, level);
            Ahead(match Up(q, Key(rows[i].session)) case Some(k) => Kids(f, k) case None => whole, rows[i].session, rows[j].session)
    decreases AtLeast(g, q, level), 1, |list|
  {
    var first, rest := Rows(g, q, f, v, list[0], depth), RowsOf(g, q, f, v, list[1..], depth, level);
    if j < |first| {
      assert Rows(g, q, f, v, list[0], depth)[i] == first[i];
      InFirstSubtree(g, q, f, v, list[0], depth, i, j);
      SiblingsKeepOrder(g, q, f, v, list[0], depth, i, j);
    } else if i >= |first| {
      assert list[1..] == whole[n + 1..];
      AllSiblingsKeepOrder(g, q, f, v, list[1..], depth, level, whole, n + 1, i - |first|, j - |first|);
    } else {
      AcrossSubtrees(g, q, f, v, list, depth, level, whole, n, i, j - |first|);
    }
  }

  /** A row of the first subtree and one of a later subtree. */
  lemma AcrossSubtrees(
    g: seq<Session>, q: map<string, string>, f: Forest, v: View, list: seq<Session>, depth: nat, level: nat,
    whole: seq<Session>, n: nat, i: nat, j: nat)
    requires Sound(g, q, f) && AllAt(g, q, list, level) && DistinctKeys(list) && n < |whole| && list == whole[n..]
    requires forall s | s in list && Key(s) in q :: whole == Kids(f, q[Key(s)])
    requires i < |Rows(g, q, f, v, list[0], depth)| && j < |RowsOf(g, q, f, v, list[1..], depth, level)|
    requires var a, b := Rows(g, q, f, v, list[0], depth)[i].session, RowsOf(g, q, f, v, list[1..], depth, level)[j].session;
             Up(q, Key(a)) == Up(q, Key(b))
    ensures var a, b := Rows(g, q, f, v, list[0], depth)[i].session, RowsOf(g, q, f, v, list[1..], depth, level)[j].session;
            Ahead(match Up(q, Key(a)) case Some(k) => Kids(f, k) case None => whole, a, b)
  {
    RowsAreBelow(g, q, f, v, list[0], depth, i);
    var m := AllRowsAreBelow(g, q, f, v, list[1..], depth, level, j);
    SiblingsApart(g, q, f, list[0], list[m + 1], Rows(g, q, f, v, list[0], depth)[i].session,
                  RowsOf(g, q, f, v, list[1..], depth, level)[j].session);
    assert whole[n] == list[0] && whole[n + m + 1] == list[m + 1];
  }

  /** Within one subtree, rows with the same parent have one. */
  lemma InFirstSubtree(g: seq<Session>, q: map<string, string>, f: Forest, v: View, s: Session, depth: nat, i: nat, j: nat)
    requires Sound(g, q, f) && s in g && i < j < |Rows(g, q, f, v, s, depth)|
    ensures Key(Rows(g, q, f, v, s, depth)[j].session) in q
  {
    var first, below := RowsShape(g, q, f, v, s, depth);
    KidsAreDeeper(g, q, f, s);
    var n := AllRowsAreBelow(g, q, f, v, Kids(f, Key(s)), depth + 1, Level(q, Key(s)) + 1, j - 1);
    LevelOfChild(q, Key(below[j - 1].session));
  }

  /** What a row says of its session. */
  ghost predicate RowFits(g: seq<Session>, q: map<string, string>, f: Forest, v: View, row: Row)
    requires Sound(g, q, f)
  {
    && row.session in g && row.childCount == |Kids(f, Key(row.session))|
    && row.childrenExpanded == ChildrenExpanded(g, q, f, v, row.session)
  }

  lemma {:induction false} RowsFit(g: seq<Session>, q: map<string, string>, f: Forest, v: View, s: Session, depth: nat)
    requires Sound(g, q, f) && s in g
    ensures forall row | row in Rows(g, q, f, v, s, depth) :: RowFits(g, q, f, v, row)
    decreases AtLeast(g, q, Level(q, Key(s))), 0, 0
  {
    KidsAreDeeper(g, q, f, s);
    AllRowsFit(g, q, f, v, Kids(f, Key(s)), depth + 1, Level(q, Key(s)) + 1);
  }

  lemma {:induction false} AllRowsFit(g: seq<Session>, q: map<string, string>, f: Forest, v: View, list: seq<Session>, depth: nat, level: nat)
    requires Sound(g, q, f) && AllAt(g, q, list, level)
    ensures forall row | row in RowsOf(g, q, f, v, list, depth, level) :: RowFits(g, q, f, v, row)
    decreases AtLeast(g, q, level), 1, |list|
  {
    if list != [] {
      RowsFit(g, q, f, v, list[0], depth);
      AllRowsFit(g, q, f, v, list[1..], depth, level);
    }
  }
}
