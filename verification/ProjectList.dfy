/**
 One project of the session list: its conversations, running ones first, truncated and unfolded.
 */
module ProjectList {
  import opened Wrappers
  import opened SessionForest
  import opened SessionRows

  /** `roots` in display order, the part that is shown, and what it unfolds to. */
  datatype Rendering = Rendering(roots: seq<Session>, visible: seq<Session>, hiddenCount: int, rows: seq<Row>)

  ghost predicate Built(g: seq<Session>, q: map<string, string>, f: Forest) {
    Sound(g, q, f) && DistinctKeys(f.roots) && AllAt(g, q, f.roots, 0) && forall s :: s in f.roots <==> s in g && Key(s) !in q
  }

  /** The conversations in which a session runs. */
  function RunningRoots(ghost g: seq<Session>, ghost q: map<string, string>, f: Forest, v: View, list: seq<Session>): (r: seq<Session>)
    requires Sound(g, q, f) && forall s | s in list :: s in g
    ensures forall s :: s in r <==> s in list && SubtreeMatches(g, q, f, v.running, s)
  {
    if list == [] then []
    else (if SubtreeMatches(g, q, f, v.running, list[0]) then [list[0]] else []) + RunningRoots(g, q, f, v, list[1..])
  }

  function Others(list: seq<Session>, chosen: seq<Session>): (r: seq<Session>)
    ensures forall s :: s in r <==> s in list && s !in chosen
  {
    if list == [] then [] else (if list[0] in chosen then [] else [list[0]]) + Others(list[1..], chosen)
  }

  function Max(a: int, b: int): int { if a >= b then a else b }

  function Ordered(ghost g: seq<Session>, ghost q: map<string, string>, f: Forest, v: View): (r: seq<Session>)
    requires Built(g, q, f)
    ensures AllAt(g, q, r, 0)
  {
    RunningRoots(g, q, f, v, f.roots) + Others(f.roots, RunningRoots(g, q, f, v, f.roots))
  }

  function Visible(
    ghost g: seq<Session>, ghost q: map<string, string>, f: Forest, v: View, sessionsPerProject: int, groupExpanded: bool)
    : (r: seq<Session>)
    requires Built(g, q, f)
    ensures r <= Ordered(g, q, f, v) && AllAt(g, q, r, 0)
  {
    var limit := Max(sessionsPerProject, |RunningRoots(g, q, f, v, f.roots)|);
    var roots := Ordered(g, q, f, v);
    if groupExpanded || |roots| <= limit then roots else roots[..limit]
  }

  function RenderGroup(
    ghost g: seq<Session>, ghost q: map<string, string>, f: Forest, v: View, sessionsPerProject: int, groupExpanded: bool): Rendering
    requires Built(g, q, f)
  {
    var roots := Ordered(g, q, f, v);
    var visible := Visible(g, q, f, v, sessionsPerProject, groupExpanded);
    Rendering(roots, visible, |roots| - |visible|, RowsOf(g, q, f, v, visible, 0, 0))
  }

  /** `buildSessionRows` followed by the ordering and truncation of `renderGroup`. */
  method Render(g: seq<Session>, v: View, sessionsPerProject: int, groupExpanded: bool) returns (f: Forest, r: Rendering)
    requires DistinctKeys(g)
    ensures Built(g, Kept(g), f) && r == RenderGroup(g, Kept(g), f, v, sessionsPerProject, groupExpanded)
  {
    f := BuildForest(g);
    BuiltForestIsBuilt(g, f);
    r := RenderGroup(g, Kept(g), f, v, sessionsPerProject, groupExpanded);
  }

  lemma BuiltForestIsBuilt(g: seq<Session>, f: Forest)
    requires DistinctKeys(g) && IsForestOf(f, g, Kept(g))
    ensures Built(g, Kept(g), f)
  {
    BuiltForestIsSound(g, f);
    RootsAreDistinct(g, Kept(g));
    forall s | s in f.roots ensures Level(Kept(g), Key(s)) == 0 { LevelOfChild(Kept(g), Key(s)); }
  }

  // ---- Order and truncation ------------------------------------------------------------------

  /** The sessions of the list that were chosen. */
  function Picked(list: seq<Session>, chosen: seq<Session>): seq<Session> {
    if list == [] then [] else (if list[0] in chosen then [list[0]] else []) + Picked(list[1..], chosen)
  }

  lemma {:induction false} PickedAndOthers(list: seq<Session>, chosen: seq<Session>)
    ensures multiset(Picked(list, chosen) + Others(list, chosen)) == multiset(list)
    decreases |list|
  {
    if list != [] {
      PickedAndOthers(list[1..], chosen);
      assert list == [list[0]] + list[1..];
    }
  }

  lemma {:induction false} RunningArePicked(
    g: seq<Session>, q: map<string, string>, f: Forest, v: View, list: seq<Session>, chosen: seq<Session>)
    requires Sound(g, q, f) && forall s | s in list :: s in g
    requires forall s | s in list :: s in chosen <==> SubtreeMatches(g, q, f, v.running, s)
    ensures RunningRoots(g, q, f, v, list) == Picked(list, chosen)
    decreases |list|
  {
    if list != [] { RunningArePicked(g, q, f, v, list[1..], chosen); }
  }

  lemma SplitKeepsAll(
    g: seq<Session>, q: map<string, string>, f: Forest, v: View, list: seq<Session>, chosen: seq<Session>)
    requires Sound(g, q, f) && forall s | s in list :: s in g
    requires forall s | s in list :: s in chosen <==> SubtreeMatches(g, q, f, v.running, s)
    ensures multiset(RunningRoots(g, q, f, v, list) + Others(list, chosen)) == multiset(list)
  {
    RunningArePicked(g, q, f, v, list, chosen);
    PickedAndOthers(list, chosen);
  }

  lemma OrderedKeepsAll(g: seq<Session>, q: map<string, string>, f: Forest, v: View)
    requires Built(g, q, f)
    ensures multiset(Ordered(g, q, f, v)) == multiset(f.roots) && |Ordered(g, q, f, v)| == |f.roots|
  {
    SplitKeepsAll(g, q, f, v, f.roots, RunningRoots(g, q, f, v, f.roots));
    assert |Ordered(g, q, f, v)| == |multiset(Ordered(g, q, f, v))| && |f.roots| == |multiset(f.roots)|;
  }

  lemma RunningComeFirst(g: seq<Session>, q: map<string, string>, f: Forest, v: View, i: nat, j: nat)
    requires Built(g, q, f) && i < j < |Ordered(g, q, f, v)| && SubtreeMatches(g, q, f, v.running, Ordered(g, q, f, v)[j])
    ensures SubtreeMatches(g, q, f, v.running, Ordered(g, q, f, v)[i])
  {
    var running := RunningRoots(g, q, f, v, f.roots);
    var others := Others(f.roots, running);
    assert Ordered(g, q, f, v) == running + others;
    forall k | |running| <= k < |running + others| ensures (running + others)[k] in others {
      assert (running + others)[k] == others[k - |running|];
    }
  }

  lemma RunningAreVisible(
    g: seq<Session>, q: map<string, string>, f: Forest, v: View, sessionsPerProject: int, groupExpanded: bool, root: Session)
    requires Built(g, q, f) && root in f.roots && SubtreeMatches(g, q, f, v.running, root)
    ensures root in Visible(g, q, f, v, sessionsPerProject, groupExpanded)
  {
    var running := RunningRoots(g, q, f, v, f.roots);
    var visible := Visible(g, q, f, v, sessionsPerProject, groupExpanded);
    assert |running| <= |visible|;
    var i :| 0 <= i < |running| && running[i] == root;
    assert visible[i] == root;
  }

  /** The running conversations come first, then the rest: every root once; what is hidden and what is shown make the total. */
  lemma RootsArePermuted(g: seq<Session>, q: map<string, string>, f: Forest, v: View, sessionsPerProject: int, groupExpanded: bool)
    requires Built(g, q, f)
    ensures var r := RenderGroup(g, q, f, v, sessionsPerProject, groupExpanded);
            && multiset(r.roots) == multiset(f.roots)
            && r.hiddenCount + |r.visible| == |f.roots| && 0 <= r.hiddenCount
            && r.visible <= r.roots
            && (forall root | root in f.roots && SubtreeMatches(g, q, f, v.running, root) :: root in r.visible)
            && (forall i, j | 0 <= i < j < |r.roots| && SubtreeMatches(g, q, f, v.running, r.roots[j]) ::
                  SubtreeMatches(g, q, f, v.running, r.roots[i]))
  {
    var r := RenderGroup(g, q, f, v, sessionsPerProject, groupExpanded);
    OrderedKeepsAll(g, q, f, v);
    forall root | root in f.roots && SubtreeMatches(g, q, f, v.running, root) ensures root in r.visible {
      RunningAreVisible(g, q, f, v, sessionsPerProject, groupExpanded, root);
    }
    forall i, j | 0 <= i < j < |r.roots| && SubtreeMatches(g, q, f, v.running, r.roots[j])
      ensures SubtreeMatches(g, q, f, v.running, r.roots[i])
    {
      RunningComeFirst(g, q, f, v, i, j);
    }
  }

  lemma OrderIsDistinct(g: seq<Session>, q: map<string, string>, f: Forest, v: View)
    requires Built(g, q, f)
    ensures DistinctKeys(Ordered(g, q, f, v))
  {
    var roots := Ordered(g, q, f, v);
    SplitKeepsAll(g, q, f, v, f.roots, RunningRoots(g, q, f, v, f.roots));
    DistinctByCount(f.roots, roots);
  }

  /** A rearrangement of sessions with distinct keys has distinct keys. */
  lemma DistinctByCount(a: seq<Session>, b: seq<Session>)
    requires DistinctKeys(a) && multiset(a) == multiset(b)
    ensures DistinctKeys(b)
  {
    forall i, j | 0 <= i < j < |b| ensures Key(b[i]) != Key(b[j]) {
      TwiceCounts(b, i, j);
      OnceCounts(a, b[i]);
      assert b[i] in multiset(a) && b[j] in multiset(a);
    }
  }

  lemma TwiceCounts(b: seq<Session>, i: nat, j: nat)
    requires i < j < |b|
    ensures b[i] == b[j] ==> multiset(b)[b[i]] >= 2
  {
    assert b == b[..i] + [b[i]] + b[i + 1..j] + [b[j]] + b[j + 1..];
  }

  lemma {:induction false} OnceCounts(a: seq<Session>, s: Session)
    requires DistinctKeys(a)
    ensures multiset(a)[s] <= 1
    decreases |a|
  {
    if a != [] {
      OnceCounts(a[1..], s);
      assert a == [a[0]] + a[1..];
    }
  }

  // ---- What runs below -----------------------------------------------------------------------

  lemma {:induction false} SomeMatchesIff(
    g: seq<Session>, q: map<string, string>, f: Forest, keys: set<string>, list: seq<Session>, level: nat)
    requires Sound(g, q, f) && AllAt(g, q, list, level)
    ensures SomeMatches(g, q, f, keys, list, level) <==> exists s :: s in list && SubtreeMatches(g, q, f, keys, s)
    decreases |list|
  {
    if list != [] {
      SomeMatchesIff(g, q, f, keys, list[1..], level);
      if SubtreeMatches(g, q, f, keys, list[0]) {
        assert list[0] in list;
      } else {
        assert forall s | s in list[1..] :: s in list;
        assert forall s | s in list :: s == list[0] || s in list[1..];
      }
    }
  }

  /** A subtree matches when a session in it does. */
  lemma {:induction false} MatchesFromBelow(g: seq<Session>, q: map<string, string>, f: Forest, keys: set<string>, s: Session, t: Session)
    requires Sound(g, q, f) && s in g && t in g && Above(q, Key(s), Key(t)) && Key(t) in keys
    ensures SubtreeMatches(g, q, f, keys, s)
    decreases AtLeast(g, q, Level(q, Key(s))), 1
  {
    if s != t { KidsMatchFromBelow(g, q, f, keys, s, t); }
  }

  lemma {:induction false} KidsMatchFromBelow(g: seq<Session>, q: map<string, string>, f: Forest, keys: set<string>, s: Session, t: Session)
    requires Sound(g, q, f) && s in g && t in g && s != t && Above(q, Key(s), Key(t)) && Key(t) in keys
    ensures Kids(f, Key(s)) != [] && AllAt(g, q, Kids(f, Key(s)), Level(q, Key(s)) + 1)
    ensures SomeMatches(g, q, f, keys, Kids(f, Key(s)), Level(q, Key(s)) + 1)
    decreases AtLeast(g, q, Level(q, Key(s))), 0
  {
    KidsAreDeeper(g, q, f, s);
    var kid := KidTowards(g, q, f, s, t);
    MatchesFromBelow(g, q, f, keys, kid, t);
    SomeMatchesIff(g, q, f, keys, Kids(f, Key(s)), Level(q, Key(s)) + 1);
  }

  /** Only then. */
  lemma {:induction false} MatchesOnlyFromBelow(g: seq<Session>, q: map<string, string>, f: Forest, keys: set<string>, s: Session)
    returns (t: Session)
    requires Sound(g, q, f) && s in g && SubtreeMatches(g, q, f, keys, s)
    ensures t in g && Above(q, Key(s), Key(t)) && Key(t) in keys
    decreases AtLeast(g, q, Level(q, Key(s)))
  {
    KidsAreDeeper(g, q, f, s);
    if Key(s) in keys {
      AboveItself(q, Key(s));
      t := s;
    } else {
      SomeMatchesIff(g, q, f, keys, Kids(f, Key(s)), Level(q, Key(s)) + 1);
      var kid :| kid in Kids(f, Key(s)) && SubtreeMatches(g, q, f, keys, kid);
      t := MatchesOnlyFromBelow(g, q, f, keys, kid);
      assert KidsFit(g, q, f, Key(s));
      ParentIsAbove(q, Key(kid), Key(t));
    }
  }

  /** A conversation counts as running exactly when a session in it runs. */
  lemma RootRunsIff(g: seq<Session>, q: map<string, string>, f: Forest, v: View, root: Session)
    requires Built(g, q, f) && root in f.roots
    ensures root in RunningRoots(g, q, f, v, f.roots)
            <==> exists t :: t in g && Above(q, Key(root), Key(t)) && Key(t) in v.running
  {
    if root in RunningRoots(g, q, f, v, f.roots) {
      var t := MatchesOnlyFromBelow(g, q, f, v.running, root);
    }
    forall t | t in g && Above(q, Key(root), Key(t)) && Key(t) in v.running ensures root in RunningRoots(g, q, f, v, f.roots) {
      MatchesFromBelow(g, q, f, v.running, root, t);
    }
  }

  // ---- How many are shown, and in what order -------------------------------------------------

  /** A session runs in this conversation: the one at its top, or one below. */
  ghost predicate RunsIn(g: seq<Session>, q: map<string, string>, v: View, root: Session)
    requires Acyclic(q)
  {
    exists t :: t in g && Above(q, Key(root), Key(t)) && Key(t) in v.running
  }

  ghost function CountRunning(g: seq<Session>, q: map<string, string>, v: View, list: seq<Session>): nat
    requires Acyclic(q)
  {
    if list == [] then 0 else One(RunsIn(g, q, v, list[0])) + CountRunning(g, q, v, list[1..])
  }

  lemma RunsInIff(g: seq<Session>, q: map<string, string>, f: Forest, v: View, s: Session)
    requires Sound(g, q, f) && s in g
    ensures SubtreeMatches(g, q, f, v.running, s) <==> RunsIn(g, q, v, s)
  {
    if SubtreeMatches(g, q, f, v.running, s) {
      var t := MatchesOnlyFromBelow(g, q, f, v.running, s);
    }
    forall t | t in g && Above(q, Key(s), Key(t)) && Key(t) in v.running ensures SubtreeMatches(g, q, f, v.running, s) {
      MatchesFromBelow(g, q, f, v.running, s, t);
    }
  }

  /** Each part of the split keeps the order of the list. */
  lemma {:induction false} SplitKeepsOrder(list: seq<Session>, chosen: seq<Session>)
    ensures Follows(Picked(list, chosen), list) && Follows(Others(list, chosen), list)
    ensures forall s :: s in Picked(list, chosen) <==> s in list && s in chosen
    decreases |list|
  {
    if list != [] {
      SplitKeepsOrder(list[1..], chosen);
      assert list == [list[0]] + list[1..];
      OneInFront(list[0], list[1..], Picked(list[1..], chosen));
      OneInFront(list[0], list[1..], Others(list[1..], chosen));
      assert [] + Picked(list[1..], chosen) == Picked(list[1..], chosen) && [] + Others(list[1..], chosen) == Others(list[1..], chosen);
    }
  }

  lemma OneInFront(first: Session, rest: seq<Session>, part: seq<Session>)
    requires Follows(part, rest) && forall s | s in part :: s in rest
    ensures Follows(part, [first] + rest) && Follows([first] + part, [first] + rest)
  {
    var list, longer := [first] + rest, [first] + part;
    forall i, j | 0 <= i < j < |part| ensures Ahead(list, part[i], part[j]) {
      assert Ahead(rest, part[i], part[j]);
      var k, m :| 0 <= k < m < |rest| && rest[k] == part[i] && rest[m] == part[j];
      assert list[k + 1] == part[i] && list[m + 1] == part[j];
    }
    forall i, j | 0 <= i < j < |longer| ensures Ahead(list, longer[i], longer[j]) {
      if i == 0 {
        assert longer[j] == part[j - 1] && longer[j] in rest;
        var m :| 0 <= m < |rest| && rest[m] == longer[j];
        assert list[0] == longer[0] && list[m + 1] == longer[j];
      } else {
        assert Ahead(list, part[i - 1], part[j - 1]);
      }
    }
  }

  lemma {:induction false} RunningAreCounted(g: seq<Session>, q: map<string, string>, f: Forest, v: View, list: seq<Session>)
    requires Sound(g, q, f) && forall s | s in list :: s in g
    ensures |RunningRoots(g, q, f, v, list)| == CountRunning(g, q, v, list)
    decreases |list|
  {
    if list != [] {
      RunningAreCounted(g, q, f, v, list[1..]);
      RunsInIff(g, q, f, v, list[0]);
    }
  }

  /** The display order: the conversations in which something runs, then the others, both in the order of the forest. */
  lemma DisplayOrder(g: seq<Session>, q: map<string, string>, f: Forest, v: View)
    requires Built(g, q, f)
    ensures var roots, count := Ordered(g, q, f, v), CountRunning(g, q, v, f.roots);
            && multiset(roots) == multiset(f.roots) && |roots| == |f.roots| && count <= |roots|
            && (forall i | 0 <= i < |roots| :: RunsIn(g, q, v, roots[i]) <==> i < count)
            && Follows(roots[..count], f.roots) && Follows(roots[count..], f.roots)
  {
    var running := RunningRoots(g, q, f, v, f.roots);
    var others, roots := Others(f.roots, running), Ordered(g, q, f, v);
    OrderedKeepsAll(g, q, f, v);
    RunningAreCounted(g, q, f, v, f.roots);
    RunningArePicked(g, q, f, v, f.roots, running);
    SplitKeepsOrder(f.roots, running);
    assert roots[..|running|] == running && roots[|running|..] == others;
    forall i | 0 <= i < |roots| ensures RunsIn(g, q, v, roots[i]) <==> i < |running| {
      assert roots[i] == if i < |running| then running[i] else others[i - |running|];
      RunsInIff(g, q, f, v, roots[i]);
    }
  }

  function Min(a: int, b: int): int { if a <= b then a else b }

  /** Of the display order the first are shown: all of an expanded group, else as many as fit, but each running one. */
  lemma ShownRootsIff(g: seq<Session>, q: map<string, string>, f: Forest, v: View, sessionsPerProject: int, groupExpanded: bool)
    requires Built(g, q, f)
    ensures var r, count := RenderGroup(g, q, f, v, sessionsPerProject, groupExpanded), CountRunning(g, q, v, f.roots);
            && |r.visible| == (if groupExpanded then |f.roots| else Min(|f.roots|, Max(sessionsPerProject, count)))
            && |r.visible| <= |r.roots| && r.visible == r.roots[..|r.visible|] && r.hiddenCount == |f.roots| - |r.visible|
            && multiset(r.roots) == multiset(f.roots)
            && (forall i | 0 <= i < |r.roots| :: RunsIn(g, q, v, r.roots[i]) <==> i < count)
            && count <= |r.roots| && Follows(r.roots[..count], f.roots) && Follows(r.roots[count..], f.roots)
  {
    DisplayOrder(g, q, f, v);
    ShownCount(g, q, f, v, sessionsPerProject, groupExpanded);
  }

  lemma ShownCount(g: seq<Session>, q: map<string, string>, f: Forest, v: View, sessionsPerProject: int, groupExpanded: bool)
    requires Built(g, q, f)
    ensures var visible, roots := Visible(g, q, f, v, sessionsPerProject, groupExpanded), Ordered(g, q, f, v);
            && |visible| == (if groupExpanded then |f.roots| else Min(|f.roots|, Max(sessionsPerProject, CountRunning(g, q, v, f.roots))))
            && |visible| <= |roots| && visible == roots[..|visible|]
  {
    OrderedKeepsAll(g, q, f, v);
    RunningAreCounted(g, q, f, v, f.roots);
  }

  // ---- What is rendered ----------------------------------------------------------------------

  lemma RootAbove(g: seq<Session>, q: map<string, string>, f: Forest, t: Session) returns (root: Session)
    requires Built(g, q, f) && t in g
    ensures root in f.roots && Above(q, Key(root), Key(t))
  {
    var n := Level(q, Key(t));
    AboveIsNamed(g, q, f, Key(t), n);
    AncestorLevel(q, Key(t), n);
    root := Named(g, Ancestor(q, Key(t), n).value);
  }

  /** A session is listed once if its conversation is shown and everything above it unfolded, and else not at all. */
  lemma RenderedOnceIff(
    g: seq<Session>, q: map<string, string>, f: Forest, v: View, sessionsPerProject: int, groupExpanded: bool, t: Session)
    requires Built(g, q, f) && t in g
    ensures var r := RenderGroup(g, q, f, v, sessionsPerProject, groupExpanded);
            Times(r.rows, t) == One(SomeShows(g, q, f, v, r.visible, t))
  {
    var r := RenderGroup(g, q, f, v, sessionsPerProject, groupExpanded);
    OrderIsDistinct(g, q, f, v);
    RowsOfListOnce(g, q, f, v, r.visible, 0, 0, t);
  }

  ghost predicate Folded(v: View, k: string) {
    k in v.childVisibility && !v.childVisibility[k]
  }

  /** Above a running session, only what the user folded is folded. */
  lemma RunningUnfolds(g: seq<Session>, q: map<string, string>, f: Forest, v: View, t: Session, b: string)
    requires Sound(g, q, f) && t in g && Key(t) in v.running
    requires b in Keys(g) && Above(q, b, Key(t)) && b != Key(t)
    ensures Expanded(g, q, f, v, b) <==> !Folded(v, b)
  {
    KidsMatchFromBelow(g, q, f, v.running + v.active, Named(g, b), t);
  }

  /** A running session is on the list, once, unless the user folded one of its ancestors; whatever the truncation. */
  lemma RunningIsRenderedIff(
    g: seq<Session>, q: map<string, string>, f: Forest, v: View, sessionsPerProject: int, groupExpanded: bool, t: Session)
    requires Built(g, q, f) && t in g && Key(t) in v.running
    ensures Times(RenderGroup(g, q, f, v, sessionsPerProject, groupExpanded).rows, t)
         == One(forall b | b in Keys(g) && Above(q, b, Key(t)) && b != Key(t) :: !Folded(v, b))
  {
    var r := RenderGroup(g, q, f, v, sessionsPerProject, groupExpanded);
    RenderedOnceIff(g, q, f, v, sessionsPerProject, groupExpanded, t);
    RootsArePermuted(g, q, f, v, sessionsPerProject, groupExpanded);
    var root := RootAbove(g, q, f, t);
    MatchesFromBelow(g, q, f, v.running, root, t);
    assert root in r.visible;
    forall b | b in Keys(g) && Above(q, b, Key(t)) && b != Key(t)
      ensures (Expanded(g, q, f, v, b) <==> !Folded(v, b)) && Above(q, Key(root), b)
    {
      RunningUnfolds(g, q, f, v, t, b);
      AboveIsLinear(q, Key(root), b, Key(t));
    }
    forall s | s in r.visible && Shown(g, q, f, v, Key(s), Key(t)) ensures Key(s) == Key(root) {
      OneAbovePerLevel(q, Key(s), Key(root), Key(t));
    }
    assert SomeShows(g, q, f, v, r.visible, t) <==> Shown(g, q, f, v, Key(root), Key(t));
  }

  /** With everything unfolded, the list holds every session of the group once, whatever the parents were. */
  lemma UnfoldedListIsComplete(
    g: seq<Session>, q: map<string, string>, f: Forest, v: View, sessionsPerProject: int, t: Session)
    requires Built(g, q, f) && t in g
    requires forall k | k in Keys(g) :: k in v.childVisibility && v.childVisibility[k]
    ensures Times(RenderGroup(g, q, f, v, sessionsPerProject, true).rows, t) == 1
  {
    var r := RenderGroup(g, q, f, v, sessionsPerProject, true);
    RenderedOnceIff(g, q, f, v, sessionsPerProject, true, t);
    RootsArePermuted(g, q, f, v, sessionsPerProject, true);
    var root := RootAbove(g, q, f, t);
    assert root in multiset(r.roots);
    forall b | b in Keys(g) && Above(q, Key(root), b) && Above(q, b, Key(t)) && b != Key(t) ensures Expanded(g, q, f, v, b) {
      KidsMatchFromBelow(g, q, f, {Key(t)}, Named(g, b), t);
    }
    assert Shown(g, q, f, v, Key(root), Key(t));
  }

  /** Each listed row but those of the roots comes after its parent, one deeper. */
  lemma ChildrenFollowParents(
    g: seq<Session>, q: map<string, string>, f: Forest, v: View, sessionsPerProject: int, groupExpanded: bool, i: nat)
    requires Built(g, q, f) && i < |RenderGroup(g, q, f, v, sessionsPerProject, groupExpanded).rows|
    ensures var rows := RenderGroup(g, q, f, v, sessionsPerProject, groupExpanded).rows;
            if Key(rows[i].session) in q then Led(q, rows, i) else rows[i].depth == 0
  {
    var r := RenderGroup(g, q, f, v, sessionsPerProject, groupExpanded);
    ChildrenFollowAll(g, q, f, v, r.visible, 0, 0, i);
  }

  /** Two listed sessions of the same parent stand in the order of the group, and those without a parent in display order. */
  lemma SiblingsKeepGroupOrder(
    g: seq<Session>, f: Forest, v: View, sessionsPerProject: int, groupExpanded: bool, i: nat, j: nat)
    requires DistinctKeys(g) && Built(g, Kept(g), f) && IsForestOf(f, g, Kept(g))
    requires i < j < |RenderGroup(g, Kept(g), f, v, sessionsPerProject, groupExpanded).rows|
    requires var rows := RenderGroup(g, Kept(g), f, v, sessionsPerProject, groupExpanded).rows;
             Up(Kept(g), Key(rows[i].session)) == Up(Kept(g), Key(rows[j].session))
    ensures var r := RenderGroup(g, Kept(g), f, v, sessionsPerProject, groupExpanded);
            Ahead(if Key(r.rows[i].session) in Kept(g) then g else r.visible, r.rows[i].session, r.rows[j].session)
  {
    var r := RenderGroup(g, Kept(g), f, v, sessionsPerProject, groupExpanded);
    RenderedRows(g, Kept(g), f, v, sessionsPerProject, groupExpanded);
    RowsKeepGroupOrder(g, f, v, r.visible, r.rows, i, j);
  }

  lemma RenderedRows(g: seq<Session>, q: map<string, string>, f: Forest, v: View, sessionsPerProject: int, groupExpanded: bool)
    requires Built(g, q, f)
    ensures var r := RenderGroup(g, q, f, v, sessionsPerProject, groupExpanded);
            && AllAt(g, q, r.visible, 0) && DistinctKeys(r.visible) && (forall s | s in r.visible :: Key(s) !in q)
            && r.rows == RowsOf(g, q, f, v, r.visible, 0, 0)
  {
    OrderIsDistinct(g, q, f, v);
    forall s | s in Visible(g, q, f, v, sessionsPerProject, groupExpanded) ensures s in f.roots {
      assert s in Ordered(g, q, f, v);
    }
  }

  lemma RowsKeepGroupOrder(g: seq<Session>, f: Forest, v: View, list: seq<Session>, rows: seq<Row>, i: nat, j: nat)
    requires DistinctKeys(g) && Sound(g, Kept(g), f) && IsForestOf(f, g, Kept(g)) && AllAt(g, Kept(g), list, 0) && DistinctKeys(list)
    requires rows == RowsOf(g, Kept(g), f, v, list, 0, 0) && forall s | s in list :: Key(s) !in Kept(g)
    requires i < j < |rows| && Up(Kept(g), Key(rows[i].session)) == Up(Kept(g), Key(rows[j].session))
    ensures Ahead(if Key(rows[i].session) in Kept(g) then g else list, rows[i].session, rows[j].session)
  {
    assert list[0..] == list;
    AllSiblingsKeepOrder(g, Kept(g), f, v, list, 0, 0, list, 0, i, j);
    if Key(rows[i].session) in Kept(g) { AheadInGroup(g, f, Kept(g)[Key(rows[i].session)], rows[i].session, rows[j].session); }
  }

  lemma AheadInGroup(g: seq<Session>, f: Forest, k: string, a: Session, b: Session)
    requires DistinctKeys(g) && IsForestOf(f, g, Kept(g)) && Ahead(Kids(f, k), a, b)
    ensures Ahead(g, a, b)
  {
    var kids := KidsOf(g, Kept(g), k);
    assert Kids(f, k) == kids;
    GroupOrderIsKept(g, Kept(g), k);
    var x, y :| 0 <= x < y < |kids| && kids[x] == a && kids[y] == b;
    assert Ahead(g, kids[x], kids[y]);
  }

  /** A session is below another. */
  ghost predicate StrictlyBelow(q: map<string, string>, a: string, k: string)
    requires Acyclic(q)
  {
    a != k && Above(q, a, k)
  }

  /** A listed session is unfolded exactly as the user left it, else if something below it runs or is open; never without children. */
  lemma UnfoldedIff(g: seq<Session>, q: map<string, string>, f: Forest, v: View, sessionsPerProject: int, groupExpanded: bool, row: Row)
    requires Built(g, q, f) && row in RenderGroup(g, q, f, v, sessionsPerProject, groupExpanded).rows
    ensures var k := Key(row.session);
            && row.childCount == |Kids(f, k)|
            && (row.childrenExpanded
                <==> && row.childCount > 0
                     && if k in v.childVisibility then v.childVisibility[k]
                        else exists t :: t in g && StrictlyBelow(q, k, Key(t)) && Key(t) in v.running + v.active)
  {
    var r := RenderGroup(g, q, f, v, sessionsPerProject, groupExpanded);
    AllRowsFit(g, q, f, v, r.visible, 0, 0);
    ExpandedIff(g, q, f, v, row.session);
  }

  lemma ExpandedIff(g: seq<Session>, q: map<string, string>, f: Forest, v: View, s: Session)
    requires Sound(g, q, f) && s in g
    ensures ChildrenExpanded(g, q, f, v, s)
            <==> && |Kids(f, Key(s))| > 0
                 && if Key(s) in v.childVisibility then v.childVisibility[Key(s)]
                    else exists t :: t in g && StrictlyBelow(q, Key(s), Key(t)) && Key(t) in v.running + v.active
  {
    SomeKidMatchesIff(g, q, f, v.running + v.active, s);
  }

  lemma SomeKidMatchesIff(g: seq<Session>, q: map<string, string>, f: Forest, keys: set<string>, s: Session)
    requires Sound(g, q, f) && s in g
    ensures AllAt(g, q, Kids(f, Key(s)), Level(q, Key(s)) + 1)
    ensures SomeMatches(g, q, f, keys, Kids(f, Key(s)), Level(q, Key(s)) + 1)
            <==> exists t :: t in g && StrictlyBelow(q, Key(s), Key(t)) && Key(t) in keys
  {
    KidsAreDeeper(g, q, f, s);
    if SomeMatches(g, q, f, keys, Kids(f, Key(s)), Level(q, Key(s)) + 1) {
      SomeMatchesIff(g, q, f, keys, Kids(f, Key(s)), Level(q, Key(s)) + 1);
      var kid :| kid in Kids(f, Key(s)) && SubtreeMatches(g, q, f, keys, kid);
      var t := MatchesOnlyFromBelow(g, q, f, keys, kid);
      assert KidsFit(g, q, f, Key(s));
      ParentIsAbove(q, Key(kid), Key(t));
      assert StrictlyBelow(q, Key(s), Key(t));
    }
    forall t | t in g && StrictlyBelow(q, Key(s), Key(t)) && Key(t) in keys
      ensures SomeMatches(g, q, f, keys, Kids(f, Key(s)), Level(q, Key(s)) + 1)
    {
      KidsMatchFromBelow(g, q, f, keys, s, t);
    }
  }
}
