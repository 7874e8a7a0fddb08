/** Flattening the panels of a dashboard, which nest, into at most eight queries. */
module GrafanaPanels {
  import opened Wrappers

  const MAX_QUERIES := 8

  /** JSON that need not have the expected shape. An expression that is no text is None; a
      panel without a usable number has id 0. */
  datatype Target = NotATarget | Target(uid: string, hide: bool, expr: Option<string>)
  datatype Panel = NotAPanel | Panel(id: int, title: string, uid: string, targets: seq<Target>, nested: seq<Panel>)

  datatype Query = Query(refId: char, expr: string, uid: string)

  /** What is asked for: one datasource, and perhaps one panel. */
  datatype Request = Request(uid: string, panel: Option<int>, isBlank: string -> bool, expand: string -> string,
                             clean: string -> string)

  /** A target that becomes a query, with the panel that shows it. */
  datatype Match = Match(panel: Panel, expr: string)

  // ---------------------------------------------------------------- what is meant

  /** Every panel before the panels inside it, and those before the panels after it. */
  function PreOrder(forest: seq<Panel>): seq<Panel> {
    if forest == [] then []
    else
      (match forest[0]
       case NotAPanel => []
       case Panel(_, _, _, _, nested) => [forest[0]] + PreOrder(nested))
      + PreOrder(forest[1..])
  }

  function Size(forest: seq<Panel>): nat {
    if forest == [] then 0
    else
      (match forest[0]
       case NotAPanel => 1
       case Panel(_, _, _, _, nested) => 1 + Size(nested))
      + Size(forest[1..])
  }

  predicate Asked(r: Request, p: Panel) {
    p.Panel? && (r.panel == None || p.id == r.panel.value)
  }

  predicate Wanted(r: Request, p: Panel, t: Target) {
    p.Panel? && t.Target? && (if t.uid != "" then t.uid else p.uid) == r.uid && !t.hide
    && t.expr.Some? && !r.isBlank(t.expr.value)
  }

  /** The wanted targets before the first malformed one. */
  ghost function Matches(r: Request, p: Panel, targets: seq<Target>): seq<Match> {
    if targets == [] || targets[0].NotATarget? then []
    else (if Wanted(r, p, targets[0]) then [Match(p, targets[0].expr.value)] else []) + Matches(r, p, targets[1..])
  }

  ghost function AllMatches(r: Request, panels: seq<Panel>): seq<Match> {
    if panels == [] then []
    else (if Asked(r, panels[0]) then Matches(r, panels[0], panels[0].targets) else []) + AllMatches(r, panels[1..])
  }

  function RefId(k: nat): char
    requires k < MAX_QUERIES
  {
    'A' + k as char
  }

  ghost predicate Built(r: Request, found: seq<Match>, queries: seq<Query>, panels: map<char, (int, string)>) {
    && |queries| == |found| <= MAX_QUERIES
    && (forall k :: 0 <= k < |found| ==>
          && queries[k] == Query(RefId(k), r.expand(found[k].expr), r.uid)
          && found[k].panel.Panel?
          && RefId(k) in panels && panels[RefId(k)] == (found[k].panel.id, r.clean(found[k].panel.title)))
    && (forall c :: c in panels ==> exists k :: 0 <= k < |found| && c == RefId(k))
  }

  // ---------------------------------------------------------------- the work list

  lemma {:induction false} PreOrderConcat(a: seq<Panel>, b: seq<Panel>)
    ensures PreOrder(a + b) == PreOrder(a) + PreOrder(b)
    ensures Size(a + b) == Size(a) + Size(b)
  {
    if a == [] {
      assert a + b == b;
    } else {
      assert (a + b)[1..] == a[1..] + b;
      PreOrderConcat(a[1..], b);
    }
  }

  lemma {:induction false} AllMatchesConcat(r: Request, a: seq<Panel>, b: seq<Panel>)
    ensures AllMatches(r, a + b) == AllMatches(r, a) + AllMatches(r, b)
  {
    if a == [] {
      assert a + b == b;
    } else {
      assert (a + b)[1..] == a[1..] + b;
      AllMatchesConcat(r, a[1..], b);
    }
  }

  lemma PreOrderStep(pending: seq<Panel>)
    requires pending != []
    ensures pending[0].NotAPanel? ==>
              PreOrder(pending) == PreOrder(pending[1..]) && Size(pending[1..]) < Size(pending)
    ensures pending[0].Panel? ==>
              var next := pending[0].nested + pending[1..];
              PreOrder(pending) == [pending[0]] + PreOrder(next) && Size(next) < Size(pending)
  {
    if pending[0].Panel? {
      PreOrderConcat(pending[0].nested, pending[1..]);
    }
  }

  lemma AllMatchesStep(r: Request, p: Panel, next: seq<Panel>)
    ensures AllMatches(r, [p] + next) == (if Asked(r, p) then Matches(r, p, p.targets) else []) + AllMatches(r, next)
  {
    hide Matches;
    assert ([p] + next)[1..] == next;
  }

  /** Taking one panel off the work list, and putting those inside it in its place. */
  lemma WorkListStep(r: Request, pending: seq<Panel>)
    requires pending != []
    ensures pending[0].NotAPanel? ==>
              AllMatches(r, PreOrder(pending)) == AllMatches(r, PreOrder(pending[1..]))
              && Size(pending[1..]) < Size(pending)
    ensures pending[0].Panel? ==>
              var next := pending[0].nested + pending[1..];
              && AllMatches(r, PreOrder(pending)) ==
                   (if Asked(r, pending[0]) then Matches(r, pending[0], pending[0].targets) else [])
                   + AllMatches(r, PreOrder(next))
              && Size(next) < Size(pending)
  {
    hide AllMatches, Matches, Asked, PreOrder, Size;
    PreOrderStep(pending);
    if pending[0].Panel? {
      AllMatchesStep(r, pending[0], PreOrder(pending[0].nested + pending[1..]));
    }
  }

  method AddQuery(r: Request, ghost found: seq<Match>, queries: seq<Query>, panels: map<char, (int, string)>,
                  p: Panel, expr: string)
    returns (queries': seq<Query>, panels': map<char, (int, string)>)
    requires Built(r, found, queries, panels) && |queries| < MAX_QUERIES && p.Panel?
    ensures Built(r, found + [Match(p, expr)], queries', panels')
  {
    var refId := RefId(|queries|);
    queries' := queries + [Query(refId, r.expand(expr), r.uid)];
    panels' := panels[refId := (p.id, r.clean(p.title))];
  }

  /** The targets of one panel, until the queries are eight or a target is malformed. */
  method AddTargets(r: Request, ghost found: seq<Match>, queries: seq<Query>, panels: map<char, (int, string)>,
                    p: Panel)
    returns (queries': seq<Query>, panels': map<char, (int, string)>, ghost found': seq<Match>)
    requires Built(r, found, queries, panels) && p.Panel?
    ensures Built(r, found', queries', panels')
    ensures found' <= found + Matches(r, p, p.targets)
    ensures |found'| < MAX_QUERIES ==> found' == found + Matches(r, p, p.targets)
  {
    hide Built;
    queries', panels', found' := queries, panels, found;
    var rest := p.targets;
    while rest != []
      invariant Built(r, found', queries', panels')
      invariant found + Matches(r, p, p.targets) == found' + Matches(r, p, rest)
      decreases |rest|
    {
      var t := rest[0];
      if |queries'| == MAX_QUERIES || t.NotATarget? {
        BuiltSize(r, found', queries', panels');
        return;
      }
      if Wanted(r, p, t) {
        BuiltSize(r, found', queries', panels');
        queries', panels' := AddQuery(r, found', queries', panels', p, t.expr.value);
        found' := found' + [Match(p, t.expr.value)];
      }
      rest := rest[1..];
    }
  }

  lemma BuiltSize(r: Request, found: seq<Match>, queries: seq<Query>, panels: map<char, (int, string)>)
    requires Built(r, found, queries, panels)
    ensures |queries| == |found| <= MAX_QUERIES
  {
  }

  ghost function FirstEight(all: seq<Match>): seq<Match> {
    if |all| > MAX_QUERIES then all[..MAX_QUERIES] else all
  }

  /** The queries are the first eight matches of the recursive order. */
  method PanelQueries(r: Request, dashboard: seq<Panel>)
    returns (queries: seq<Query>, panels: map<char, (int, string)>)
    ensures Built(r, FirstEight(AllMatches(r, PreOrder(dashboard))), queries, panels)
    ensures var all := AllMatches(r, PreOrder(dashboard));
            |queries| == (if |all| < 8 then |all| else 8) && FirstEight(all) == all[..|queries|]
  {
    hide Built, Matches, AllMatches, PreOrder, Size, FirstEight;
    var pending := dashboard;
    queries, panels := [], map[];
    ghost var found: seq<Match> := [];
    NothingBuilt(r);
    ghost var all := AllMatches(r, PreOrder(dashboard));
    while pending != [] && |queries| < MAX_QUERIES
      invariant Built(r, found, queries, panels)
      invariant |found| == |queries| <= MAX_QUERIES && found <= all
      invariant |found| < MAX_QUERIES ==> all == found + AllMatches(r, PreOrder(pending))
      decreases Size(pending)
    {
      var panel := pending[0];
      WorkListStep(r, pending);
      pending := pending[1..];
      if panel.NotAPanel? {
        continue;
      }
      pending := panel.nested + pending;
      if !Asked(r, panel) {
        continue;
      }
      queries, panels, found := AddTargets(r, found, queries, panels, panel);
      BuiltSize(r, found, queries, panels);
    }
    NoPanels(r);
    FirstEightIs(found, all);
  }

  lemma FirstEightIs(found: seq<Match>, all: seq<Match>)
    requires found <= all && |found| <= 8 && (|found| < 8 ==> found == all)
    ensures found == FirstEight(all) && |found| == (if |all| < 8 then |all| else 8)
    ensures FirstEight(all) == all[..|found|]
  {
  }

  lemma NothingBuilt(r: Request)
    ensures Built(r, [], [], map[])
  {
  }

  lemma NoPanels(r: Request)
    ensures AllMatches(r, PreOrder([])) == []
  {
  }

  /** Each query has its own letter, and the letters are exactly the keys of the map. */
  lemma LettersMatchPanels(r: Request, found: seq<Match>, queries: seq<Query>, panels: map<char, (int, string)>)
    requires Built(r, found, queries, panels)
    ensures forall j, k :: 0 <= j < k < |queries| ==> queries[j].refId != queries[k].refId
    ensures panels.Keys == set k | 0 <= k < |queries| :: queries[k].refId
    ensures |panels| == |queries|
  {
    var letters := set k | 0 <= k < |queries| :: queries[k].refId;
    assert panels.Keys == letters;
    CountLetters(queries);
  }

  lemma {:induction false} CountLetters(queries: seq<Query>)
    requires forall j, k :: 0 <= j < k < |queries| ==> queries[j].refId != queries[k].refId
    ensures |set k | 0 <= k < |queries| :: queries[k].refId| == |queries|
  {
    if queries != [] {
      var n := |queries| - 1;
      CountLetters(queries[..n]);
      var front := set k | 0 <= k < n :: queries[..n][k].refId;
      assert (set k | 0 <= k < |queries| :: queries[k].refId) == front + {queries[n].refId};
    }
  }

  // ---------------------------------------------------------------- which targets, written out

  /** The target before place `j` are all well formed, and this one names the datasource asked
      for, or leaves that to its panel, is not hidden and has an expression. */
  ghost predicate IsMatch(r: Request, p: Panel, targets: seq<Target>, j: nat, m: Match) {
    && j < |targets| && p.Panel? && (forall i :: 0 <= i <= j ==> targets[i].Target?)
    && (if targets[j].uid == "" then p.uid == r.uid else targets[j].uid == r.uid)
    && !targets[j].hide && targets[j].expr.Some? && !r.isBlank(targets[j].expr.value)
    && m == Match(p, targets[j].expr.value)
  }

  lemma FirstTarget(r: Request, p: Panel, targets: seq<Target>, m: Match)
    requires targets != []
    ensures IsMatch(r, p, targets, 0, m)
            <==> Wanted(r, p, targets[0]) && m == Match(p, targets[0].expr.value)
  {
  }

  lemma LaterTarget(r: Request, p: Panel, targets: seq<Target>, j: nat, m: Match)
    requires targets != []
    ensures IsMatch(r, p, targets, j + 1, m) <==> targets[0].Target? && IsMatch(r, p, targets[1..], j, m)
  {
    if IsMatch(r, p, targets, j + 1, m) {
      assert forall i :: 0 <= i <= j ==> targets[1..][i] == targets[i + 1];
    }
    if targets[0].Target? && IsMatch(r, p, targets[1..], j, m) {
      assert forall i :: 0 < i <= j + 1 ==> targets[i] == targets[1..][i - 1];
    }
  }

  /** The places of the matches of one panel: all of them, in order. */
  ghost function Places(r: Request, p: Panel, targets: seq<Target>): seq<nat> {
    if targets == [] || targets[0].NotATarget? then []
    else
      var rest := Places(r, p, targets[1..]);
      (if Wanted(r, p, targets[0]) then [0] else []) + seq(|rest|, n requires 0 <= n < |rest| => rest[n] + 1)
  }

  lemma {:induction false} MatchAt(r: Request, p: Panel, targets: seq<Target>, n: nat)
    ensures |Places(r, p, targets)| == |Matches(r, p, targets)|
    ensures n < |Places(r, p, targets)| ==> IsMatch(r, p, targets, Places(r, p, targets)[n], Matches(r, p, targets)[n])
  {
    hide IsMatch, Wanted;
    if targets != [] && targets[0].Target? {
      var first := if Wanted(r, p, targets[0]) then 1 else 0;
      if n >= first {
        MatchAt(r, p, targets[1..], n - first);
        if n < |Places(r, p, targets)| {
          LaterTarget(r, p, targets, Places(r, p, targets[1..])[n - first], Matches(r, p, targets)[n]);
        }
      } else {
        MatchAt(r, p, targets[1..], 0);
        FirstTarget(r, p, targets, Matches(r, p, targets)[n]);
      }
    }
  }

  lemma {:induction false} PlacesInOrder(r: Request, p: Panel, targets: seq<Target>)
    ensures forall n, m :: 0 <= n < m < |Places(r, p, targets)| ==> Places(r, p, targets)[n] < Places(r, p, targets)[m]
  {
    hide Wanted;
    if targets != [] && targets[0].Target? {
      PlacesInOrder(r, p, targets[1..]);
    }
  }

  lemma {:induction false} EveryPlace(r: Request, p: Panel, targets: seq<Target>, j: nat, m: Match)
    requires IsMatch(r, p, targets, j, m)
    ensures j in Places(r, p, targets)
  {
    hide Wanted, IsMatch;
    assert targets != [] && targets[0].Target? by { Inside(r, p, targets, j, m); }
    if j == 0 {
      FirstTarget(r, p, targets, m);
      assert Places(r, p, targets)[0] == 0;
    } else {
      LaterTarget(r, p, targets, j - 1, m);
      EveryPlace(r, p, targets[1..], j - 1, m);
      var rest := Places(r, p, targets[1..]);
      var n :| 0 <= n < |rest| && rest[n] == j - 1;
      var first := if Wanted(r, p, targets[0]) then 1 else 0;
      assert Places(r, p, targets)[first + n] == j;
    }
  }

  lemma Inside(r: Request, p: Panel, targets: seq<Target>, j: nat, m: Match)
    requires IsMatch(r, p, targets, j, m)
    ensures targets != [] && targets[0].Target?
  {
  }

  lemma OneMatch(r: Request, p: Panel, targets: seq<Target>, j: nat, m: Match, n: Match)
    requires IsMatch(r, p, targets, j, m) && IsMatch(r, p, targets, j, n)
    ensures m == n
  {
  }

  /** The matches of one panel are all its matching targets, in order. */
  lemma MatchesAre(r: Request, p: Panel, targets: seq<Target>)
    ensures var places, ms := Places(r, p, targets), Matches(r, p, targets);
            && |places| == |ms|
            && (forall n, m :: 0 <= n < m < |places| ==> places[n] < places[m])
            && (forall n :: 0 <= n < |ms| ==> IsMatch(r, p, targets, places[n], ms[n]))
            && (forall j, m :: IsMatch(r, p, targets, j, m) ==> j in places && m in ms)
  {
    hide IsMatch, Places, Matches;
    var places, ms := Places(r, p, targets), Matches(r, p, targets);
    PlacesInOrder(r, p, targets);
    MatchAt(r, p, targets, 0);
    forall n | 0 <= n < |ms|
      ensures IsMatch(r, p, targets, places[n], ms[n])
    {
      MatchAt(r, p, targets, n);
    }
    forall j, m | IsMatch(r, p, targets, j, m)
      ensures j in places && m in ms
    {
      EveryPlace(r, p, targets, j, m);
      var n :| 0 <= n < |places| && places[n] == j;
      OneMatch(r, p, targets, j, m, ms[n]);
    }
  }

  /** The matches of a list of panels are those of the panels asked for, all if none is named. */
  lemma {:induction false} AllMatchesAre(r: Request, panels: seq<Panel>, m: Match)
    ensures m in AllMatches(r, panels)
            <==> exists p, j :: p in panels && p.Panel? && (r.panel == None || p.id == r.panel.value)
                                && IsMatch(r, p, p.targets, j, m)
  {
    if panels != [] {
      var p := panels[0];
      assert panels == [p] + panels[1..];
      AllMatchesAre(r, panels[1..], m);
      if p.Panel? {
        MatchesAre(r, p, p.targets);
      }
    }
  }

  /** Letters from A on, in order. */
  lemma LettersInOrder(r: Request, found: seq<Match>, queries: seq<Query>, panels: map<char, (int, string)>, k: nat)
    requires Built(r, found, queries, panels) && k < |queries|
    ensures queries[k].refId == "ABCDEFGH"[k] && queries[k].expr == r.expand(found[k].expr) && queries[k].uid == r.uid
    ensures panels["ABCDEFGH"[k]] == (found[k].panel.id, r.clean(found[k].panel.title))
  {
  }
}
