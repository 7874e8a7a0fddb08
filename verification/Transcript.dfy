/** The messages of a conversation and the shape the agent loop gives them. */
module Transcript {
  type CallId = string

  datatype Message =
    | User(content: string)
    | Assistant(content: string, calls: seq<CallId>)
    | Tool(callId: CallId, content: string)

  // ---------------------------------------------------------------- recognising the shape

  /** What may come next: a round has been opened, or an assistant's calls are being
      answered (`done` of them are), or the round has its final answer. */
  datatype Shape = Start | Open | Answering(calls: seq<CallId>, done: nat) | Final | Bad

  function Next(s: Shape, m: Message): Shape {
    match m
    case User(_) => if s.Bad? then Bad else Open
    case Assistant(_, calls) =>
      if s.Open? || (s.Answering? && s.done == |s.calls|) then
        if calls == [] then Final else Answering(calls, 0)
      else Bad
    case Tool(id, _) =>
      if s.Answering? && s.done < |s.calls| && s.calls[s.done] == id
      then Answering(s.calls, s.done + 1) else Bad
  }

  function ShapeOf(ms: seq<Message>): Shape {
    if ms == [] then Start else Next(ShapeOf(ms[..|ms| - 1]), ms[|ms| - 1])
  }

  ghost predicate WellShaped(ms: seq<Message>) {
    !ShapeOf(ms).Bad?
  }

  lemma {:induction false} ShapePrefix(ms: seq<Message>, i: nat)
    requires WellShaped(ms) && i <= |ms|
    ensures WellShaped(ms[..i])
  {
    if i < |ms| {
      ShapePrefix(ms[..|ms| - 1], i);
      assert ms[..|ms| - 1][..i] == ms[..i];
    } else {
      assert ms[..i] == ms;
    }
  }

  /** Cutting history in front of a user message changes nothing that follows. */
  lemma {:induction false} CutKeepsShape(ms: seq<Message>, cut: nat)
    requires cut < |ms| && ms[cut].User? && WellShaped(ms)
    ensures ShapeOf(ms[cut..]) == ShapeOf(ms)
  {
    var n := |ms| - 1;
    ShapePrefix(ms, n);
    if cut == n {
      assert ms[cut..][..0] == [];
    } else {
      CutKeepsShape(ms[..n], cut);
      assert ms[cut..][..n - cut] == ms[..n][cut..];
    }
  }

  // ---------------------------------------------------------------- describing the shape

  /** An assistant message and the first `answered` of its calls. */
  datatype Group = Group(content: string, calls: seq<CallId>, answers: seq<string>)

  datatype Round = Round(question: string, groups: seq<Group>)

  ghost predicate Fits(g: Group) {
    |g.answers| <= |g.calls|
  }

  ghost predicate AllFit(gs: seq<Group>) {
    forall i :: 0 <= i < |gs| ==> Fits(gs[i])
  }

  ghost predicate Complete(g: Group) {
    g.calls != [] && |g.answers| == |g.calls|
  }

  /** Only the last group may be cut short, and only the last one may ask for nothing. */
  ghost predicate ValidRound(r: Round) {
    && AllFit(r.groups)
    && (forall i :: 0 <= i < |r.groups| - 1 ==> Complete(r.groups[i]))
  }

  ghost predicate AllValid(rounds: seq<Round>) {
    forall i :: 0 <= i < |rounds| ==> ValidRound(rounds[i])
  }

  ghost function Answers(g: Group): seq<Message>
    requires Fits(g)
  {
    seq(|g.answers|, i requires 0 <= i < |g.answers| => Tool(g.calls[i], g.answers[i]))
  }

  ghost function GroupMessages(gs: seq<Group>): seq<Message>
    requires AllFit(gs)
  {
    if gs == [] then []
    else
      var g := gs[|gs| - 1];
      GroupMessages(gs[..|gs| - 1]) + [Assistant(g.content, g.calls)] + Answers(g)
  }

  ghost function Flatten(rounds: seq<Round>): seq<Message>
    requires AllValid(rounds)
  {
    if rounds == [] then []
    else
      var r := rounds[|rounds| - 1];
      Flatten(rounds[..|rounds| - 1]) + [User(r.question)] + GroupMessages(r.groups)
  }

  /** What the recogniser has seen of a list of rounds. */
  ghost function ShapeOfRounds(rounds: seq<Round>): Shape
    requires AllValid(rounds)
  {
    if rounds == [] then Start
    else ShapeOfGroups(rounds[|rounds| - 1].groups)
  }

  ghost function ShapeOfGroups(gs: seq<Group>): Shape {
    if gs == [] then Open
    else
      var g := gs[|gs| - 1];
      if g.calls == [] then Final else Answering(g.calls, |g.answers|)
  }

  lemma ShapeSnoc(ms: seq<Message>, m: Message)
    ensures ShapeOf(ms + [m]) == Next(ShapeOf(ms), m)
  {
    assert (ms + [m])[..|ms|] == ms;
  }

  lemma Regroup3<T>(a: seq<T>, b: seq<T>, c: seq<T>)
    ensures a + (b + c) == a + b + c
  {
  }

  lemma MoreAnswers(g: Group, id: CallId, content: string)
    requires |g.answers| < |g.calls| && g.calls[|g.answers|] == id
    ensures Answers(g.(answers := g.answers + [content])) == Answers(g) + [Tool(id, content)]
  {
  }

  lemma {:induction false} AnswersShape(ms: seq<Message>, g: Group)
    requires Fits(g) && ShapeOf(ms) == Answering(g.calls, 0)
    ensures ShapeOf(ms + Answers(g)) == Answering(g.calls, |g.answers|)
    decreases |g.answers|
  {
    if g.answers == [] {
      assert ms + Answers(g) == ms;
    } else {
      var n := |g.answers| - 1;
      var h, t := g.(answers := g.answers[..n]), Tool(g.calls[n], g.answers[n]);
      AnswersShape(ms, h);
      assert g == h.(answers := h.answers + [g.answers[n]]);
      MoreAnswers(h, g.calls[n], g.answers[n]);
      Regroup3(ms, Answers(h), [t]);
      ShapeSnoc(ms + Answers(h), t);
    }
  }

  lemma Regroup4<T>(a: seq<T>, b: seq<T>, c: seq<T>, d: seq<T>)
    ensures a + (b + c + d) == a + b + c + d
  {
  }

  lemma GroupShape(ms: seq<Message>, g: Group)
    requires Fits(g) && Next(ShapeOf(ms), Assistant(g.content, g.calls)) != Bad
    ensures ShapeOf(ms + [Assistant(g.content, g.calls)] + Answers(g)) == ShapeOfGroups([g])
  {
    var asked := ms + [Assistant(g.content, g.calls)];
    ShapeSnoc(ms, Assistant(g.content, g.calls));
    if g.calls == [] {
      assert asked + Answers(g) == asked;
    } else {
      AnswersShape(asked, g);
    }
  }

  lemma {:induction false} GroupsShape(ms: seq<Message>, gs: seq<Group>)
    requires AllFit(gs) && (forall i :: 0 <= i < |gs| - 1 ==> Complete(gs[i]))
    requires ShapeOf(ms) == Open
    ensures ShapeOf(ms + GroupMessages(gs)) == ShapeOfGroups(gs)
  {
    if gs == [] {
      assert ms + GroupMessages(gs) == ms;
    } else {
      var n := |gs| - 1;
      var g, front := gs[n], gs[..n];
      GroupsShape(ms, front);
      var s := ShapeOf(ms + GroupMessages(front));
      assert s == Open || (s.Answering? && s.done == |s.calls|) by {
        if n > 0 { assert Complete(gs[n - 1]) && front[n - 1] == gs[n - 1]; }
      }
      GroupShape(ms + GroupMessages(front), g);
      Regroup4(ms, GroupMessages(front), [Assistant(g.content, g.calls)], Answers(g));
    }
  }

  /** Every list of rounds is recognised. */
  lemma {:induction false} RoundsAreWellShaped(rounds: seq<Round>)
    requires AllValid(rounds)
    ensures ShapeOf(Flatten(rounds)) == ShapeOfRounds(rounds)
  {
    if rounds != [] {
      var n := |rounds| - 1;
      RoundsAreWellShaped(rounds[..n]);
      var before := Flatten(rounds[..n]);
      ShapeSnoc(before, User(rounds[n].question));
      GroupsShape(before + [User(rounds[n].question)], rounds[n].groups);
      assert Flatten(rounds) == before + [User(rounds[n].question)] + GroupMessages(rounds[n].groups);
    }
  }

  /** Everything recognised is a list of rounds. */
  lemma {:induction false} WellShapedIsRounds(ms: seq<Message>) returns (rounds: seq<Round>)
    requires WellShaped(ms)
    ensures AllValid(rounds)
    ensures Flatten(rounds) == ms && ShapeOf(ms) == ShapeOfRounds(rounds)
  {
    if ms == [] {
      rounds := [];
    } else {
      var n := |ms| - 1;
      var front, m := ms[..n], ms[n];
      assert ms == front + [m];
      ShapePrefix(ms, n);
      var rs := WellShapedIsRounds(front);
      match m
      case User(q) =>
        FlattenSnoc(rs, Round(q, []));
        rounds := rs + [Round(q, [])];
      case Assistant(content, calls) =>
        rounds := AddGroup(rs, content, calls);
      case Tool(id, content) =>
        rounds := AddAnswer(rs, id, content);
    }
  }

  lemma FlattenSnoc(front: seq<Round>, r: Round)
    requires AllValid(front) && ValidRound(r)
    ensures AllValid(front + [r])
    ensures Flatten(front + [r]) == Flatten(front) + [User(r.question)] + GroupMessages(r.groups)
    ensures ShapeOfRounds(front + [r]) == ShapeOfGroups(r.groups)
  {
    assert (front + [r])[..|front|] == front;
  }

  lemma GroupsSnoc(gs: seq<Group>, g: Group)
    requires AllFit(gs) && Fits(g)
    ensures AllFit(gs + [g])
    ensures GroupMessages(gs + [g]) == GroupMessages(gs) + [Assistant(g.content, g.calls)] + Answers(g)
    ensures ShapeOfGroups(gs + [g]) == ShapeOfGroups([g])
  {
    assert (gs + [g])[..|gs|] == gs;
  }

  lemma NewGroup(gs: seq<Group>, content: string, calls: seq<CallId>)
    requires AllFit(gs)
    ensures var more := gs + [Group(content, calls, [])];
            && AllFit(more)
            && GroupMessages(more) == GroupMessages(gs) + [Assistant(content, calls)]
            && ShapeOfGroups(more) == if calls == [] then Final else Answering(calls, 0)
  {
    var g := Group(content, calls, []);
    GroupsSnoc(gs, g);
    assert Answers(g) == [];
  }

  lemma NewAnswer(gs: seq<Group>, g: Group, id: CallId, content: string)
    requires AllFit(gs) && Fits(g) && |g.answers| < |g.calls| && g.calls[|g.answers|] == id
    ensures var h := g.(answers := g.answers + [content]);
            && Fits(h) && AllFit(gs + [g]) && AllFit(gs + [h])
            && GroupMessages(gs + [h]) == GroupMessages(gs + [g]) + [Tool(id, content)]
            && ShapeOfGroups(gs + [h]) == Answering(g.calls, |g.answers| + 1)
  {
    var h := g.(answers := g.answers + [content]);
    GroupsSnoc(gs, g);
    GroupsSnoc(gs, h);
    MoreAnswers(g, id, content);
    Regroup3(GroupMessages(gs) + [Assistant(g.content, g.calls)], Answers(g), [Tool(id, content)]);
  }

  /** Replacing the last round's groups by groups with one more message. */
  lemma LongerRound(front: seq<Round>, r: Round, groups: seq<Group>, m: Message)
    requires AllValid(front) && ValidRound(r) && ValidRound(Round(r.question, groups))
    requires GroupMessages(groups) == GroupMessages(r.groups) + [m]
    ensures AllValid(front + [r]) && AllValid(front + [Round(r.question, groups)])
    ensures Flatten(front + [Round(r.question, groups)]) == Flatten(front + [r]) + [m]
    ensures ShapeOfRounds(front + [Round(r.question, groups)]) == ShapeOfGroups(groups)
  {
    FlattenSnoc(front, r);
    FlattenSnoc(front, Round(r.question, groups));
    Regroup3(Flatten(front) + [User(r.question)], GroupMessages(r.groups), [m]);
  }

  lemma NewGroupIsValid(r: Round, content: string, calls: seq<CallId>)
    requires ValidRound(r) && !Next(ShapeOfGroups(r.groups), Assistant(content, calls)).Bad?
    ensures ValidRound(Round(r.question, r.groups + [Group(content, calls, [])]))
  {
    var groups := r.groups + [Group(content, calls, [])];
    forall i | 0 <= i < |groups| - 1 ensures Complete(groups[i]) {
      assert groups[i] == r.groups[i];
    }
  }

  lemma AddGroup(rs: seq<Round>, content: string, calls: seq<CallId>) returns (rounds: seq<Round>)
    requires AllValid(rs)
    requires !Next(ShapeOfRounds(rs), Assistant(content, calls)).Bad?
    ensures AllValid(rounds)
    ensures Flatten(rounds) == Flatten(rs) + [Assistant(content, calls)]
    ensures ShapeOfRounds(rounds) == Next(ShapeOfRounds(rs), Assistant(content, calls))
  {
    var front, r := rs[..|rs| - 1], rs[|rs| - 1];
    assert rs == front + [r];
    NewGroup(r.groups, content, calls);
    NewGroupIsValid(r, content, calls);
    var groups := r.groups + [Group(content, calls, [])];
    LongerRound(front, r, groups, Assistant(content, calls));
    rounds := front + [Round(r.question, groups)];
  }

  lemma AddAnswer(rs: seq<Round>, id: CallId, content: string) returns (rounds: seq<Round>)
    requires AllValid(rs)
    requires !Next(ShapeOfRounds(rs), Tool(id, content)).Bad?
    ensures AllValid(rounds)
    ensures Flatten(rounds) == Flatten(rs) + [Tool(id, content)]
    ensures ShapeOfRounds(rounds) == Next(ShapeOfRounds(rs), Tool(id, content))
  {
    var front, r := rs[..|rs| - 1], rs[|rs| - 1];
    assert rs == front + [r];
    var gs, g := r.groups[..|r.groups| - 1], r.groups[|r.groups| - 1];
    assert r.groups == gs + [g] && Fits(g) && AllFit(gs);
    NewAnswer(gs, g, id, content);
    var groups := gs + [g.(answers := g.answers + [content])];
    LongerRound(front, r, groups, Tool(id, content));
    rounds := front + [Round(r.question, groups)];
  }

  // ---------------------------------------------------------------- cutting at a user message

  /** The positions of the user messages, in order. */
  function UserIndexes(ms: seq<Message>): seq<nat> {
    if ms == [] then []
    else
      var n := |ms| - 1;
      UserIndexes(ms[..n]) + (if ms[n].User? then [n] else [])
  }

  lemma {:induction false} UserIndexesAre(ms: seq<Message>)
    ensures forall i :: 0 <= i < |UserIndexes(ms)| ==> UserIndexes(ms)[i] < |ms| && ms[UserIndexes(ms)[i]].User?
    ensures forall i, j :: 0 <= i < j < |UserIndexes(ms)| ==> UserIndexes(ms)[i] < UserIndexes(ms)[j]
    ensures forall p :: 0 <= p < |ms| && ms[p].User? ==> p in UserIndexes(ms)
  {
    if ms != [] {
      UserIndexesAre(ms[..|ms| - 1]);
    }
  }

  /** The suffix that starts at the i-th user message has exactly the rounds from it on. */
  lemma {:induction false} RoundsAfterCut(ms: seq<Message>, i: nat)
    requires i < |UserIndexes(ms)|
    ensures UserIndexes(ms)[i] < |ms|
    ensures |UserIndexes(ms[UserIndexes(ms)[i]..])| == |UserIndexes(ms)| - i
  {
    UserIndexesAre(ms);
    var n := |ms| - 1;
    var cut := UserIndexes(ms)[i];
    if cut == n {
      var u := UserIndexes(ms);
      assert u[|u| - 1] == n && u[i] == n;
      assert i == |u| - 1;
      assert ms[cut..] == [ms[n]] && ms[cut..][..0] == [];
      assert UserIndexes([]) == [];
    } else {
      RoundsAfterCut(ms[..n], i);
      assert ms[cut..][..n - cut] == ms[..n][cut..];
    }
  }
}
