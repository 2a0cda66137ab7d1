/** What every path through one run guarantees. */
module RunnerTheorems {
  import opened Text
  import opened ControlPlane
  import opened ZbErr
  import opened Outside
  import opened Processes
  import opened ComposeLifecycle
  import opened Runner

  // Calls to the daemon and to Compose ------------------------------------------

  datatype Group = Control | Compose | Other

  function GroupOf(e: Event): Group {
    if e.ClaimCall? || e.PublishCall? || e.ReleaseCall? then Control
    else if e.UpCall? || e.DownCall? then Compose
    else Other
  }

  /** The events of one group, in order. */
  function Only(t: seq<Event>, group: Group): seq<Event> {
    if t == [] then []
    else (if GroupOf(t[0]) == group then [t[0]] else []) + Only(t[1..], group)
  }

  lemma {:induction false} OnlyConcat(a: seq<Event>, b: seq<Event>, group: Group)
    ensures Only(a + b, group) == Only(a, group) + Only(b, group)
  {
    if a == [] {
      assert a + b == b;
    } else {
      var head := if GroupOf(a[0]) == group then [a[0]] else [];
      OnlyConcat(a[1..], b, group);
      assert (a + b)[0] == a[0] && (a + b)[1..] == a[1..] + b;
      Regroup(head, Only(a[1..], group), Only(b, group));
    }
  }

  lemma {:induction false} OnlyConcat4(a: seq<Event>, b: seq<Event>, c: seq<Event>, d: seq<Event>, group: Group)
    ensures Only(a + b + c + d, group) == Only(a, group) + Only(b, group) + Only(c, group) + Only(d, group)
  {
    OnlyConcat(a, b, group);
    OnlyConcat(a + b, c, group);
    OnlyConcat(a + b + c, d, group);
  }

  lemma {:induction false} OnlyNone(t: seq<Event>, group: Group)
    requires forall i :: 0 <= i < |t| ==> GroupOf(t[i]) != group
    ensures Only(t, group) == []
  {
    if t != [] { OnlyNone(t[1..], group); }
  }

  lemma OnlyOne(e: Event, group: Group)
    ensures Only([e], group) == if GroupOf(e) == group then [e] else []
  {}

  /** Processes take part in neither group. */
  lemma {:induction false} LocalGroups(names: seq<string>, local: Local, group: Group)
    requires LocalOk(names, local) && group != Other
    ensures local.NotStarted? ==> Only(LocalTrace(names, local), group) == []
    ensures local.Started? ==> Only(LocalTrace(names, local), group) == Only(ServingTrace(local.serving), group)
  {
    match local {
      case NotStarted(spawned, _, ends) =>
        OnlyNone(LocalTrace(names, local), group);
      case Started(serving, ends) =>
        OnlyNone(Spawns(names), group);
        OnlyNone(Terms(names), group);
        OnlyNone(ends, group);
        OnlyConcat4(Spawns(names), ServingTrace(serving), Terms(names), ends, group);
    }
  }

  lemma {:induction false} PublishedControl(foreground: seq<Event>, release: Option<Error>)
    requires Only(foreground, Control) == []
    ensures Only(ServingTrace(Published(foreground, release)), Control) == [PublishCall(None), ReleaseCall(release)]
  {
    OnlyOne(AllReady, Control);
    OnlyOne(PublishCall(None), Control);
    OnlyOne(ReleaseCall(release), Control);
    OnlyConcat4([AllReady], [PublishCall(None)], foreground, [ReleaseCall(release)], Control);
  }

  lemma {:induction false} UnpublishedControl(waited: seq<Event>, refusal: Option<Error>)
    requires Only(waited, Control) == []
    ensures Only(ServingTrace(Unpublished(waited, refusal)), Control)
      == if refusal.Some? then [PublishCall(refusal)] else []
  {
    var call := if refusal.Some? then [PublishCall(refusal)] else [];
    OnlyOne(PublishCall(refusal), Control);
    OnlyConcat(waited, call, Control);
  }

  lemma {:induction false} ServingGroups(names: seq<string>, serving: Serving)
    requires ServingOk(names, serving)
    ensures Only(ServingTrace(serving), Compose) == []
    ensures Only(ServingTrace(serving), Control) == match serving
      case Unpublished(_, refusal) => if refusal.Some? then [PublishCall(refusal)] else []
      case Published(_, release) => [PublishCall(None), ReleaseCall(release)]
  {
    OnlyNone(ServingTrace(serving), Compose);
    match serving {
      case Unpublished(waited, refusal) =>
        OnlyNone(waited, Control);
        UnpublishedControl(waited, refusal);
      case Published(foreground, release) =>
        OnlyNone(foreground, Control);
        PublishedControl(foreground, release);
    }
  }

  lemma {:induction false} StackGroups(names: seq<string>, composeEnabled: bool, stack: Stack, group: Group)
    requires StackOk(names, composeEnabled, stack) && group != Other
    ensures Only(StackTrace(names, stack), group) == match stack
      case Disabled(local) => Only(LocalTrace(names, local), group)
      case Failed(attempt) => if group == Compose then AttemptTrace(attempt) else []
      case Stopped(local, down) =>
        if group == Compose then [UpCall(None)] + Only(LocalTrace(names, local), group) + [DownCall(down)]
        else Only(LocalTrace(names, local), group)
  {
    match stack {
      case Disabled(_) =>
      case Failed(attempt) =>
        if attempt.RolledBack? {
          var up, down := UpCall(Some(attempt.up)), DownCall(attempt.down);
          OnlyOne(up, group);
          OnlyOne(down, group);
          OnlyConcat([up], [down], group);
          assert AttemptTrace(attempt) == [up] + [down];
        }
      case Stopped(local, down) =>
        var trace := LocalTrace(names, local);
        OnlyOne(UpCall(None), group);
        OnlyOne(DownCall(down), group);
        OnlyConcat([UpCall(None)], trace, group);
        OnlyConcat([UpCall(None)] + trace, [DownCall(down)], group);
    }
  }

  /** What the run publishes, if it gets so far. */
  function PublishCalls(stack: Stack): seq<Event> {
    match LocalOf(stack)
    case Some(Started(Unpublished(_, refusal), _)) => if refusal.Some? then [PublishCall(refusal)] else []
    case Some(Started(Published(_, _), _)) => [PublishCall(None)]
    case _ => []
  }

  /** The release of a published run. */
  function EarlyReleases(stack: Stack): seq<Event> {
    match LocalOf(stack)
    case Some(Started(Published(_, early), _)) => [ReleaseCall(early)]
    case _ => []
  }

  lemma {:induction false} StackControl(names: seq<string>, composeEnabled: bool, stack: Stack)
    requires StackOk(names, composeEnabled, stack)
    ensures Only(StackTrace(names, stack), Control)
      == PublishCalls(stack) + EarlyReleases(stack)
  {
    StackGroups(names, composeEnabled, stack, Control);
    if LocalOf(stack).Some? {
      var local := LocalOf(stack).value;
      LocalGroups(names, local, Control);
      if local.Started? { ServingGroups(names, local.serving); }
    }
  }

  lemma OneRelease(names: seq<string>, composeEnabled: bool, path: Path)
    requires PathOk(names, composeEnabled, path)
    ensures path.Claimed? ==>
      |PublishCalls(path.stack)| <= 1 && |EarlyReleases(path.stack) + EndingTrace(path.ending)| == 1
  {}

  lemma EndingIsControl(ending: Ending)
    ensures Only(EndingTrace(ending), Control) == EndingTrace(ending)
  {
    if ending.ReleasedLast? { OnlyOne(ReleaseCall(ending.release), Control); }
  }

  /**
   The daemon sees, on every path, one claim; and if it was accepted at most one
   publication and then exactly one release.
   */
  lemma {:induction false} ControlCallsOfARun(names: seq<string>, composeEnabled: bool, path: Path)
    requires PathOk(names, composeEnabled, path)
    ensures Only(PathTrace(names, path), Control) == match path
      case NotSetUp(_) => []
      case NotClaimed(refusal) => [ClaimCall(Failure(refusal))]
      case Claimed(receipt, stack, ending) =>
        [ClaimCall(Success(receipt))] + PublishCalls(stack) + (EarlyReleases(stack) + EndingTrace(ending))
    ensures path.Claimed? ==>
      |PublishCalls(path.stack)| <= 1 && |EarlyReleases(path.stack) + EndingTrace(path.ending)| == 1
  {
    OneRelease(names, composeEnabled, path);
    if path.NotClaimed? { OnlyOne(ClaimCall(Failure(path.refusal)), Control); }
    if path.Claimed? {
      var claim, stack, trace := ClaimCall(Success(path.receipt)), path.stack, StackTrace(names, path.stack);
      var last := EndingTrace(path.ending);
      StackControl(names, composeEnabled, stack);
      OnlyOne(claim, Control);
      EndingIsControl(path.ending);
      OnlyConcat([claim], trace, Control);
      OnlyConcat([claim] + trace, last, Control);
      RegroupFour([claim], PublishCalls(stack), EarlyReleases(stack), last);
    }
  }

  /** At most one Up, and then one Down. */
  ghost predicate UpThenDown(calls: seq<Event>, composeEnabled: bool) {
    calls == [] || (|calls| == 2 && calls[0].UpCall? && calls[1].DownCall? && composeEnabled)
  }

  lemma {:induction false} StackCompose(names: seq<string>, composeEnabled: bool, stack: Stack)
    requires StackOk(names, composeEnabled, stack)
    ensures UpThenDown(Only(StackTrace(names, stack), Compose), composeEnabled)
  {
    StackGroups(names, composeEnabled, stack, Compose);
    if LocalOf(stack).Some? {
      var local := LocalOf(stack).value;
      LocalGroups(names, local, Compose);
      if local.Started? { ServingGroups(names, local.serving); }
    }
  }

  /** Compose is brought up at most once, and every Up is followed by exactly one Down. */
  lemma {:induction false} ComposeCallsOfARun(names: seq<string>, composeEnabled: bool, path: Path)
    requires PathOk(names, composeEnabled, path)
    ensures UpThenDown(Only(PathTrace(names, path), Compose), composeEnabled)
  {
    if path.NotClaimed? { OnlyOne(ClaimCall(Failure(path.refusal)), Compose); }
    if path.Claimed? {
      var claim := ClaimCall(Success(path.receipt));
      var trace := StackTrace(names, path.stack);
      var last := EndingTrace(path.ending);
      StackCompose(names, composeEnabled, path.stack);
      OnlyOne(claim, Compose);
      OnlyNone(last, Compose);
      OnlyConcat([claim], trace, Compose);
      OnlyConcat([claim] + trace, last, Compose);
      assert [] + Only(trace, Compose) + [] == Only(trace, Compose);
    }
  }

  // The order of cleanup --------------------------------------------------------

  /** The place of a cleanup event; 0 for everything else. */
  function CleanupRank(published: bool, e: Event): nat {
    if e.ReleaseCall? then (if published then 1 else 4)
    else if e.Term? || e.Kill? then 2
    else if e.DownCall? then 3
    else 0
  }

  ghost predicate InOrder(t: seq<Event>, published: bool) {
    forall i, j :: 0 <= i < j < |t| && CleanupRank(published, t[j]) > 0 ==>
      CleanupRank(published, t[i]) <= CleanupRank(published, t[j])
  }

  ghost predicate UpTo(t: seq<Event>, published: bool, m: nat) {
    forall i :: 0 <= i < |t| ==> CleanupRank(published, t[i]) <= m
  }

  ghost predicate From(t: seq<Event>, published: bool, m: nat) {
    forall i :: 0 <= i < |t| ==> CleanupRank(published, t[i]) == 0 || CleanupRank(published, t[i]) >= m
  }

  lemma {:induction false} InOrderConcat(a: seq<Event>, m: nat, b: seq<Event>, n: nat, published: bool)
    requires InOrder(a, published) && UpTo(a, published, m)
    requires InOrder(b, published) && UpTo(b, published, n) && From(b, published, m) && m <= n
    ensures InOrder(a + b, published) && UpTo(a + b, published, n)
  {}

  lemma {:induction false} ServingInOrder(names: seq<string>, serving: Serving)
    requires ServingOk(names, serving)
    ensures InOrder(ServingTrace(serving), serving.Published?)
    ensures UpTo(ServingTrace(serving), serving.Published?, if serving.Published? then 1 else 0)
  {
    if serving.Published? {
      var begin := [AllReady] + [PublishCall(None)] + serving.foreground;
      InOrderConcat(begin, 0, [ReleaseCall(serving.release)], 1, true);
    }
  }

  /** Terminating processes, after events of rank at most 2. */
  lemma {:induction false} TerminationInOrder(begin: seq<Event>, m: nat, names: seq<string>, taken: set<string>,
      ends: seq<Event>, published: bool)
    requires InOrder(begin, published) && UpTo(begin, published, m) && m <= 2 && Ends(names, taken, ends)
    ensures InOrder(begin + Terms(names) + ends, published) && UpTo(begin + Terms(names) + ends, published, 2)
  {}

  lemma {:induction false} StartedInOrder(names: seq<string>, serving: Serving, ends: seq<Event>)
    requires ServingOk(names, serving) && Ends(names, TakenBy(serving), ends)
    ensures var t := LocalTrace(names, Started(serving, ends));
      InOrder(t, serving.Published?) && UpTo(t, serving.Published?, 2)
  {
    var m := if serving.Published? then 1 else 0;
    ServingInOrder(names, serving);
    InOrderConcat(Spawns(names), 0, ServingTrace(serving), m, serving.Published?);
    TerminationInOrder(Spawns(names) + ServingTrace(serving), m, names, TakenBy(serving), ends, serving.Published?);
  }

  lemma {:induction false} LocalInOrder(names: seq<string>, local: Local, published: bool)
    requires LocalOk(names, local) && (published <==> local.Started? && local.serving.Published?)
    ensures InOrder(LocalTrace(names, local), published) && UpTo(LocalTrace(names, local), published, 2)
  {
    match local {
      case NotStarted(spawned, cause, ends) =>
        var begin := Spawns(names[..spawned]) + [SpawnFailed(names[spawned], cause)];
        TerminationInOrder(begin, 0, names[..spawned], {}, ends, published);
      case Started(serving, ends) => StartedInOrder(names, serving, ends);
    }
  }

  lemma {:induction false} UpDownInOrder(inner: seq<Event>, down: Option<Error>, published: bool)
    requires InOrder(inner, published) && UpTo(inner, published, 2)
    ensures InOrder([UpCall(None)] + inner + [DownCall(down)], published)
    ensures UpTo([UpCall(None)] + inner + [DownCall(down)], published, 3)
  {}

  lemma {:induction false} StackInOrder(names: seq<string>, composeEnabled: bool, stack: Stack)
    requires StackOk(names, composeEnabled, stack)
    ensures InOrder(StackTrace(names, stack), IsPublished(stack))
      && UpTo(StackTrace(names, stack), IsPublished(stack), 3)
  {
    match stack {
      case Disabled(local) => LocalInOrder(names, local, IsPublished(stack));
      case Failed(attempt) =>
      case Stopped(local, down) =>
        LocalInOrder(names, local, IsPublished(stack));
        UpDownInOrder(LocalTrace(names, local), down, IsPublished(stack));
    }
  }

  /**
   Cleanup order: a published run releases, then ends its processes, then stops compose;
   any other run ends its processes, stops compose and releases, in this order.
   */
  lemma {:induction false} CleanupOrder(names: seq<string>, composeEnabled: bool, path: Path)
    requires PathOk(names, composeEnabled, path) && path.Claimed?
    ensures InOrder(PathTrace(names, path), IsPublished(path.stack))
  {
    var published, trace := IsPublished(path.stack), StackTrace(names, path.stack);
    var last := EndingTrace(path.ending);
    StackInOrder(names, composeEnabled, path.stack);
    var claim := ClaimCall(Success(path.receipt));
    InOrderConcat([claim], 0, trace, 3, published);
    InOrderConcat([claim] + trace, 3, last, 4, published);
  }

  // Publication -----------------------------------------------------------------

  /** Everything that happens before a publication. */
  function BeforePublication(names: seq<string>, composeEnabled: bool, receipt: ClaimReceipt): seq<Event> {
    [ClaimCall(Success(receipt))] + ((if composeEnabled then [UpCall(None)] else []) + (Spawns(names) + [AllReady]))
  }

  lemma {:induction false} PublicationAt(t: seq<Event>, before: seq<Event>, answer: Option<Error>, rest: seq<Event>)
    requires t == before + [PublishCall(answer)] + rest
    requires forall i :: 0 <= i < |before| ==> !before[i].PublishCall?
    requires forall i :: 0 <= i < |rest| ==> !rest[i].PublishCall?
    ensures forall i :: 0 <= i < |t| && t[i].PublishCall? ==> t[..i] == before
  {}

  lemma {:induction false} ServingPublication(names: seq<string>, serving: Serving)
      returns (answer: Option<Error>, rest: seq<Event>)
    requires ServingOk(names, serving) && (serving.Published? || serving.refusal.Some?)
    ensures ServingTrace(serving) == [AllReady] + [PublishCall(answer)] + rest
    ensures forall i :: 0 <= i < |rest| ==> !rest[i].PublishCall?
  {
    match serving {
      case Unpublished(waited, refusal) => answer, rest := refusal, [];
      case Published(foreground, release) => answer, rest := None, foreground + [ReleaseCall(release)];
    }
  }

  lemma Wrap(pre: seq<Event>, a: seq<Event>, x: Event, b: seq<Event>, post: seq<Event>)
    ensures pre + (a + [x] + b) + post == (pre + a) + [x] + (b + post)
  {}

  lemma {:induction false} LocalPublication(names: seq<string>, local: Local)
      returns (answer: Option<Error>, rest: seq<Event>)
    requires LocalOk(names, local) && local.Started? && (local.serving.Published? || local.serving.refusal.Some?)
    ensures LocalTrace(names, local) == (Spawns(names) + [AllReady]) + [PublishCall(answer)] + rest
    ensures forall i :: 0 <= i < |rest| ==> !rest[i].PublishCall?
  {
    var inner;
    answer, inner := ServingPublication(names, local.serving);
    var post := Terms(names) + local.ends;
    Wrap(Spawns(names), [AllReady], PublishCall(answer), inner, post);
    Regroup(Spawns(names) + ServingTrace(local.serving), Terms(names), local.ends);
    rest := inner + post;
  }

  lemma {:induction false} StackPublication(names: seq<string>, composeEnabled: bool, stack: Stack)
    returns (answer: Option<Error>, before: seq<Event>, rest: seq<Event>)
    requires StackOk(names, composeEnabled, stack) && PublishCalls(stack) != []
    ensures StackTrace(names, stack) == before + [PublishCall(answer)] + rest
    ensures before == (if composeEnabled then [UpCall(None)] else []) + (Spawns(names) + [AllReady])
    ensures forall i :: 0 <= i < |rest| ==> !rest[i].PublishCall?
  {
    var inner;
    answer, inner := LocalPublication(names, LocalOf(stack).value);
    before := (if composeEnabled then [UpCall(None)] else []) + (Spawns(names) + [AllReady]);
    match stack {
      case Disabled(_) => rest := inner;
      case Stopped(_, down) =>
        Wrap([UpCall(None)], Spawns(names) + [AllReady], PublishCall(answer), inner, [DownCall(down)]);
        rest := inner + [DownCall(down)];
    }
  }

  lemma {:induction false} PathPublication(names: seq<string>, composeEnabled: bool, receipt: ClaimReceipt,
      stack: Stack, last: seq<Event>)
    returns (answer: Option<Error>, rest: seq<Event>)
    requires StackOk(names, composeEnabled, stack) && PublishCalls(stack) != []
    requires forall i :: 0 <= i < |last| ==> !last[i].PublishCall?
    ensures [ClaimCall(Success(receipt))] + StackTrace(names, stack) + last
         == BeforePublication(names, composeEnabled, receipt) + [PublishCall(answer)] + rest
    ensures forall i :: 0 <= i < |rest| ==> !rest[i].PublishCall?
  {
    var before, inner;
    answer, before, inner := StackPublication(names, composeEnabled, stack);
    Wrap([ClaimCall(Success(receipt))], before, PublishCall(answer), inner, last);
    rest := inner + last;
  }

  lemma NoneBefore(names: seq<string>, composeEnabled: bool, receipt: ClaimReceipt)
    ensures var before := BeforePublication(names, composeEnabled, receipt);
      forall i :: 0 <= i < |before| ==> !before[i].PublishCall?
  {}

  /**
   A publication comes after exactly this: the accepted claim, the started compose stack
   if there is one, every process spawned, and all of them ready.
   */
  lemma {:induction false} PublicationIsEarned(names: seq<string>, composeEnabled: bool, path: Path)
    requires PathOk(names, composeEnabled, path)
    ensures var t := PathTrace(names, path);
      forall i :: 0 <= i < |t| && t[i].PublishCall? ==>
        path.Claimed? && t[..i] == BeforePublication(names, composeEnabled, path.receipt)
  {
    if path.Claimed? && PublishCalls(path.stack) != [] {
      var last := EndingTrace(path.ending);
      var answer, rest := PathPublication(names, composeEnabled, path.receipt, path.stack, last);
      NoneBefore(names, composeEnabled, path.receipt);
      PublicationAt(PathTrace(names, path), BeforePublication(names, composeEnabled, path.receipt), answer, rest);
    } else {
      NoPublication(names, composeEnabled, path);
    }
  }

  lemma {:induction false} OnlyContains(t: seq<Event>, i: nat)
    requires i < |t|
    ensures t[i] in Only(t, GroupOf(t[i]))
  {
    if i > 0 {
      OnlyContains(t[1..], i - 1);
    }
  }

  lemma {:induction false} NoPublication(names: seq<string>, composeEnabled: bool, path: Path)
    requires PathOk(names, composeEnabled, path)
    requires path.Claimed? ==> PublishCalls(path.stack) == []
    ensures forall i :: 0 <= i < |PathTrace(names, path)| ==> !PathTrace(names, path)[i].PublishCall?
  {
    var t := PathTrace(names, path);
    ControlCallsOfARun(names, composeEnabled, path);
    forall i | 0 <= i < |t| ensures !t[i].PublishCall? {
      OnlyContains(t, i);
    }
  }

  // Processes -------------------------------------------------------------------

  function NameOf(e: Event): Option<string> {
    match e
    case Spawn(name) => Some(name)
    case SpawnFailed(name, _) => Some(name)
    case Received(name, _) => Some(name)
    case Term(name) => Some(name)
    case Kill(name) => Some(name)
    case _ => None
  }

  /** The history of one process. */
  function History(t: seq<Event>, name: string): seq<Event> {
    if t == [] then []
    else (if NameOf(t[0]) == Some(name) then [t[0]] else []) + History(t[1..], name)
  }

  lemma {:induction false} HistoryConcat(a: seq<Event>, b: seq<Event>, name: string)
    ensures History(a + b, name) == History(a, name) + History(b, name)
  {
    if a == [] {
      assert a + b == b;
    } else {
      var head := if NameOf(a[0]) == Some(name) then [a[0]] else [];
      HistoryConcat(a[1..], b, name);
      assert (a + b)[0] == a[0] && (a + b)[1..] == a[1..] + b;
      Regroup(head, History(a[1..], name), History(b, name));
    }
  }

  lemma {:induction false} HistoryConcat4(a: seq<Event>, b: seq<Event>, c: seq<Event>, d: seq<Event>, name: string)
    ensures History(a + b + c + d, name) == History(a, name) + History(b, name) + History(c, name) + History(d, name)
  {
    HistoryConcat(a, b, name);
    HistoryConcat(a + b, c, name);
    HistoryConcat(a + b + c, d, name);
  }

  lemma {:induction false} HistoryNone(t: seq<Event>, name: string)
    requires forall i :: 0 <= i < |t| ==> NameOf(t[i]) != Some(name)
    ensures History(t, name) == []
  {
    if t != [] { HistoryNone(t[1..], name); }
  }

  /** One event per process, in their order: the history of a process is its own event. */
  lemma {:induction false} HistoryOfRow(names: seq<string>, row: seq<Event>, k: nat)
    requires Distinct(names) && |row| == |names| && k < |names|
    requires forall i :: 0 <= i < |names| ==> NameOf(row[i]) == Some(names[i])
    ensures History(row, names[k]) == [row[k]]
  {
    assert row == row[..k] + ([row[k]] + row[k + 1..]);
    HistoryConcat(row[..k], [row[k]] + row[k + 1..], names[k]);
    HistoryConcat([row[k]], row[k + 1..], names[k]);
    HistoryNone(row[..k], names[k]);
    HistoryNone(row[k + 1..], names[k]);
    assert [row[k]][1..] == [];
  }

  /** The five things that can happen to a process. */
  ghost predicate ProperHistory(h: seq<Event>, name: string) {
    || h == []
    || (|h| == 1 && h[0].SpawnFailed?)
    || (|h| == 3 && h == [Spawn(name), Term(name), h[2]] && (IsReceived(h[2], name) || h[2] == Kill(name)))
    || (|h| == 4 && h == [Spawn(name), h[1], Term(name), Kill(name)] && IsReceived(h[1], name))
  }

  /** What a wait took, as part of the history of `name`. */
  lemma {:induction false} WaitedHistory(names: seq<string>, seen: seq<Event>, name: string)
    requires seen == [AllReady] || WaitedOk(names, seen)
    ensures var h := History(seen, name);
      if name in Taken(seen) then |h| == 1 && IsReceived(h[0], name) else h == []
  {
    if |seen| == 1 { HistoryOfOne(seen[0], name); assert seen == [seen[0]]; }
  }

  lemma {:induction false} ServingHistory(names: seq<string>, serving: Serving, name: string)
    requires ServingOk(names, serving)
    ensures var h := History(ServingTrace(serving), name);
      if name in TakenBy(serving) then |h| == 1 && IsReceived(h[0], name) else h == []
  {
    var seen := match serving case Unpublished(waited, _) => waited case Published(foreground, _) => foreground;
    var before := if serving.Published? then [AllReady] + [PublishCall(None)] else [];
    var after := match serving
      case Unpublished(_, refusal) => if refusal.Some? then [PublishCall(refusal)] else []
      case Published(_, release) => [ReleaseCall(release)];
    assert ServingTrace(serving) == before + (seen + after);
    HistoryConcat(before, seen + after, name);
    HistoryConcat(seen, after, name);
    HistoryNone(before, name);
    HistoryNone(after, name);
    WaitedHistory(names, seen, name);
  }

  /** The history of a process that was spawned: `seen` before its SIGTERM, and its end. */
  lemma Joined(name: string, seen: seq<Event>, ends: seq<Event>)
    requires |ends| == 1 && |seen| <= 1
    requires seen == [] ==> ends[0] == Kill(name) || IsReceived(ends[0], name)
    requires seen != [] ==> IsReceived(seen[0], name) && ends[0] == Kill(name)
    ensures var h := [Spawn(name)] + seen + [Term(name)] + ends;
      ProperHistory(h, name) && |h| == 3 + |seen|
  {
    assert [Spawn(name)] + seen + [Term(name)] + ends
        == if seen == [] then [Spawn(name), Term(name), ends[0]] else [Spawn(name), seen[0], Term(name), ends[0]];
  }

  lemma {:induction false} NotStartedHistory(names: seq<string>, spawned: nat, cause: Error, ends: seq<Event>,
      name: string)
    requires spawned < |names| && Ends(names[..spawned], {}, ends) && Distinct(names)
    ensures var h := History(LocalTrace(names, NotStarted(spawned, cause, ends)), name);
      ProperHistory(h, name) && |h| <= 3
  {
    var started, last := names[..spawned], names[spawned];
    HistoryConcat4(Spawns(started), [SpawnFailed(last, cause)], Terms(started), ends, name);
    RowsHistory(started, ends, name);
    HistoryOfOne(SpawnFailed(last, cause), name);
    assert last !in started;
    if name in started {
      Joined(name, [], History(ends, name));
    }
  }

  lemma HistoryOfOne(e: Event, name: string)
    ensures History([e], name) == if NameOf(e) == Some(name) then [e] else []
  {}

  lemma {:induction false} StartedHistory(names: seq<string>, serving: Serving, ends: seq<Event>, name: string)
    requires ServingOk(names, serving) && Ends(names, TakenBy(serving), ends) && Distinct(names)
    ensures var h := History(LocalTrace(names, Started(serving, ends)), name);
      ProperHistory(h, name) && (|h| == 4 ==> name in TakenBy(serving))
  {
    HistoryConcat4(Spawns(names), ServingTrace(serving), Terms(names), ends, name);
    RowsHistory(names, ends, name);
    ServingHistory(names, serving, name);
    if name in TakenBy(serving) {
      TakenIsNotTakenAgain(names, TakenBy(serving), ends, name);
    }
    if name in names {
      Joined(name, History(ServingTrace(serving), name), History(ends, name));
    }
  }

  lemma {:induction false} TakenIsNotTakenAgain(names: seq<string>, taken: set<string>, ends: seq<Event>, name: string)
    requires Ends(names, taken, ends) && Distinct(names) && name in names && name in taken
    ensures History(ends, name) == [Kill(name)]
  {
    var k :| 0 <= k < |names| && names[k] == name;
    HistoryOfRow(names, ends, k);
  }

  lemma {:induction false} LocalHistory(names: seq<string>, local: Local, name: string)
    requires LocalOk(names, local) && Distinct(names)
    ensures var h := History(LocalTrace(names, local), name);
      ProperHistory(h, name) && (|h| == 4 ==> local.Started? && name in TakenBy(local.serving))
  {
    match local {
      case NotStarted(spawned, cause, ends) => NotStartedHistory(names, spawned, cause, ends, name);
      case Started(serving, ends) => StartedHistory(names, serving, ends, name);
    }
  }

  lemma {:induction false} RowsHistory(names: seq<string>, ends: seq<Event>, name: string)
    requires Distinct(names) && |ends| == |names|
    requires forall i :: 0 <= i < |names| ==> ends[i] == Kill(names[i]) || IsReceived(ends[i], names[i])
    ensures name in names ==>
      && History(Spawns(names), name) == [Spawn(name)] && History(Terms(names), name) == [Term(name)]
      && |History(ends, name)| == 1
      && (History(ends, name)[0] == Kill(name) || IsReceived(History(ends, name)[0], name))
    ensures name !in names ==>
      History(Spawns(names), name) == [] && History(Terms(names), name) == [] && History(ends, name) == []
  {
    if name in names {
      var k :| 0 <= k < |names| && names[k] == name;
      HistoryOfRow(names, Spawns(names), k);
      HistoryOfRow(names, Terms(names), k);
      HistoryOfRow(names, ends, k);
    } else {
      HistoryNone(Spawns(names), name);
      HistoryNone(Terms(names), name);
      HistoryNone(ends, name);
    }
  }

  lemma {:induction false} HistoryBetween(first: Event, t: seq<Event>, last: seq<Event>, name: string)
    requires NameOf(first).None? && forall i :: 0 <= i < |last| ==> NameOf(last[i]).None?
    ensures History([first] + t + last, name) == History(t, name)
  {
    HistoryConcat([first], t, name);
    HistoryConcat([first] + t, last, name);
    HistoryNone([first], name);
    HistoryNone(last, name);
  }

  lemma {:induction false} StackHistory(names: seq<string>, stack: Stack, name: string)
    ensures History(StackTrace(names, stack), name) ==
      match LocalOf(stack) case None => [] case Some(local) => History(LocalTrace(names, local), name)
  {
    match stack {
      case Disabled(_) =>
      case Failed(attempt) => HistoryNone(StackTrace(names, stack), name);
      case Stopped(local, down) =>
        HistoryBetween(UpCall(None), LocalTrace(names, local), [DownCall(down)], name);
    }
  }

  lemma {:induction false} PathHistory(names: seq<string>, path: Path, name: string)
    ensures History(PathTrace(names, path), name) ==
      if path.Claimed? && LocalOf(path.stack).Some? then
        History(LocalTrace(names, LocalOf(path.stack).value), name)
      else []
  {
    match path {
      case NotSetUp(_) =>
      case NotClaimed(refusal) => HistoryNone([ClaimCall(Failure(refusal))], name);
      case Claimed(receipt, stack, ending) =>
        StackHistory(names, stack, name);
        HistoryBetween(ClaimCall(Success(receipt)), StackTrace(names, stack), EndingTrace(ending), name);
    }
  }

  /**
   Process accounting, also after a start that failed half way: a process that was spawned
   gets exactly one SIGTERM, after which its exit is received or it is killed, never more
   than one exit is received. Only a process with all four events had its exit received
   before the SIGTERM, and there is at most one of those.
   */
  lemma {:induction false} EveryProcessIsAccountedFor(names: seq<string>, composeEnabled: bool, path: Path,
      name: string, other: string)
    requires PathOk(names, composeEnabled, path) && Distinct(names)
    ensures var t := PathTrace(names, path);
      && ProperHistory(History(t, name), name)
      && ProperHistory(History(t, other), other)
      && (|History(t, name)| == 4 && |History(t, other)| == 4 ==> name == other)
  {
    PathHistory(names, path, name);
    PathHistory(names, path, other);
    if path.Claimed? && LocalOf(path.stack).Some? {
      LocalHistory(names, LocalOf(path.stack).value, name);
      LocalHistory(names, LocalOf(path.stack).value, other);
    }
  }

  // Errors ----------------------------------------------------------------------

  /** A run returns nil exactly when its body did and every cleanup that ran succeeded. */
  lemma {:induction false} NilExactlyWhenAllSucceeded(primary: Option<Error>, cleanups: seq<Option<Error>>)
    ensures FinalError(primary, cleanups).None? <==>
      primary.None? && forall i :: 0 <= i < |cleanups| ==> cleanups[i].None?
    decreases |cleanups|
  {
    if cleanups != [] {
      NilExactlyWhenAllSucceeded(WithCleanup(primary, cleanups[0]), cleanups[1..]);
      assert cleanups == [cleanups[0]] + cleanups[1..];
    }
  }

  /** A failed cleanup after an error keeps both texts. */
  lemma {:induction false} BothTextsOccur(primary: Error, failure: Error)
    ensures var r := WithCleanup(Some(primary), Some(failure)).value;
      Occurs(Message(primary), Message(r)) && Occurs(Message(failure), Message(r))
  {
    var f, p := Message(failure), Message(primary);
    var cause := Wrapped(f + "; primary error: " + p, failure);
    var r := New(STACK_ORCHESTRATOR, "CleanupFailed", Some(cause));
    CauseTextOccurs(STACK_ORCHESTRATOR, "CleanupFailed", cause);
    assert Message(cause) == "" + f + ("; primary error: " + p);
    OccursIn("", f, "; primary error: " + p);
    OccursTransitive(f, Message(cause), Message(r));
    assert Message(cause) == (f + "; primary error: ") + p + "";
    OccursIn(f + "; primary error: ", p, "");
    OccursTransitive(p, Message(cause), Message(r));
  }

  /** The text of a failed cleanup, after an error and without one. */
  lemma {:induction false} CleanupTextExactly(err: Option<Error>, failure: Error)
    ensures Message(WithCleanup(err, Some(failure)).value)
      == "stack_orchestrator" + ":" + "CleanupFailed" + ": "
         + (if err.None? then Message(failure) else Message(failure) + "; primary error: " + Message(err.value))
  {
    var head := "stack_orchestrator" + ":" + "CleanupFailed";
    assert head + "" + "" == head;
    var text := if err.None? then Message(failure) else Message(failure) + "; primary error: " + Message(err.value);
    Regroup(head, ": ", text);
  }

  lemma {:induction false} CleanupKeepsTexts(err: Option<Error>, cleanup: Option<Error>)
    ensures var r := WithCleanup(err, cleanup);
      && (err.Some? ==> r.Some? && Occurs(Message(err.value), Message(r.value)))
      && (cleanup.Some? ==> r.Some? && Occurs(Message(cleanup.value), Message(r.value)))
  {
    match cleanup {
      case None =>
        if err.Some? {
          assert Message(err.value) == "" + Message(err.value) + "";
          OccursIn("", Message(err.value), "");
        }
      case Some(failure) =>
        match err {
          case None => CauseTextOccurs(STACK_ORCHESTRATOR, "CleanupFailed", failure);
          case Some(primary) => BothTextsOccur(primary, failure);
        }
    }
  }

  /** The text of the body's error and of each failed cleanup appears in the result. */
  lemma {:induction false} NoErrorTextIsLost(primary: Option<Error>, cleanups: seq<Option<Error>>)
    ensures primary.Some? ==>
      FinalError(primary, cleanups).Some?
        && Occurs(Message(primary.value), Message(FinalError(primary, cleanups).value))
    ensures forall i :: 0 <= i < |cleanups| && cleanups[i].Some? ==>
      FinalError(primary, cleanups).Some?
        && Occurs(Message(cleanups[i].value), Message(FinalError(primary, cleanups).value))
    decreases |cleanups|
  {
    CleanupKeepsTexts(primary, None);
    if cleanups != [] {
      var next, rest := WithCleanup(primary, cleanups[0]), cleanups[1..];
      CleanupKeepsTexts(primary, cleanups[0]);
      NoErrorTextIsLost(next, rest);
      var result := FinalError(next, rest);
      if primary.Some? {
        OccursTransitive(Message(primary.value), Message(next.value), Message(result.value));
      }
      forall i | 0 <= i < |cleanups| && cleanups[i].Some?
        ensures result.Some? && Occurs(Message(cleanups[i].value), Message(result.value))
      {
        if i == 0 {
          OccursTransitive(Message(cleanups[0].value), Message(next.value), Message(result.value));
        } else {
          assert cleanups[i] == rest[i - 1];
        }
      }
    }
  }

  /**
   Which layer and code can be found in the result of a cleanup: without a failure those of
   the error so far; with one only the failure's own. The primary error survives as text.
   */
  lemma {:induction false} CleanupIdentity(err: Option<Error>, cleanup: Option<Error>, layer: string, code: string)
    ensures cleanup.None? ==> WithCleanup(err, cleanup) == err
    ensures cleanup.Some? ==>
      (Carries(WithCleanup(err, cleanup).value, layer, code) <==>
        (layer == STACK_ORCHESTRATOR && code == "CleanupFailed") || Carries(cleanup.value, layer, code))
  {
    if cleanup.Some? {
      var result := WithCleanup(err, cleanup).value;
      var cause := result.cause.value;
      WrappingKeeps(result, cause, layer, code);
      if err.Some? {
        WrappingKeeps(cause, cleanup.value, layer, code);
      }
    }
  }

  /** With no failing cleanup the result still carries whatever the body's error carries. */
  lemma {:induction false} IdentityWithoutCleanupFailure(primary: Option<Error>, cleanups: seq<Option<Error>>)
    requires forall i :: 0 <= i < |cleanups| ==> cleanups[i].None?
    ensures FinalError(primary, cleanups) == primary
    decreases |cleanups|
  {
    if cleanups != [] {
      IdentityWithoutCleanupFailure(primary, cleanups[1..]);
    }
  }

  /** The error with which the daemon refused the run's claim or its publication. */
  function RefusalOf(path: Path): Option<Error> {
    match path
    case NotSetUp(_) => None
    case NotClaimed(refusal) => Some(refusal)
    case Claimed(_, stack, _) =>
      match LocalOf(stack)
      case Some(Started(Unpublished(_, refusal), _)) => refusal
      case _ => None
  }

  /**
   What the daemon answered to a refused claim or publication is found in the run's error,
   under the run's own code, when no cleanup fails.
   */
  lemma {:induction false} RefusalsAreFound(path: Path, primary: Option<Error>, layer: string, code: string)
    requires PathError(path, primary) && RefusalOf(path).Some? && Carries(RefusalOf(path).value, layer, code)
    requires forall i :: 0 <= i < |Cleanups(path)| ==> Cleanups(path)[i].None?
    ensures var err := FinalError(primary, Cleanups(path));
      && err.Some? && Carries(err.value, layer, code)
      && Carries(err.value, STACK_ORCHESTRATOR, if path.NotClaimed? then "ClaimRejected" else "GenerationCommitFailed")
  {
    IdentityWithoutCleanupFailure(primary, Cleanups(path));
    var refusal, own := RefusalOf(path).value, if path.NotClaimed? then "ClaimRejected" else "GenerationCommitFailed";
    assert primary == Some(New(STACK_ORCHESTRATOR, own, Some(refusal)));
    WrappingKeeps(primary.value, refusal, layer, code);
    WrappingKeeps(primary.value, refusal, STACK_ORCHESTRATOR, own);
  }

  /** An error of the compose backend is found in the run's error in the same way. */
  lemma {:induction false} ComposeErrorsAreFound(path: Path, primary: Option<Error>, layer: string, code: string)
    requires PathError(path, primary) && path.Claimed? && path.stack.Failed?
    requires AttemptError(path.stack.attempt).Some? && Carries(AttemptError(path.stack.attempt).value, layer, code)
    requires path.ending == ReleasedLast(None)
    ensures var err := FinalError(primary, Cleanups(path)); err.Some? && Carries(err.value, layer, code)
  {
    IdentityWithoutCleanupFailure(primary, Cleanups(path));
    WrappingKeeps(primary.value, AttemptError(path.stack.attempt).value, layer, code);
  }

  // Which code a run ends with ----------------------------------------------------

  /** The end of a chain carries only what it is itself. */
  lemma {:induction false} LastLinkCarries(err: Error, layer: string, code: string)
    requires Unwrap(err).None?
    ensures Carries(err, layer, code) <==> err.Zb? && err.layer == layer && err.code == code
  {
    assert Chain(err) == [err];
  }

  /**
   A run whose compose stack did not start and whose release succeeded. After a failed Up
   it ends with DependencyStartFailed, and the texts of Up and of the rollback are there.
   Otherwise what loading the project answered decides: an invalid model or an isolation
   verdict gives PreflightRejected, a lifecycle failure DependencyStartFailed, and anything
   else a critical error whose origin chain begins with its own layer.
   */
  lemma {:induction false} ComposeFailureDecidesTheCode(path: Path, primary: Option<Error>)
    requires PathError(path, primary) && path.Claimed? && path.stack.Failed?
    requires path.ending == ReleasedLast(None)
    ensures match path.stack.attempt
      case Running => false
      case RolledBack(up, down) =>
        FinalError(primary, Cleanups(path))
        == Some(Zb("stack_orchestrator", "DependencyStartFailed", "", "",
                   Some(Zb("compose_backend", "LifecycleFailed", "", "",
                           Some(Plain(if down.None? then Message(up)
                                      else Message(up) + "; rollback failed: " + Message(down.value))), [])), []))
      case NotLoaded(error) =>
        FinalError(primary, Cleanups(path)) == Some(
          if Carries(error, "compose_backend", "ModelInvalid")
             || Carries(error, "compose_backend", "IsolationRejected") then
            Zb("stack_orchestrator", "PreflightRejected", "", "", Some(error), [])
          else if Carries(error, "compose_backend", "LifecycleFailed") then
            Zb("stack_orchestrator", "DependencyStartFailed", "", "", Some(error), [])
          else
            Zb("stack_orchestrator", "Critical", "", "", Some(error),
               ["stack_orchestrator"]
               + (match FirstZb(error) case None => [] case Some(inner) => inner.origin)))
  {
    IdentityWithoutCleanupFailure(primary, Cleanups(path));
    match path.stack.attempt {
      case Running =>
      case NotLoaded(_) =>
      case RolledBack(_, _) =>
        var error := AttemptError(path.stack.attempt).value;
        var cause := error.cause.value;
        forall code ensures Carries(error, "compose_backend", code) <==> code == "LifecycleFailed" {
          WrappingKeeps(error, cause, "compose_backend", code);
          LastLinkCarries(cause, "compose_backend", code);
        }
    }
  }

  /**
   A run that got as far as its processes, with cleanups that succeed: a process that could
   not be started and one that exited in the foreground give DependencyStartFailed, one
   that exited before all were ready, or the timeout, gives ReadinessFailed, a refused
   publication GenerationCommitFailed, in each case around the error that was met.
   */
  lemma {:induction false} LocalFailureDecidesTheCode(path: Path, primary: Option<Error>, local: Local)
    requires PathError(path, primary) && path.Claimed? && LocalOf(path.stack) == Some(local) && primary.Some?
    requires forall i :: 0 <= i < |Cleanups(path)| ==> Cleanups(path)[i].None?
    ensures FinalError(primary, Cleanups(path)) == Some(
      match local
      case NotStarted(_, cause, _) => Zb("stack_orchestrator", "DependencyStartFailed", "", "", Some(cause), [])
      case Started(Unpublished(_, Some(refusal)), _) =>
        Zb("stack_orchestrator", "GenerationCommitFailed", "", "", Some(refusal), [])
      case Started(Unpublished(waited, None), _) =>
        Zb("stack_orchestrator", "ReadinessFailed", "", "",
           Some(if |waited| == 1 && waited[0].Received? then
                  (match waited[0].exit
                   case Some(error) => error
                   case None => Plain("process " + waited[0].name + " exited before readiness"))
                else Plain("readiness timeout")), [])
      case Started(Published(foreground, _), _) =>
        Zb("stack_orchestrator", "DependencyStartFailed", "", "",
           Some(if |foreground| == 1 && foreground[0].Received? then
                  (match foreground[0].exit
                   case Some(error) => error
                   case None =>
                     Plain("process " + foreground[0].name + " exited while zerobased up was foreground"))
                else Canceled), []))
  {
    IdentityWithoutCleanupFailure(primary, Cleanups(path));
  }

  /** A process that itself reports cancellation ends the foreground without an error. */
  lemma {:induction false} CancelledExitIsNoError(path: Path, primary: Option<Error>, local: Local, error: Error)
    requires PathError(path, primary) && path.Claimed? && LocalOf(path.stack) == Some(local)
    requires local.Started? && local.serving.Published? && |local.serving.foreground| == 1
    requires local.serving.foreground[0].Received? && local.serving.foreground[0].exit == Some(error)
    requires Canceled in Chain(error)
    ensures primary.None?
  {}

  /** A run whose claim was refused ends with ClaimRejected around the refusal. */
  lemma {:induction false} RefusedClaimDecidesTheCode(path: Path, primary: Option<Error>)
    requires PathError(path, primary) && path.NotClaimed?
    ensures FinalError(primary, Cleanups(path))
      == Some(Zb("stack_orchestrator", "ClaimRejected", "", "", Some(path.refusal), []))
  {
    IdentityWithoutCleanupFailure(primary, Cleanups(path));
  }

  /** A failing Down is reported as a lifecycle failure with its text, whatever else fails. */
  lemma {:induction false} FailedDownIsReported(path: Path, primary: Option<Error>, down: Error)
    requires path.Claimed? && path.stack.Stopped? && path.stack.down == Some(down)
    ensures var stop := Zb("compose_backend", "LifecycleFailed", "", "", Some(Plain(Message(down))), []);
      var result := FinalError(primary, Cleanups(path));
      result.Some? && Occurs(Message(stop), Message(result.value)) && Occurs(Message(down), Message(result.value))
  {
    hide FinalError, Occurs, Message;
    var stop := StopError(Some(down)).value;
    var result := FinalError(primary, Cleanups(path));
    var i := |ReleaseCleanup(path.stack.local)|;
    assert Cleanups(path)[i] == Some(stop);
    NoErrorTextIsLost(primary, Cleanups(path));
    PlainMessage(Message(down));
    CauseTextOccurs("compose_backend", "LifecycleFailed", Plain(Message(down)));
    OccursTransitive(Message(down), Message(stop), Message(result.value));
  }

  lemma PlainMessage(text: string)
    ensures Message(Plain(text)) == text
  {}
}
