/** `ActivePodsWithRanks.Less`: which of two pods is preferred for deletion. */
module DeletionRanking {
  import opened Wrappers
  import opened Order

  /** Instants in nanoseconds; `ZERO_TIME` is the unset time. */
  type Time = int
  const ZERO_TIME: Time := 0

  /** The range of a Go `time.Duration`. */
  const MAX_DURATION: int := 0x7fff_ffff_ffff_ffff

  datatype Phase = PodPending | PodRunning | PodSucceeded | PodFailed | PodUnknown
  datatype Condition = Condition(isReadyType: bool, isTrue: bool, lastTransition: Time)

  /** A pod with its rank; `cost` is the deletion cost read from its annotations. */
  datatype Pod = Pod(uid: string, node: string, phase: Phase, conditions: seq<Condition>, cost: int,
                     restarts: seq<int>, created: Time, rank: int)

  /** Feature gates and the reference time. */
  datatype Config = Config(deletionCost: bool, logScale: bool, now: Time)

  predicate Scaled(cfg: Config) { cfg.logScale && cfg.now != ZERO_TIME }

  function PhaseOrdinal(p: Phase): int {
    if p.PodRunning? then 2 else if p.PodUnknown? then 1 else 0
  }

  function ReadyCondition(cs: seq<Condition>): (r: Option<Condition>)
    ensures r.Some? ==> r.value in cs && r.value.isReadyType
    ensures r.None? ==> forall i :: 0 <= i < |cs| ==> !cs[i].isReadyType
  {
    if cs == [] then None else if cs[0].isReadyType then Some(cs[0]) else ReadyCondition(cs[1..])
  }

  predicate IsReady(p: Pod) {
    var c := ReadyCondition(p.conditions);
    c.Some? && c.value.isTrue
  }

  function ReadyTime(p: Pod): Time {
    if IsReady(p) then ReadyCondition(p.conditions).value.lastTransition else ZERO_TIME
  }

  lemma {:induction false} ReadyConditionAt(cs: seq<Condition>, k: nat)
    requires k < |cs| && cs[k].isReadyType
    requires forall j :: 0 <= j < k ==> !cs[j].isReadyType
    ensures ReadyCondition(cs) == Some(cs[k])
  {
    if k > 0 {
      ReadyConditionAt(cs[1..], k - 1);
    }
  }

  /** `podReadyTime`: the loop looks for a condition that is both of ready type and true; in a ready pod
      that is the one that makes it ready. */
  method PodReadyTime(p: Pod) returns (t: Time)
    ensures t == ReadyTime(p)
  {
    if IsReady(p) {
      for i := 0 to |p.conditions|
        invariant forall j :: 0 <= j < i ==> !p.conditions[j].isReadyType
      {
        var c := p.conditions[i];
        if c.isReadyType {
          ReadyConditionAt(p.conditions, i);
          if c.isTrue {
            return c.lastTransition;
          }
        }
      }
    }
    return ZERO_TIME;
  }

  function MaxRestarts(rs: seq<int>): (m: int)
    ensures m >= 0 && forall i :: 0 <= i < |rs| ==> rs[i] <= m
    ensures m == 0 || m in rs
  {
    if rs == [] then 0
    else
      var m := MaxRestarts(rs[..|rs| - 1]);
      if Last(rs) > m then Last(rs) else m
  }

  method MaxContainerRestarts(p: Pod) returns (m: int)
    ensures m == MaxRestarts(p.restarts)
  {
    m := 0;
    for i := 0 to |p.restarts|
      invariant m == MaxRestarts(p.restarts[..i])
    {
      assert p.restarts[..i + 1][..i] == p.restarts[..i];
      m := if p.restarts[i] > m then p.restarts[i] else m;
    }
    assert p.restarts[..|p.restarts|] == p.restarts;
  }

  /** `afterOrZero`. */
  predicate AfterOrZero(t1: Time, t2: Time) {
    if t1 == ZERO_TIME || t2 == ZERO_TIME then t1 == ZERO_TIME else t1 > t2
  }

  function FloorLog2(n: nat): int
    requires n > 0
  {
    if n == 1 then 0 else 1 + FloorLog2(n / 2)
  }

  /** `Time.Sub`, which saturates. */
  function Sub(a: Time, b: Time): int {
    if a - b > MAX_DURATION then MAX_DURATION else if a - b < -MAX_DURATION - 1 then -MAX_DURATION - 1 else a - b
  }

  function LogRank(t: Time, now: Time): int {
    if Sub(now, t) > 0 then FloorLog2(Sub(now, t)) else -1
  }

  /** Rules 6 and 8 for two different times. */
  predicate TimeLess(cfg: Config, t1: Time, t2: Time, uid1: string, uid2: string) {
    if !Scaled(cfg) || t1 == ZERO_TIME || t2 == ZERO_TIME then AfterOrZero(t1, t2)
    else
      var rankDiff := LogRank(t1, cfg.now) - LogRank(t2, cfg.now);
      if rankDiff == 0 then StrLess(uid1, uid2) else rankDiff < 0
  }

  /** `Less`, rule by rule. */
  predicate Less(cfg: Config, a: Pod, b: Pod) {
    if a.node != b.node && (|a.node| == 0 || |b.node| == 0) then |a.node| == 0
    else if PhaseOrdinal(a.phase) != PhaseOrdinal(b.phase) then PhaseOrdinal(a.phase) < PhaseOrdinal(b.phase)
    else if IsReady(a) != IsReady(b) then !IsReady(a)
    else if cfg.deletionCost && a.cost != b.cost then a.cost < b.cost
    else if a.rank != b.rank then a.rank > b.rank
    else if IsReady(a) && IsReady(b) && ReadyTime(a) != ReadyTime(b)
      then TimeLess(cfg, ReadyTime(a), ReadyTime(b), a.uid, b.uid)
    else if MaxRestarts(a.restarts) != MaxRestarts(b.restarts) then MaxRestarts(a.restarts) > MaxRestarts(b.restarts)
    else if a.created != b.created then TimeLess(cfg, a.created, b.created, a.uid, b.uid)
    else false
  }

  /** `a` is preferred for deletion and `b` is not. */
  predicate Before(cfg: Config, a: Pod, b: Pod) { Less(cfg, a, b) && !Less(cfg, b, a) }

  /** Neither unknown nor running. */
  predicate NotUp(p: Phase) { !p.PodUnknown? && !p.PodRunning? }

  /** Unassigned pods come first, then pods that are not up, then unknown ones, then running ones. */
  lemma PhasesDecide(cfg: Config, a: Pod, b: Pod)
    ensures a.node == "" && b.node != "" ==> Before(cfg, a, b)
    ensures (a.node == "" <==> b.node == "") ==>
              && (NotUp(a.phase) && !NotUp(b.phase) ==> Before(cfg, a, b))
              && (a.phase.PodUnknown? && b.phase.PodRunning? ==> Before(cfg, a, b))
  {
  }

  /** Within a phase: pods that are not ready first, then the cheaper ones if costs count, then those with more
      pods on their node. */
  lemma ReadinessCostAndRankDecide(cfg: Config, a: Pod, b: Pod)
    requires (a.node == "" <==> b.node == "") && a.phase == b.phase
    ensures !IsReady(a) && IsReady(b) ==> Before(cfg, a, b)
    ensures IsReady(a) == IsReady(b) && cfg.deletionCost && a.cost < b.cost ==> Before(cfg, a, b)
    ensures IsReady(a) == IsReady(b) && (!cfg.deletionCost || a.cost == b.cost) && a.rank > b.rank ==>
              Before(cfg, a, b)
  {
  }

  /** `t` is later than `u`; an unset time is later than any. */
  predicate Later(t: Time, u: Time) { u != ZERO_TIME && (t == ZERO_TIME || t > u) }

  /** After that: pods that became ready later, then those whose containers restarted more often, then newer
      ones, as long as ages are not scaled. */
  lemma TimesAndRestartsDecide(cfg: Config, a: Pod, b: Pod)
    requires (a.node == "" <==> b.node == "") && a.phase == b.phase && IsReady(a) == IsReady(b)
    requires (!cfg.deletionCost || a.cost == b.cost) && a.rank == b.rank
    ensures !Scaled(cfg) && IsReady(a) && Later(ReadyTime(a), ReadyTime(b)) ==> Before(cfg, a, b)
    ensures (IsReady(a) ==> ReadyTime(a) == ReadyTime(b)) && MaxRestarts(a.restarts) > MaxRestarts(b.restarts) ==>
              Before(cfg, a, b)
    ensures (IsReady(a) ==> ReadyTime(a) == ReadyTime(b)) && MaxRestarts(a.restarts) == MaxRestarts(b.restarts) ==>
              !Scaled(cfg) && Later(a.created, b.created) ==> Before(cfg, a, b)
  {
  }

  /** A pod is ready if its first condition of ready type is true, and its ready time is that one's. */
  lemma ReadyExactly(p: Pod, k: nat)
    requires k < |p.conditions| && p.conditions[k].isReadyType
    requires forall j :: 0 <= j < k ==> !p.conditions[j].isReadyType
    ensures IsReady(p) <==> p.conditions[k].isTrue
    ensures ReadyTime(p) == if p.conditions[k].isTrue then p.conditions[k].lastTransition else ZERO_TIME
  {
    ReadyConditionAt(p.conditions, k);
  }

  lemma NotReadyWithoutCondition(p: Pod)
    requires forall j :: 0 <= j < |p.conditions| ==> !p.conditions[j].isReadyType
    ensures !IsReady(p) && ReadyTime(p) == ZERO_TIME
  {
  }

  // --------------------------------------------------------- lexicographic order

  predicate LexLess(a: seq<int>, b: seq<int>) {
    if a == [] || b == [] then a == [] && b != []
    else a[0] < b[0] || (a[0] == b[0] && LexLess(a[1..], b[1..]))
  }

  /** The first place where two keys differ decides. */
  lemma {:induction false} FirstDifferenceDecides(a: seq<int>, b: seq<int>, i: nat)
    requires i < |a| == |b| && a[..i] == b[..i] && a[i] != b[i]
    ensures LexLess(a, b) <==> a[i] < b[i]
  {
    if i > 0 {
      assert a[0] == a[..i][0] && b[0] == b[..i][0];
      assert a[1..][..i - 1] == a[..i][1..] && b[1..][..i - 1] == b[..i][1..];
      FirstDifferenceDecides(a[1..], b[1..], i - 1);
    }
  }

  lemma {:induction false} LexLessIrreflexive(a: seq<int>)
    ensures !LexLess(a, a)
  {
    if a != [] { LexLessIrreflexive(a[1..]); }
  }

  lemma {:induction false} LexLessTransitive(a: seq<int>, b: seq<int>, c: seq<int>)
    requires LexLess(a, b) && LexLess(b, c)
    ensures LexLess(a, c)
  {
    if a != [] && a[0] == b[0] == c[0] { LexLessTransitive(a[1..], b[1..], c[1..]); }
  }

  lemma {:induction false} LexLessTotal(a: seq<int>, b: seq<int>)
    ensures a == b || LexLess(a, b) || LexLess(b, a)
  {
    if a != [] && b != [] {
      LexLessTotal(a[1..], b[1..]);
      if a[0] == b[0] && a[1..] == b[1..] {
        assert a == [a[0]] + a[1..] && b == [b[0]] + b[1..];
      }
    }
  }

  // ------------------------------------------------------------- without scaling

  function Flag(b: bool): int { if b then 1 else 0 }

  /** The first five rules. */
  function Group(cfg: Config, p: Pod): seq<int> {
    [Flag(|p.node| != 0), PhaseOrdinal(p.phase), Flag(IsReady(p)), if cfg.deletionCost then p.cost else 0, -p.rank]
  }

  /** Smaller for the unset time, then for later times. */
  function TimeKey(t: Time): seq<int> { [Flag(t != ZERO_TIME), -t] }

  /** All eight rules as one key. */
  function Key(cfg: Config, p: Pod): seq<int> {
    Group(cfg, p) + (TimeKey(ReadyTime(p)) + [-MaxRestarts(p.restarts)] + TimeKey(p.created))
  }

  /** Pods of one group are alike for each of the first five rules. */
  lemma SameRules(cfg: Config, a: Pod, b: Pod)
    requires Group(cfg, a) == Group(cfg, b)
    ensures |a.node| == 0 <==> |b.node| == 0
    ensures PhaseOrdinal(a.phase) == PhaseOrdinal(b.phase) && IsReady(a) == IsReady(b) && a.rank == b.rank
    ensures cfg.deletionCost ==> a.cost == b.cost
  {
    var g, h := Group(cfg, a), Group(cfg, b);
    assert g[0] == h[0] && g[1] == h[1] && g[2] == h[2] && g[3] == h[3] && g[4] == h[4];
  }

  /** If the groups differ the first five rules decide. */
  lemma GroupsDecide(cfg: Config, a: Pod, b: Pod)
    requires Group(cfg, a) != Group(cfg, b)
    ensures Less(cfg, a, b) <==> LexLess(Group(cfg, a), Group(cfg, b))
  {
    var x, y := Group(cfg, a), Group(cfg, b);
    if x[0] != y[0] {
      FirstDifferenceDecides(x, y, 0);
    } else if x[1] != y[1] {
      FirstDifferenceDecides(x, y, 1);
    } else if x[2] != y[2] {
      FirstDifferenceDecides(x, y, 2);
    } else if x[3] != y[3] {
      FirstDifferenceDecides(x, y, 3);
    } else {
      FirstDifferenceDecides(x, y, 4);
    }
  }

  lemma {:induction false} LexLessAppend(a: seq<int>, b: seq<int>, c: seq<int>, d: seq<int>)
    requires |a| == |b|
    ensures LexLess(a + c, b + d) <==> LexLess(a, b) || (a == b && LexLess(c, d))
  {
    if a == [] {
      assert a + c == c && b + d == d;
    } else {
      LexLessAppend(a[1..], b[1..], c, d);
      assert (a + c)[1..] == a[1..] + c && (b + d)[1..] == b[1..] + d;
      assert a == [a[0]] + a[1..] && b == [b[0]] + b[1..];
    }
  }

  lemma TimeKeyOrders(t: Time, u: Time)
    ensures AfterOrZero(t, u) && t != u <==> LexLess(TimeKey(t), TimeKey(u))
    ensures TimeKey(t) == TimeKey(u) <==> t == u
  {
    if t != u {
      if (t == ZERO_TIME) != (u == ZERO_TIME) {
        FirstDifferenceDecides(TimeKey(t), TimeKey(u), 0);
      } else {
        FirstDifferenceDecides(TimeKey(t), TimeKey(u), 1);
      }
      assert TimeKey(t)[1] != TimeKey(u)[1];
    } else {
      LexLessIrreflexive(TimeKey(t));
    }
  }

  /** The rules of `Less` that remain when the groups agree and nothing is scaled. */
  lemma AgesDecide(cfg: Config, a: Pod, b: Pod)
    requires !Scaled(cfg) && Group(cfg, a) == Group(cfg, b)
    ensures Less(cfg, a, b) <==> LexLess(Key(cfg, a)[5..], Key(cfg, b)[5..])
  {
    var r, s := TimeKey(ReadyTime(a)), TimeKey(ReadyTime(b));
    var x, y := [-MaxRestarts(a.restarts)], [-MaxRestarts(b.restarts)];
    var c, d := TimeKey(a.created), TimeKey(b.created);
    assert Key(cfg, a)[5..] == r + (x + c) && Key(cfg, b)[5..] == s + (y + d);
    SameRules(cfg, a, b);
    LexLessAppend(r, s, x + c, y + d);
    LexLessAppend(x, y, c, d);
    TimeKeyOrders(ReadyTime(a), ReadyTime(b));
    TimeKeyOrders(a.created, b.created);
    assert LexLess(x, y) <==> x[0] < y[0];
    assert x == y <==> x[0] == y[0];
  }

  /** Without scaling the eight rules are one lexicographic comparison. */
  lemma UnscaledIsLexicographic(cfg: Config, a: Pod, b: Pod)
    requires !Scaled(cfg)
    ensures Less(cfg, a, b) <==> LexLess(Key(cfg, a), Key(cfg, b))
  {
    var g, h := Group(cfg, a), Group(cfg, b);
    assert Key(cfg, a) == g + Key(cfg, a)[5..] && Key(cfg, b) == h + Key(cfg, b)[5..];
    LexLessAppend(g, h, Key(cfg, a)[5..], Key(cfg, b)[5..]);
    if g != h {
      GroupsDecide(cfg, a, b);
    } else {
      LexLessIrreflexive(g);
      AgesDecide(cfg, a, b);
    }
  }

  /** With logarithmic scaling off, or no reference time, the comparator is a strict weak order. */
  lemma UnscaledIsWeakOrder(cfg: Config)
    requires !Scaled(cfg)
    ensures WeakOrder((a, b) => Less(cfg, a, b))
  {
    forall a, b ensures Less(cfg, a, b) <==> LexLess(Key(cfg, a), Key(cfg, b)) { UnscaledIsLexicographic(cfg, a, b); }
    forall a ensures !Less(cfg, a, a) { LexLessIrreflexive(Key(cfg, a)); }
    forall a, b, c | Less(cfg, a, b) && Less(cfg, b, c) ensures Less(cfg, a, c) {
      LexLessTransitive(Key(cfg, a), Key(cfg, b), Key(cfg, c));
    }
    forall a, b, c | !Less(cfg, a, b) && !Less(cfg, b, c) ensures !Less(cfg, a, c) {
      LexLessTotal(Key(cfg, a), Key(cfg, b));
      LexLessTotal(Key(cfg, b), Key(cfg, c));
      if LexLess(Key(cfg, c), Key(cfg, b)) && LexLess(Key(cfg, b), Key(cfg, a)) {
        LexLessTransitive(Key(cfg, c), Key(cfg, b), Key(cfg, a));
      }
      if LexLess(Key(cfg, a), Key(cfg, c)) && LexLess(Key(cfg, c), Key(cfg, a)) {
        LexLessTransitive(Key(cfg, a), Key(cfg, c), Key(cfg, a));
        LexLessIrreflexive(Key(cfg, a));
      }
    }
  }

  // ---------------------------------------------------------------- with scaling

  lemma {:induction false} FloorLog2Monotone(m: nat, n: nat)
    requires 0 < m <= n
    ensures 0 <= FloorLog2(m) <= FloorLog2(n)
  {
    if m > 1 {
      FloorLog2Monotone(m / 2, n / 2);
    } else if n > 1 {
      FloorLog2Monotone(1, n / 2);
    }
  }

  function Pow2(n: nat): nat { if n == 0 then 1 else 2 * Pow2(n - 1) }

  /** The rank of an age is the exponent of the largest power of two it reaches. */
  lemma {:induction false} FloorLog2Exact(n: nat)
    requires n > 0
    ensures FloorLog2(n) >= 0 && Pow2(FloorLog2(n)) <= n < 2 * Pow2(FloorLog2(n))
  {
    if n > 1 {
      FloorLog2Exact(n / 2);
    }
  }

  /** Scaling only coarsens age: of two times with different ranks the later one comes first, as without. */
  /** The rank of a time is the power of two that its age has reached, at most that of the longest duration;
      a time that is not past has rank -1. */
  lemma LogRankExact(t: Time, now: Time)
    ensures now <= t ==> LogRank(t, now) == -1
    ensures now > t ==>
              var age, r := if now - t > MAX_DURATION then MAX_DURATION else now - t, LogRank(t, now);
              r >= 0 && Pow2(r) <= age < 2 * Pow2(r)
  {
    if now > t { FloorLog2Exact(Sub(now, t)); }
  }

  lemma ScalingKeepsAge(t: Time, u: Time, now: Time)
    requires LogRank(t, now) < LogRank(u, now)
    ensures t > u
  {
    if Sub(now, t) > 0 {
      FloorLog2Monotone(1, Sub(now, t));
    }
    if t <= u && Sub(now, u) > 0 {
      FloorLog2Monotone(Sub(now, u), Sub(now, t));
    }
  }

  /** The time that decides among pods of one group: of becoming ready, or of creation. */
  function DecidingTime(p: Pod): Time { if IsReady(p) then ReadyTime(p) else p.created }

  /** The rules as one key, when no two deciding times are equal; the UID breaks ties. */
  function ScaledKey(cfg: Config, p: Pod): seq<int> {
    var t := DecidingTime(p);
    Group(cfg, p) + [if IsReady(p) then 0 else -MaxRestarts(p.restarts), Flag(t != ZERO_TIME),
                     if t != ZERO_TIME then LogRank(t, cfg.now) else 0]
  }

  /** Two pods with different UIDs that some rule before the last tie tells apart: in one group they differ
      in ready time if ready, else in restarts or creation time. */
  predicate Separated(cfg: Config, a: Pod, b: Pod) {
    && a.uid != b.uid
    && (Group(cfg, a) == Group(cfg, b) ==>
          if IsReady(a) then ReadyTime(a) != ReadyTime(b)
          else MaxRestarts(a.restarts) != MaxRestarts(b.restarts) || a.created != b.created)
  }

  lemma ScaledAgesDecide(cfg: Config, a: Pod, b: Pod)
    requires Scaled(cfg) && Separated(cfg, a, b) && Group(cfg, a) == Group(cfg, b)
    ensures var x, y := ScaledKey(cfg, a)[5..], ScaledKey(cfg, b)[5..];
            Less(cfg, a, b) <==> LexLess(x, y) || (x == y && StrLess(a.uid, b.uid))
  {
    var x, y := ScaledKey(cfg, a)[5..], ScaledKey(cfg, b)[5..];
    SameRules(cfg, a, b);
    if x[0] != y[0] {
      FirstDifferenceDecides(x, y, 0);
    } else if x[1] != y[1] {
      FirstDifferenceDecides(x, y, 1);
    } else if x[2] != y[2] {
      FirstDifferenceDecides(x, y, 2);
    } else {
      assert x == y;
      LexLessIrreflexive(x);
    }
  }

  /** With scaling, separated pods compare by one key and then by UID. */
  lemma ScaledIsLexicographic(cfg: Config, a: Pod, b: Pod)
    requires Scaled(cfg) && Separated(cfg, a, b)
    ensures var x, y := ScaledKey(cfg, a), ScaledKey(cfg, b);
            Less(cfg, a, b) <==> LexLess(x, y) || (x == y && StrLess(a.uid, b.uid))
  {
    var g, h := Group(cfg, a), Group(cfg, b);
    var x, y := ScaledKey(cfg, a)[5..], ScaledKey(cfg, b)[5..];
    assert ScaledKey(cfg, a) == g + x && ScaledKey(cfg, b) == h + y;
    assert ScaledKey(cfg, a)[..5] == g && ScaledKey(cfg, b)[..5] == h;
    LexLessAppend(g, h, x, y);
    if g != h {
      GroupsDecide(cfg, a, b);
    } else {
      LexLessIrreflexive(g);
      ScaledAgesDecide(cfg, a, b);
    }
  }

  // ------------------------------------------------- exactly when scaling is an order

  /** The unset time first, then by rank. */
  function TimeRank(cfg: Config, t: Time): int {
    if t == ZERO_TIME then -2 else LogRank(t, cfg.now)
  }

  lemma TimesCompareByRank(cfg: Config, t: Time, u: Time, x: string, y: string)
    requires Scaled(cfg) && t != u
    ensures TimeLess(cfg, t, u, x, y) <==>
            TimeRank(cfg, t) < TimeRank(cfg, u) || (TimeRank(cfg, t) == TimeRank(cfg, u) && StrLess(x, y))
    ensures TimeRank(cfg, t) == TimeRank(cfg, u) ==> t != ZERO_TIME && u != ZERO_TIME
  {
    if Sub(cfg.now, t) > 0 { FloorLog2Monotone(1, Sub(cfg.now, t)); }
    if Sub(cfg.now, u) > 0 { FloorLog2Monotone(1, Sub(cfg.now, u)); }
  }

  /** Rules 7 and 8, which decide when ready times do not. */
  predicate RestLess(cfg: Config, a: Pod, b: Pod) {
    if MaxRestarts(a.restarts) != MaxRestarts(b.restarts) then MaxRestarts(a.restarts) > MaxRestarts(b.restarts)
    else a.created != b.created && TimeLess(cfg, a.created, b.created, a.uid, b.uid)
  }

  predicate ReadyTogether(a: Pod, b: Pod) {
    !IsReady(a) || ReadyTime(a) == ReadyTime(b)
  }

  lemma LessInGroup(cfg: Config, a: Pod, b: Pod)
    requires Group(cfg, a) == Group(cfg, b)
    ensures IsReady(a) == IsReady(b)
    ensures Less(cfg, a, b) <==>
            if ReadyTogether(a, b) then RestLess(cfg, a, b) else TimeLess(cfg, ReadyTime(a), ReadyTime(b), a.uid, b.uid)
  {
    SameRules(cfg, a, b);
  }

  /** Different times that scaling cannot tell apart. */
  predicate SameRank(cfg: Config, t: Time, u: Time) {
    t != u && t != ZERO_TIME && u != ZERO_TIME && LogRank(t, cfg.now) == LogRank(u, cfg.now)
  }

  /** Two pods of a group, `a` and `b`, with the same deciding time compare by later rules, which do not put
      `a` first; but a third one, whose deciding time differs and has the same rank, has its UID between
      theirs, so that `a` comes before it and it before `b`. */
  predicate Clash(cfg: Config, a: Pod, b: Pod, c: Pod) {
    && Group(cfg, a) == Group(cfg, b) == Group(cfg, c)
    && StrLess(a.uid, c.uid) && StrLess(c.uid, b.uid)
    && (|| (&& IsReady(a) && ReadyTime(a) == ReadyTime(b) && SameRank(cfg, ReadyTime(a), ReadyTime(c))
            && !RestLess(cfg, a, b))
        || (&& ReadyTogether(a, b) && ReadyTogether(a, c)
            && MaxRestarts(a.restarts) == MaxRestarts(b.restarts) == MaxRestarts(c.restarts)
            && a.created == b.created && SameRank(cfg, a.created, c.created)))
  }

  /** A clash is a failure of transitivity. */
  lemma ClashBreaksTransitivity(cfg: Config, a: Pod, b: Pod, c: Pod)
    requires Scaled(cfg) && Clash(cfg, a, b, c)
    ensures Less(cfg, a, c) && Less(cfg, c, b) && !Less(cfg, a, b)
  {
    LessInGroup(cfg, a, b);
    LessInGroup(cfg, a, c);
    LessInGroup(cfg, c, b);
  }

  ghost predicate DistinctUIDs(s: set<Pod>) {
    forall a, b :: a in s && b in s && a != b ==> a.uid != b.uid
  }

  /** The pods that the rules cannot tell apart. */
  predicate Tied(cfg: Config, a: Pod, b: Pod) {
    && Group(cfg, a) == Group(cfg, b) && ReadyTogether(a, b)
    && MaxRestarts(a.restarts) == MaxRestarts(b.restarts) && a.created == b.created
  }

  lemma RestIsConnected(cfg: Config, a: Pod, b: Pod)
    requires Scaled(cfg) && a.uid != b.uid
    ensures !(RestLess(cfg, a, b) && RestLess(cfg, b, a))
    ensures RestLess(cfg, a, b) || RestLess(cfg, b, a) <==>
            MaxRestarts(a.restarts) != MaxRestarts(b.restarts) || a.created != b.created
  {
    UIDsCompare(a, b);
    if a.created != b.created {
      TimesCompareByRank(cfg, a.created, b.created, a.uid, b.uid);
      TimesCompareByRank(cfg, b.created, a.created, b.uid, a.uid);
    }
  }

  lemma UIDsCompare(a: Pod, b: Pod)
    requires a.uid != b.uid
    ensures StrLess(a.uid, b.uid) <==> !StrLess(b.uid, a.uid)
  {
    StrLessTotal(a.uid, b.uid);
    if StrLess(a.uid, b.uid) && StrLess(b.uid, a.uid) {
      StrLessTransitive(a.uid, b.uid, a.uid);
      StrLessIrreflexive(a.uid);
    }
  }

  /** Of two pods with different UIDs exactly one comes first, unless they are tied. */
  lemma ConnectedUnlessTied(cfg: Config, a: Pod, b: Pod)
    requires Scaled(cfg) && a.uid != b.uid
    ensures !(Less(cfg, a, b) && Less(cfg, b, a))
    ensures Less(cfg, a, b) || Less(cfg, b, a) <==> !Tied(cfg, a, b)
  {
    if Group(cfg, a) != Group(cfg, b) {
      GroupsConnect(cfg, a, b);
    } else {
      LessInGroup(cfg, a, b);
      LessInGroup(cfg, b, a);
      RestIsConnected(cfg, a, b);
      UIDsCompare(a, b);
      if !ReadyTogether(a, b) {
        TimesCompareByRank(cfg, ReadyTime(a), ReadyTime(b), a.uid, b.uid);
        TimesCompareByRank(cfg, ReadyTime(b), ReadyTime(a), b.uid, a.uid);
      }
    }
  }

  lemma GroupsConnect(cfg: Config, a: Pod, b: Pod)
    requires Group(cfg, a) != Group(cfg, b)
    ensures Less(cfg, a, b) <==> !Less(cfg, b, a)
  {
    var g, h := Group(cfg, a), Group(cfg, b);
    GroupsDecide(cfg, a, b);
    GroupsDecide(cfg, b, a);
    LexLessTotal(g, h);
    if LexLess(g, h) && LexLess(h, g) {
      LexLessTransitive(g, h, g);
      LexLessIrreflexive(g);
    }
  }

  lemma GroupsAreTransitive(cfg: Config, x: Pod, y: Pod, z: Pod)
    requires Less(cfg, x, y) && Less(cfg, y, z)
    requires Group(cfg, x) != Group(cfg, y) || Group(cfg, y) != Group(cfg, z)
    ensures Less(cfg, x, z)
  {
    var f, g, h := Group(cfg, x), Group(cfg, y), Group(cfg, z);
    if f != g { GroupsDecide(cfg, x, y); }
    if g != h { GroupsDecide(cfg, y, z); }
    if f != g && g != h { LexLessTransitive(f, g, h); }
    if f == h { LexLessIrreflexive(f); }
    GroupsDecide(cfg, x, z);
  }

  /** Comparing different times by rank and then UID is transitive. */
  lemma TimesAreTransitive(cfg: Config, t: Time, u: Time, v: Time, x: Pod, y: Pod, z: Pod)
    requires Scaled(cfg) && t != u && u != v && t != v
    requires TimeLess(cfg, t, u, x.uid, y.uid) && TimeLess(cfg, u, v, y.uid, z.uid)
    ensures TimeLess(cfg, t, v, x.uid, z.uid)
  {
    TimesCompareByRank(cfg, t, u, x.uid, y.uid);
    TimesCompareByRank(cfg, u, v, y.uid, z.uid);
    TimesCompareByRank(cfg, t, v, x.uid, z.uid);
    if StrLess(x.uid, y.uid) && StrLess(y.uid, z.uid) { StrLessTransitive(x.uid, y.uid, z.uid); }
  }

  ghost predicate SomeClash(cfg: Config, x: Pod, y: Pod, z: Pod) {
    Clash(cfg, x, z, y) || Clash(cfg, y, x, z) || Clash(cfg, z, y, x)
  }

  ghost predicate ThreeUIDs(x: Pod, y: Pod, z: Pod) {
    x.uid != y.uid && y.uid != z.uid && x.uid != z.uid
  }

  /** Rules 7 and 8 among pods that are ready together. */
  lemma RestFailureIsClash(cfg: Config, x: Pod, y: Pod, z: Pod)
    requires Scaled(cfg) && ThreeUIDs(x, y, z) && Group(cfg, x) == Group(cfg, y) == Group(cfg, z)
    requires ReadyTogether(x, y) && ReadyTogether(y, z) && ReadyTogether(x, z)
    requires RestLess(cfg, x, y) && RestLess(cfg, y, z) && !RestLess(cfg, x, z)
    ensures SomeClash(cfg, x, y, z)
  {
    LessInGroup(cfg, x, y);
    LessInGroup(cfg, y, z);
    UIDsCompare(x, y);
    UIDsCompare(y, z);
    UIDsCompare(x, z);
    TimesCompareByRank(cfg, x.created, y.created, x.uid, y.uid);
    TimesCompareByRank(cfg, y.created, z.created, y.uid, z.uid);
    if x.created != z.created {
      TimesAreTransitive(cfg, x.created, y.created, z.created, x, y, z);
    }
  }

  /** Ready pods of which just two became ready together. */
  lemma ReadyFailureIsClash(cfg: Config, x: Pod, y: Pod, z: Pod)
    requires Scaled(cfg) && ThreeUIDs(x, y, z) && Group(cfg, x) == Group(cfg, y) == Group(cfg, z) && IsReady(x)
    requires !(ReadyTogether(x, y) && ReadyTogether(y, z))
    requires Less(cfg, x, y) && Less(cfg, y, z) && !Less(cfg, x, z)
    ensures SomeClash(cfg, x, y, z)
  {
    LessInGroup(cfg, x, y);
    LessInGroup(cfg, y, z);
    LessInGroup(cfg, x, z);
    UIDsCompare(x, y);
    UIDsCompare(y, z);
    UIDsCompare(x, z);
    var t, u, v := ReadyTime(x), ReadyTime(y), ReadyTime(z);
    if t == v {
      TimesCompareByRank(cfg, t, u, x.uid, y.uid);
      TimesCompareByRank(cfg, u, v, y.uid, z.uid);
      assert Clash(cfg, x, z, y);
    } else if t == u {
      RestIsConnected(cfg, x, y);
      TimesCompareByRank(cfg, u, v, y.uid, z.uid);
      TimesCompareByRank(cfg, t, v, x.uid, z.uid);
      assert Clash(cfg, y, x, z);
    } else if u == v {
      RestIsConnected(cfg, y, z);
      TimesCompareByRank(cfg, t, u, x.uid, y.uid);
      TimesCompareByRank(cfg, t, v, x.uid, z.uid);
      assert Clash(cfg, z, y, x);
    } else {
      TimesAreTransitive(cfg, t, u, v, x, y, z);
    }
  }

  /** Every failure of transitivity is a clash. */
  lemma FailureIsClash(cfg: Config, x: Pod, y: Pod, z: Pod)
    requires Scaled(cfg) && ThreeUIDs(x, y, z)
    requires Less(cfg, x, y) && Less(cfg, y, z) && !Less(cfg, x, z)
    ensures SomeClash(cfg, x, y, z)
  {
    if Group(cfg, x) != Group(cfg, y) || Group(cfg, y) != Group(cfg, z) {
      GroupsAreTransitive(cfg, x, y, z);
    } else {
      LessInGroup(cfg, x, y);
      LessInGroup(cfg, y, z);
      LessInGroup(cfg, x, z);
      if ReadyTogether(x, y) && ReadyTogether(y, z) {
        RestFailureIsClash(cfg, x, y, z);
      } else {
        ReadyFailureIsClash(cfg, x, y, z);
      }
    }
  }

  ghost predicate TransitiveOn(cfg: Config, s: set<Pod>) {
    forall a, b, c :: a in s && b in s && c in s && Less(cfg, a, b) && Less(cfg, b, c) ==> Less(cfg, a, c)
  }

  /** What sorting needs of the comparator on the pods at hand. */
  ghost predicate WeakOrderOn(cfg: Config, s: set<Pod>) {
    && (forall a :: a in s ==> !Less(cfg, a, a))
    && TransitiveOn(cfg, s)
    && (forall a, b, c :: a in s && b in s && c in s && !Less(cfg, a, b) && !Less(cfg, b, c) ==> !Less(cfg, a, c))
  }

  ghost predicate ClashFree(cfg: Config, s: set<Pod>) {
    forall a, b, c :: a in s && b in s && c in s ==> !Clash(cfg, a, b, c)
  }

  lemma ClashFreeIsTransitive(cfg: Config, s: set<Pod>)
    requires Scaled(cfg) && DistinctUIDs(s) && ClashFree(cfg, s)
    ensures TransitiveOn(cfg, s)
  {
    forall a, b, c | a in s && b in s && c in s && Less(cfg, a, b) && Less(cfg, b, c) ensures Less(cfg, a, c) {
      if a == b || b == c {
      } else if a == c {
        ConnectedUnlessTied(cfg, a, b);
      } else if !Less(cfg, a, c) {
        FailureIsClash(cfg, a, b, c);
      }
    }
  }

  /** The tied pods compare alike with every third one, once the comparator is transitive. */
  lemma TransitiveIsNegativelyTransitive(cfg: Config, s: set<Pod>, a: Pod, b: Pod, c: Pod)
    requires Scaled(cfg) && DistinctUIDs(s) && TransitiveOn(cfg, s) && a in s && b in s && c in s
    requires !Less(cfg, a, b) && !Less(cfg, b, c)
    ensures !Less(cfg, a, c)
  {
    if Less(cfg, a, c) && a != b && b != c && a != c {
      ConnectedUnlessTied(cfg, a, b);
      ConnectedUnlessTied(cfg, b, c);
      ConnectedUnlessTied(cfg, a, c);
    } else if a == c {
      NeverLessThanItself(cfg, a);
    }
  }

  lemma NeverLessThanItself(cfg: Config, a: Pod)
    ensures !Less(cfg, a, a)
  {
  }

  /** With scaling, on pods with different UIDs, the comparator is a strict weak order if and only if no
      three of them clash. */
  lemma ScaledIsWeakOrderExactly(cfg: Config, s: set<Pod>)
    requires Scaled(cfg) && DistinctUIDs(s)
    ensures WeakOrderOn(cfg, s) <==> ClashFree(cfg, s)
  {
    if ClashFree(cfg, s) {
      ClashFreeIsTransitive(cfg, s);
      forall a, b, c | a in s && b in s && c in s && !Less(cfg, a, b) && !Less(cfg, b, c) ensures !Less(cfg, a, c) {
        TransitiveIsNegativelyTransitive(cfg, s, a, b, c);
      }
      forall a | a in s ensures !Less(cfg, a, a) { NeverLessThanItself(cfg, a); }
    } else {
      var a, b, c :| a in s && b in s && c in s && Clash(cfg, a, b, c);
      ClashBreaksTransitivity(cfg, a, b, c);
    }
  }

  ghost predicate TotalOrderOn(cfg: Config, s: set<Pod>) {
    && WeakOrderOn(cfg, s)
    && forall a, b :: a in s && b in s && a != b ==> Less(cfg, a, b) || Less(cfg, b, a)
  }

  ghost predicate TieFree(cfg: Config, s: set<Pod>) {
    forall a, b :: a in s && b in s && a != b ==> !Tied(cfg, a, b)
  }

  /** It is a strict total order if and only if in addition no two of them are tied. */
  lemma ScaledIsTotalOrderExactly(cfg: Config, s: set<Pod>)
    requires Scaled(cfg) && DistinctUIDs(s)
    ensures TotalOrderOn(cfg, s) <==> ClashFree(cfg, s) && TieFree(cfg, s)
  {
    ScaledIsWeakOrderExactly(cfg, s);
    forall a, b | a in s && b in s && a != b ensures Less(cfg, a, b) || Less(cfg, b, a) <==> !Tied(cfg, a, b) {
      ConnectedUnlessTied(cfg, a, b);
    }
  }

  ghost predicate AllSeparated(cfg: Config, s: set<Pod>) {
    forall a, b :: a in s && b in s && a != b ==> Separated(cfg, a, b)
  }

  lemma ClashNeedsTwo(cfg: Config, a: Pod, c: Pod)
    ensures !Clash(cfg, a, a, c)
  {
    if StrLess(a.uid, c.uid) && StrLess(c.uid, a.uid) {
      StrLessTransitive(a.uid, c.uid, a.uid);
      StrLessIrreflexive(a.uid);
    }
  }

  lemma SeparatedDoNotClash(cfg: Config, a: Pod, b: Pod, c: Pod)
    requires Separated(cfg, a, b)
    ensures !Clash(cfg, a, b, c) && !Tied(cfg, a, b)
  {
  }

  /** In particular over pods that are pairwise separated. */
  lemma ScaledIsTotalOrder(cfg: Config, s: set<Pod>)
    requires Scaled(cfg) && AllSeparated(cfg, s)
    ensures TotalOrderOn(cfg, s)
  {
    forall a, b | a in s && b in s && a != b ensures a.uid != b.uid && !Tied(cfg, a, b) {
      SeparatedDoNotClash(cfg, a, b, a);
    }
    forall a, b, c | a in s && b in s && c in s ensures !Clash(cfg, a, b, c) {
      if a == b {
        ClashNeedsTwo(cfg, a, c);
      } else {
        SeparatedDoNotClash(cfg, a, b, c);
      }
    }
    ScaledIsTotalOrderExactly(cfg, s);
  }

  /** Pods without ties are deleted in one order, however they were listed. */
  lemma DeletionOrderIsUnique(cfg: Config, s: seq<Pod>, t: seq<Pod>)
    requires Scaled(cfg) && DistinctUIDs(set p | p in s) && TieFree(cfg, set p | p in s) && multiset(s) == multiset(t)
    requires Sorted(s, (a, b) => Less(cfg, a, b)) && Sorted(t, (a, b) => Less(cfg, a, b))
    ensures s == t
  {
    forall x, y | x in s && y in s && !Less(cfg, x, y) && !Less(cfg, y, x) ensures x == y {
      if x != y { ConnectedUnlessTied(cfg, x, y); }
    }
    SortedIsCanonical(s, t, (a, b) => Less(cfg, a, b));
  }

  /** Clashes happen: two pods that became ready at the same time compare by
      restarts, but each compares by UID with a third pod whose ready time has the same rank. */
  lemma ScaledIsNotTransitive(cfg: Config, a: Pod, b: Pod, c: Pod)
    requires cfg == Config(false, true, 100)
    requires a == Pod("c", "n", PodRunning, [Condition(true, true, 90)], 0, [5], 1, 0)
    requires b == Pod("a", "n", PodRunning, [Condition(true, true, 90)], 0, [0], 2, 0)
    requires c == Pod("b", "n", PodRunning, [Condition(true, true, 91)], 0, [0], 3, 0)
    ensures Less(cfg, a, b) && Less(cfg, b, c) && Less(cfg, c, a)
  {
    assert MaxRestarts([0]) == 0 && MaxRestarts([5]) == 5 by {
      assert [0][..0] == [] && [5][..0] == [];
    }
    assert FloorLog2(10) == 3 && FloorLog2(9) == 3 by {
      assert FloorLog2(2) == 1 && FloorLog2(4) == 2 && FloorLog2(5) == 2;
    }
    assert StrLess("a", "b") && StrLess("b", "c");
  }
}
