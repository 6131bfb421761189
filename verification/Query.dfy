/** Structured queries over intelligence results (commands/tools.py): the staged filter with
    its exclusion counts, the one-shot predicate, and the deterministic ranking. */
module Query {
  import opened Domain

  datatype RiskLevel = Low | Medium | High | Critical

  datatype Record = Record(
    id: nat, level: RiskLevel, score: int, rawScore: int, total: int, overdue: int, maxDays: int,
    broken: nat, active: nat, disputes: nat, sincePayment: Option<int>)

  /** A record with the facts that were looked up beside it. */
  datatype Context = Context(
    record: Record, partial: bool, recent: bool, blocked: bool, monitoring: bool, actionable: bool, inCycle: bool,
    changed: bool, held: bool)

  datatype SortBy = ByRisk | ByTotal | ByOverdue | ByDays | ByLastPayment

  datatype QuerySpec = QuerySpec(
    latestCycle: bool, levels: set<RiskLevel>,
    overdue: Option<bool>, broken: Option<bool>, active: Option<bool>, disputed: Option<bool>, partial: Option<bool>,
    recent: Option<bool>, actionable: Option<bool>, blocked: Option<bool>, monitoring: Option<bool>,
    changed: Option<bool>, held: Option<bool>,
    minDays: Option<int>, maxDays: Option<int>, minScore: Option<int>, maxScore: Option<int>,
    minExposure: Option<int>, maxExposure: Option<int>,
    sortBy: SortBy, descending: bool, countOnly: bool, limit: Option<nat>)

  // ---------------------------------------------------------------- the one-shot predicate

  predicate Wanted(expected: Option<bool>, actual: bool) { expected.None? || expected.value == actual }

  predicate AtLeast(bound: Option<int>, value: int) { bound.None? || value >= bound.value }

  predicate AtMost(bound: Option<int>, value: int) { bound.None? || value <= bound.value }

  predicate Matches(q: QuerySpec, c: Context) {
    && (q.levels == {} || c.record.level in q.levels)
    && AtLeast(q.minDays, c.record.maxDays) && AtMost(q.maxDays, c.record.maxDays)
    && AtLeast(q.minScore, c.record.score) && AtMost(q.maxScore, c.record.score)
    && AtLeast(q.minExposure, c.record.overdue) && AtMost(q.maxExposure, c.record.overdue)
    && Wanted(q.overdue, c.record.overdue > 0)
    && Wanted(q.broken, c.record.broken > 0)
    && Wanted(q.active, c.record.active > 0)
    && Wanted(q.disputed, c.record.disputes > 0)
    && Wanted(q.partial, c.partial)
    && Wanted(q.recent, c.recent)
    && Wanted(q.actionable, c.actionable)
    && Wanted(q.blocked, c.blocked)
    && Wanted(q.monitoring, c.monitoring)
    && Wanted(q.changed, c.changed)
    && Wanted(q.held, c.held)
  }

  // ---------------------------------------------------------------- the stages

  datatype Flag =
    | IsOverdue | HasBroken | HasActive | HasDispute | PartlyPaid | RecentlyPaid | IsActionable | IsBlocked
        | IsMonitored
    | DecisionChanged | DecisionHeld

  datatype Stage =
    | InLatestCycle | InLevels | FlagIs(flag: Flag, wanted: bool)
    | MinDays | MaxDays | MinScore | MaxScore | MinExposure | MaxExposure

  predicate FlagOf(flag: Flag, c: Context) {
    match flag
    case IsOverdue => c.record.overdue > 0
    case HasBroken => c.record.broken > 0
    case HasActive => c.record.active > 0
    case HasDispute => c.record.disputes > 0
    case PartlyPaid => c.partial
    case RecentlyPaid => c.recent
    case IsActionable => c.actionable
    case IsBlocked => c.blocked
    case IsMonitored => c.monitoring
    case DecisionChanged => c.changed
    case DecisionHeld => c.held
  }

  predicate Passes(q: QuerySpec, stage: Stage, c: Context) {
    match stage
    case InLatestCycle => c.inCycle
    case InLevels => c.record.level in q.levels
    case FlagIs(flag, wanted) => FlagOf(flag, c) == wanted
    case MinDays => AtLeast(q.minDays, c.record.maxDays)
    case MaxDays => AtMost(q.maxDays, c.record.maxDays)
    case MinScore => AtLeast(q.minScore, c.record.score)
    case MaxScore => AtMost(q.maxScore, c.record.score)
    case MinExposure => AtLeast(q.minExposure, c.record.overdue)
    case MaxExposure => AtMost(q.maxExposure, c.record.overdue)
  }

  /** A stage that a query may switch on. */
  datatype StageSwitch = Switch(on: bool, stage: Stage)

  function FlagSwitch(expected: Option<bool>, flag: Flag): StageSwitch {
    if expected.Some? then Switch(true, FlagIs(flag, expected.value)) else Switch(false, FlagIs(flag, true))
  }

  function ScopeSwitches(q: QuerySpec): seq<StageSwitch> {
    [Switch(q.latestCycle, InLatestCycle), Switch(q.levels != {}, InLevels)]
  }

  function MetricSwitches(q: QuerySpec): seq<StageSwitch> {
    [FlagSwitch(q.overdue, IsOverdue), FlagSwitch(q.broken, HasBroken), FlagSwitch(q.active, HasActive),
     FlagSwitch(q.disputed, HasDispute)]
  }

  function FactSwitches(q: QuerySpec): seq<StageSwitch> {
    [FlagSwitch(q.partial, PartlyPaid), FlagSwitch(q.recent, RecentlyPaid), FlagSwitch(q.actionable, IsActionable),
     FlagSwitch(q.blocked, IsBlocked), FlagSwitch(q.monitoring, IsMonitored), FlagSwitch(q.changed, DecisionChanged),
     FlagSwitch(q.held, DecisionHeld)]
  }

  function BoundSwitches(q: QuerySpec): seq<StageSwitch> {
    [Switch(q.minDays.Some?, MinDays), Switch(q.maxDays.Some?, MaxDays),
     Switch(q.minScore.Some?, MinScore), Switch(q.maxScore.Some?, MaxScore),
     Switch(q.minExposure.Some?, MinExposure), Switch(q.maxExposure.Some?, MaxExposure)]
  }

  function SwitchedOn(switches: seq<StageSwitch>): seq<Stage> {
    if switches == [] then []
    else (if switches[0].on then [switches[0].stage] else []) + SwitchedOn(switches[1..])
  }

  /** The stages of a query, in the order in which they are applied. */
  function StagesOf(q: QuerySpec): seq<Stage> {
    SwitchedOn(ScopeSwitches(q)) + SwitchedOn(MetricSwitches(q)) + SwitchedOn(FactSwitches(q))
        + SwitchedOn(BoundSwitches(q))
  }

  function Filter(items: seq<Context>, keep: Context -> bool): (kept: seq<Context>)
    ensures |kept| <= |items|
  {
    if items == [] then [] else if keep(items[0]) then [items[0]] + Filter(items[1..], keep)
        else Filter(items[1..], keep)
  }

  datatype Exclusion = Exclusion(stage: Stage, count: nat)

  function ExclusionTotal(exclusions: seq<Exclusion>): nat {
    if exclusions == [] then 0 else ExclusionTotal(exclusions[..|exclusions| - 1]) + exclusions[|exclusions| - 1].count
  }

  predicate PassesAll(q: QuerySpec, stages: seq<Stage>, c: Context) {
    forall k :: 0 <= k < |stages| ==> Passes(q, stages[k], c)
  }

  method FilterBy(q: QuerySpec, stage: Stage, items: seq<Context>) returns (kept: seq<Context>)
    ensures kept == Filter(items, c => Passes(q, stage, c))
  {
    hide Passes;
    kept := [];
    assert items[..0] == [];
    for i := 0 to |items|
      invariant kept == Filter(items[..i], c => Passes(q, stage, c))
    {
      FilterSnoc(items[..i], items[i], c => Passes(q, stage, c));
      assert items[..i + 1] == items[..i] + [items[i]];
      if Passes(q, stage, items[i]) {
        kept := kept + [items[i]];
      }
    }
    assert items[..|items|] == items;
  }

  /** The staged filter: each stage narrows the list and notes how many it excluded. */
  method ApplyPredicates(q: QuerySpec, contexts: seq<Context>)
      returns (remaining: seq<Context>, exclusions: seq<Exclusion>)
    ensures remaining == Filter(contexts, c => PassesAll(q, StagesOf(q), c))
    ensures ExclusionTotal(exclusions) == |contexts| - |remaining|
    ensures forall k :: 0 <= k < |exclusions| ==> 0 < exclusions[k].count && exclusions[k].stage in StagesOf(q)
  {
    hide Passes;
    var stages := StagesOf(q);
    remaining, exclusions := contexts, [];
    FilterNone(contexts, q, stages[..0]);
    for k := 0 to |stages|
      invariant remaining == Filter(contexts, c => PassesAll(q, stages[..k], c))
      invariant ExclusionTotal(exclusions) == |contexts| - |remaining|
      invariant forall x :: 0 <= x < |exclusions| ==> 0 < exclusions[x].count && exclusions[x].stage in stages
    {
      var before := remaining;
      remaining := FilterBy(q, stages[k], before);
      FilterTwice(contexts, q, stages, k);
      if |before| > |remaining| {
        var added := exclusions + [Exclusion(stages[k], |before| - |remaining|)];
        assert added[..|exclusions|] == exclusions;
        exclusions := added;
      }
    }
    assert stages[..|stages|] == stages;
  }

  lemma {:induction false} FilterSnoc(items: seq<Context>, c: Context, keep: Context -> bool)
    ensures Filter(items + [c], keep) == Filter(items, keep) + (if keep(c) then [c] else [])
  {
    if items == [] {
      assert [c][1..] == [];
    } else {
      assert (items + [c])[1..] == items[1..] + [c];
      FilterSnoc(items[1..], c, keep);
    }
  }

  lemma {:induction false} FilterNone(items: seq<Context>, q: QuerySpec, stages: seq<Stage>)
    requires stages == []
    ensures Filter(items, c => PassesAll(q, stages, c)) == items
  {
    if items != [] {
      FilterNone(items[1..], q, stages);
    }
  }

  lemma {:induction false} FilterTwice(items: seq<Context>, q: QuerySpec, stages: seq<Stage>, k: nat)
    requires k < |stages|
    ensures Filter(Filter(items, c => PassesAll(q, stages[..k], c)), c => Passes(q, stages[k], c))
         == Filter(items, c => PassesAll(q, stages[..k + 1], c))
  {
    hide Passes;
    if items != [] {
      FilterTwice(items[1..], q, stages, k);
      var c := items[0];
      PassesAllSnoc(q, stages, k, c);
      var early := Filter(items[1..], x => PassesAll(q, stages[..k], x));
      assert ([c] + early)[1..] == early;
    }
  }

  lemma PassesAllSnoc(q: QuerySpec, stages: seq<Stage>, k: nat, c: Context)
    requires k < |stages|
    ensures PassesAll(q, stages[..k + 1], c) <==> PassesAll(q, stages[..k], c) && Passes(q, stages[k], c)
  {
    hide Passes;
    assert stages[..k + 1] == stages[..k] + [stages[k]];
  }

  lemma PassesAllConcat(q: QuerySpec, a: seq<Stage>, b: seq<Stage>, c: Context)
    ensures PassesAll(q, a + b, c) <==> PassesAll(q, a, c) && PassesAll(q, b, c)
  {
    hide Passes;
    if PassesAll(q, a + b, c) {
      forall k | 0 <= k < |a|
        ensures Passes(q, a[k], c)
      {
        assert (a + b)[k] == a[k];
      }
      forall k | 0 <= k < |b|
        ensures Passes(q, b[k], c)
      {
        assert (a + b)[|a| + k] == b[k];
      }
    }
  }

  lemma {:induction false} SwitchedOnPasses(q: QuerySpec, switches: seq<StageSwitch>, c: Context)
    ensures PassesAll(q, SwitchedOn(switches), c) <==> AllowsAll(q, switches, c)
  {
    hide Passes, PassesAll;
    if switches == [] {
      assert PassesAll(q, [], c) by { PassesNone(q, c); }
    } else {
      SwitchedOnPasses(q, switches[1..], c);
      var head := if switches[0].on then [switches[0].stage] else [];
      PassesAllConcat(q, head, SwitchedOn(switches[1..]), c);
      PassesHead(q, switches[0], c);
      assert forall k :: 0 < k < |switches| ==> switches[k] == switches[1..][k - 1];
      assert forall k :: 0 <= k < |switches| - 1 ==> switches[1..][k] == switches[k + 1];
    }
  }

  lemma PassesNone(q: QuerySpec, c: Context)
    ensures PassesAll(q, [], c)
  {
  }

  lemma PassesHead(q: QuerySpec, s: StageSwitch, c: Context)
    ensures PassesAll(q, if s.on then [s.stage] else [], c) <==> (s.on ==> Passes(q, s.stage, c))
  {
    hide Passes;
    if s.on {
      assert [s.stage][0] == s.stage;
    }
  }

  ghost predicate AllowsAll(q: QuerySpec, switches: seq<StageSwitch>, c: Context) {
    forall k :: 0 <= k < |switches| ==> Allows(q, switches[k], c)
  }

  predicate Allows(q: QuerySpec, s: StageSwitch, c: Context) { s.on ==> Passes(q, s.stage, c) }

  lemma FlagAllows(q: QuerySpec, expected: Option<bool>, flag: Flag, c: Context)
    ensures Allows(q, FlagSwitch(expected, flag), c) <==> Wanted(expected, FlagOf(flag, c))
  {
    hide FlagOf;
  }

  lemma ScopeAllows(q: QuerySpec, c: Context)
    ensures AllowsAll(q, ScopeSwitches(q), c)
       <==> (q.latestCycle ==> c.inCycle) && (q.levels == {} || c.record.level in q.levels)
  {
    var s := ScopeSwitches(q);
    assert AllowsAll(q, s, c) <==> Allows(q, s[0], c) && Allows(q, s[1], c);
  }

  lemma MetricAllows(q: QuerySpec, c: Context)
    ensures AllowsAll(q, MetricSwitches(q), c)
       <==> && Wanted(q.overdue, c.record.overdue > 0) && Wanted(q.broken, c.record.broken > 0)
            && Wanted(q.active, c.record.active > 0) && Wanted(q.disputed, c.record.disputes > 0)
  {
    hide Allows, Wanted, FlagSwitch;
    FlagAllows(q, q.overdue, IsOverdue, c);
    FlagAllows(q, q.broken, HasBroken, c);
    FlagAllows(q, q.active, HasActive, c);
    FlagAllows(q, q.disputed, HasDispute, c);
    var s := MetricSwitches(q);
    assert AllowsAll(q, s, c) <==> Allows(q, s[0], c) && Allows(q, s[1], c) && Allows(q, s[2], c) && Allows(q, s[3], c);
  }

  lemma FactAllows(q: QuerySpec, c: Context)
    ensures AllowsAll(q, FactSwitches(q), c)
       <==> && Wanted(q.partial, c.partial) && Wanted(q.recent, c.recent) && Wanted(q.actionable, c.actionable)
            && Wanted(q.blocked, c.blocked) && Wanted(q.monitoring, c.monitoring)
            && Wanted(q.changed, c.changed) && Wanted(q.held, c.held)
  {
    hide Allows, Wanted, FlagSwitch;
    FlagAllows(q, q.partial, PartlyPaid, c);
    FlagAllows(q, q.recent, RecentlyPaid, c);
    FlagAllows(q, q.actionable, IsActionable, c);
    FlagAllows(q, q.blocked, IsBlocked, c);
    FlagAllows(q, q.monitoring, IsMonitored, c);
    FlagAllows(q, q.changed, DecisionChanged, c);
    FlagAllows(q, q.held, DecisionHeld, c);
    var s := FactSwitches(q);
    assert AllowsAll(q, s, c) <==> && Allows(q, s[0], c) && Allows(q, s[1], c) && Allows(q, s[2], c)
                                   && Allows(q, s[3], c)
                                   && Allows(q, s[4], c) && Allows(q, s[5], c) && Allows(q, s[6], c);
  }

  lemma BoundAllows(q: QuerySpec, c: Context)
    ensures AllowsAll(q, BoundSwitches(q), c)
       <==> && AtLeast(q.minDays, c.record.maxDays) && AtMost(q.maxDays, c.record.maxDays)
            && AtLeast(q.minScore, c.record.score) && AtMost(q.maxScore, c.record.score)
            && AtLeast(q.minExposure, c.record.overdue) && AtMost(q.maxExposure, c.record.overdue)
  {
    var s := BoundSwitches(q);
    assert AllowsAll(q, s, c) <==> && Allows(q, s[0], c) && Allows(q, s[1], c) && Allows(q, s[2], c)
                                   && Allows(q, s[3], c) && Allows(q, s[4], c) && Allows(q, s[5], c) by { hide Allows; }
  }

  /** Passing every stage is the one-shot predicate, together with the cycle scope. */
  lemma StagesAreThePredicate(q: QuerySpec, c: Context)
    ensures PassesAll(q, StagesOf(q), c) <==> Matches(q, c) && (q.latestCycle ==> c.inCycle)
  {
    hide PassesAll, SwitchedOn, AllowsAll, ScopeSwitches, MetricSwitches, FactSwitches, BoundSwitches, Wanted, AtLeast,
        AtMost;
    var scope, metrics, facts, bounds := ScopeSwitches(q), MetricSwitches(q), FactSwitches(q), BoundSwitches(q);
    SwitchedOnPasses(q, scope, c);
    SwitchedOnPasses(q, metrics, c);
    SwitchedOnPasses(q, facts, c);
    SwitchedOnPasses(q, bounds, c);
    PassesAllConcat(q, SwitchedOn(scope), SwitchedOn(metrics), c);
    PassesAllConcat(q, SwitchedOn(scope) + SwitchedOn(metrics), SwitchedOn(facts), c);
    PassesAllConcat(q, SwitchedOn(scope) + SwitchedOn(metrics) + SwitchedOn(facts), SwitchedOn(bounds), c);
    ScopeAllows(q, c);
    MetricAllows(q, c);
    FactAllows(q, c);
    BoundAllows(q, c);
  }

  lemma {:induction false} FilterCongruent(items: seq<Context>, a: Context -> bool, b: Context -> bool)
    requires forall c :: a(c) <==> b(c)
    ensures Filter(items, a) == Filter(items, b)
  {
    if items != [] {
      FilterCongruent(items[1..], a, b);
    }
  }

  /** The staged query equals the one-shot predicate: it keeps, in order, exactly the records
      that match and are in scope. */
  lemma StagedEqualsOneShot(q: QuerySpec, contexts: seq<Context>)
    ensures Filter(contexts, c => PassesAll(q, StagesOf(q), c))
            == Filter(contexts, c => Matches(q, c) && (q.latestCycle ==> c.inCycle))
  {
    hide PassesAll, Matches, StagesOf;
    forall c: Context
      ensures PassesAll(q, StagesOf(q), c) <==> Matches(q, c) && (q.latestCycle ==> c.inCycle)
    {
      StagesAreThePredicate(q, c);
    }
    FilterCongruent(contexts, c => PassesAll(q, StagesOf(q), c), c => Matches(q, c) && (q.latestCycle ==> c.inCycle));
  }

  // ---------------------------------------------------------------- ranking

  function SortKey(r: Record, sortBy: SortBy): int {
    match sortBy
    case ByTotal => r.total
    case ByOverdue => r.overdue
    case ByDays => r.maxDays
    case ByLastPayment => if r.sincePayment.Some? then r.sincePayment.value else 1_000_000_000
    case ByRisk => r.score
  }

  function Direction(q: QuerySpec): int { if q.descending then -1 else 1 }

  /** Whether one record ranks strictly before another. */
  predicate Before(q: QuerySpec, a: Record, b: Record) {
    var ka, kb := SortKey(a, q.sortBy) * Direction(q), SortKey(b, q.sortBy) * Direction(q);
    if ka != kb then ka < kb
    else if a.rawScore != b.rawScore then a.rawScore > b.rawScore
    else if a.overdue != b.overdue then a.overdue > b.overdue
    else if a.maxDays != b.maxDays then a.maxDays > b.maxDays
    else a.id < b.id
  }

  lemma BeforeIsStrictOrder(q: QuerySpec, a: Record, b: Record, c: Record)
    ensures !Before(q, a, a)
    ensures Before(q, a, b) && Before(q, b, c) ==> Before(q, a, c)
    ensures a.id != b.id ==> Before(q, a, b) || Before(q, b, a)
  {
    hide SortKey, Direction;
  }

  ghost predicate Sorted(q: QuerySpec, items: seq<Record>) {
    forall i, j :: 0 <= i < j < |items| ==> Before(q, items[i], items[j])
  }

  predicate DistinctIds(items: seq<Record>) {
    forall i, j :: 0 <= i < j < |items| ==> items[i].id != items[j].id
  }

  /** Place a record behind those that rank before it. */
  function Insert(q: QuerySpec, r: Record, items: seq<Record>): (sorted: seq<Record>)
    ensures multiset(sorted) == multiset(items) + multiset{r}
  {
    if items == [] then [r]
    else if Before(q, items[0], r) then
      assert items == [items[0]] + items[1..];
      [items[0]] + Insert(q, r, items[1..])
    else [r] + items
  }

  /** The records in ranking order. */
  function Ranked(q: QuerySpec, items: seq<Record>): (sorted: seq<Record>)
    ensures multiset(sorted) == multiset(items)
  {
    if items == [] then []
    else
      assert items == [items[0]] + items[1..];
      Insert(q, items[0], Ranked(q, items[1..]))
  }

  lemma {:induction false} InsertSorts(q: QuerySpec, r: Record, items: seq<Record>)
    requires Sorted(q, items) && forall i :: 0 <= i < |items| ==> items[i].id != r.id
    ensures Sorted(q, Insert(q, r, items))
  {
    hide Before;
    if items != [] {
      BeforeIsStrictOrder(q, items[0], r, r);
      if Before(q, items[0], r) {
        InsertSorts(q, r, items[1..]);
        var rest := Insert(q, r, items[1..]);
        forall j | 0 <= j < |rest|
          ensures Before(q, items[0], rest[j])
        {
          assert rest[j] in multiset(rest);
          if rest[j] != r {
            assert rest[j] in items[1..];
          }
        }
      } else {
        BeforeIsStrictOrder(q, r, items[0], r);
        forall j | 0 < j < |items|
          ensures Before(q, r, items[j])
        {
          BeforeIsStrictOrder(q, r, items[0], items[j]);
        }
      }
    }
  }

  lemma {:induction false} RankedIsSorted(q: QuerySpec, items: seq<Record>)
    requires DistinctIds(items)
    ensures Sorted(q, Ranked(q, items))
  {
    hide Before;
    if items != [] {
      RankedIsSorted(q, items[1..]);
      var rest := Ranked(q, items[1..]);
      forall i | 0 <= i < |rest|
        ensures rest[i].id != items[0].id
      {
        assert rest[i] in multiset(rest);
        assert rest[i] in items[1..];
      }
      InsertSorts(q, items[0], rest);
    }
  }

  /** A sorted list is determined by the records in it. */
  lemma {:induction false} SortedIsUnique(q: QuerySpec, a: seq<Record>, b: seq<Record>)
    requires Sorted(q, a) && Sorted(q, b)
    requires forall r :: r in a <==> r in b
    ensures a == b
  {
    hide Before;
    assert b == [] || b[0] in a;
    if a != [] {
      assert a[0] in b && b != [];
      assert b[0] in a;
      var i :| 0 <= i < |a| && a[i] == b[0];
      var j :| 0 <= j < |b| && b[j] == a[0];
      BeforeIsStrictOrder(q, a[0], b[0], a[0]);
      assert a[0] == b[0];
      TailWithoutHead(q, a);
      TailWithoutHead(q, b);
      SortedIsUnique(q, a[1..], b[1..]);
    }
  }

  lemma TailWithoutHead(q: QuerySpec, a: seq<Record>)
    requires a != [] && Sorted(q, a)
    ensures forall r :: r in a[1..] <==> r in a && r != a[0]
  {
    hide Before;
    forall r | r in a[1..]
      ensures r != a[0]
    {
      var k :| 0 <= k < |a[1..]| && a[1..][k] == r;
      BeforeIsStrictOrder(q, a[0], a[0], a[0]);
      assert Before(q, a[0], a[k + 1]);
    }
  }

  function Records(items: seq<Context>): (r: seq<Record>)
    ensures |r| == |items| && forall k :: 0 <= k < |items| ==> r[k] == items[k].record
  {
    if items == [] then [] else [items[0].record] + Records(items[1..])
  }

  function Limited(q: QuerySpec, items: seq<Record>): seq<Record> {
    if q.countOnly || q.limit.None? || |items| <= q.limit.value then items else items[..q.limit.value]
  }

  /** The records that match and are in scope, in ranking order. */
  function RankedMatches(q: QuerySpec, contexts: seq<Context>): seq<Record> {
    Ranked(q, Records(Filter(contexts, c => Matches(q, c) && (q.latestCycle ==> c.inCycle))))
  }

  /** What a query returns: the ranked matches, up to its limit. */
  function Answer(q: QuerySpec, contexts: seq<Context>): seq<Record> { Limited(q, RankedMatches(q, contexts)) }

  /** Executing a query in stages, sorting and cutting off gives that answer. */
  method ExecuteQuery(q: QuerySpec, contexts: seq<Context>)
      returns (returned: seq<Record>, inspected: nat, matchCount: nat, exclusions: seq<Exclusion>)
    ensures returned == Answer(q, contexts)
    ensures inspected == |contexts| && matchCount + ExclusionTotal(exclusions) == inspected
  {
    hide Matches, PassesAll, StagesOf, Ranked;
    var remaining;
    remaining, exclusions := ApplyPredicates(q, contexts);
    StagedEqualsOneShot(q, contexts);
    inspected, matchCount := |contexts|, |remaining|;
    var matched := Ranked(q, Records(remaining));
    returned := Limited(q, matched);
  }

  predicate InScope(q: QuerySpec, c: Context) { Matches(q, c) && (q.latestCycle ==> c.inCycle) }

  lemma {:induction false} FilterElements(items: seq<Context>, keep: Context -> bool)
    ensures forall c :: c in Filter(items, keep) <==> c in items && keep(c)
  {
    if items != [] {
      FilterElements(items[1..], keep);
    }
  }

  lemma {:induction false} FilterKeepsDistinct(items: seq<Context>, keep: Context -> bool)
    requires DistinctIds(Records(items))
    ensures DistinctIds(Records(Filter(items, keep)))
  {
    if items != [] {
      assert Records(items)[1..] == Records(items[1..]);
      FilterKeepsDistinct(items[1..], keep);
      FilterElements(items[1..], keep);
      var rest := Filter(items[1..], keep);
      forall j | 0 <= j < |rest|
        ensures rest[j].record.id != items[0].record.id
      {
        assert rest[j] in items[1..];
        var k :| 0 <= k < |items[1..]| && items[1..][k] == rest[j];
        assert Records(items)[0].id != Records(items)[k + 1].id;
      }
      if keep(items[0]) {
        assert Records(Filter(items, keep)) == [items[0].record] + Records(rest);
      }
    }
  }

  lemma RecordElements(items: seq<Context>, r: Record)
    ensures r in Records(items) <==> exists c :: c in items && c.record == r
  {
    if r in Records(items) {
      var k :| 0 <= k < |items| && Records(items)[k] == r;
      assert items[k] in items;
    }
    if c :| c in items && c.record == r {
      var k :| 0 <= k < |items| && items[k] == c;
      assert Records(items)[k] == r;
    }
  }

  lemma RankedMatchesAre(q: QuerySpec, contexts: seq<Context>, r: Record)
    requires DistinctIds(Records(contexts))
    ensures Sorted(q, RankedMatches(q, contexts))
    ensures r in RankedMatches(q, contexts) <==> exists c :: c in contexts && InScope(q, c) && c.record == r
  {
    hide Matches, Before;
    var keep := c => Matches(q, c) && (q.latestCycle ==> c.inCycle);
    var kept := Filter(contexts, keep);
    FilterKeepsDistinct(contexts, keep);
    RankedIsSorted(q, Records(kept));
    FilterElements(contexts, keep);
    RecordElements(kept, r);
    assert r in Ranked(q, Records(kept)) <==> r in multiset(Ranked(q, Records(kept)));
    assert r in Records(kept) <==> r in multiset(Records(kept));
    if c :| c in contexts && InScope(q, c) && c.record == r {
      assert c in kept;
    }
  }

  /** The answer does not depend on the order in which the records were looked at. */
  lemma OrderDoesNotMatter(q: QuerySpec, a: seq<Context>, b: seq<Context>)
    requires DistinctIds(Records(a)) && DistinctIds(Records(b))
    requires forall c :: c in a <==> c in b
    ensures Answer(q, a) == Answer(q, b)
  {
    hide Matches, Before, Ranked;
    forall r: Record
      ensures r in RankedMatches(q, a) <==> r in RankedMatches(q, b)
    {
      RankedMatchesAre(q, a, r);
      RankedMatchesAre(q, b, r);
      if c :| c in a && InScope(q, c) && c.record == r {
        assert c in b;
      }
      if c :| c in b && InScope(q, c) && c.record == r {
        assert c in a;
      }
    }
    var any := Record(0, Low, 0, 0, 0, 0, 0, 0, 0, 0, None);
    RankedMatchesAre(q, a, any);
    RankedMatchesAre(q, b, any);
    SortedIsUnique(q, RankedMatches(q, a), RankedMatches(q, b));
  }

  /** A limited answer is the top of the ranking: as many matches as the limit allows, in
      ranking order, and every one of them ranks before every match that was cut off. */
  lemma AnswerIsTheTop(q: QuerySpec, contexts: seq<Context>, c: Context)
    requires DistinctIds(Records(contexts))
    requires c in contexts && InScope(q, c)
    ensures var answer := Answer(q, contexts);
            && Sorted(q, answer)
            && |answer| == (if q.countOnly || q.limit.None? then |RankedMatches(q, contexts)|
                            else Min(q.limit.value, |RankedMatches(q, contexts)|))
            && (c.record in answer || forall k :: 0 <= k < |answer| ==> Before(q, answer[k], c.record))
  {
    hide Matches, Before, Ranked, Sorted, InScope;
    RankedMatchesAre(q, contexts, c.record);
    var all := RankedMatches(q, contexts);
    LimitedIsTheTop(q, all, c.record);
  }

  lemma LimitedIsTheTop(q: QuerySpec, all: seq<Record>, r: Record)
    requires Sorted(q, all) && r in all
    ensures Sorted(q, Limited(q, all))
    ensures r in Limited(q, all) || forall k :: 0 <= k < |Limited(q, all)| ==> Before(q, Limited(q, all)[k], r)
  {
    hide Before;
    var i :| 0 <= i < |all| && all[i] == r;
    if i < |Limited(q, all)| {
      assert Limited(q, all)[i] == r;
    }
  }

  /** The field a query sorts by; a customer who never paid counts as longest without payment. */
  predicate FieldAtMost(q: QuerySpec, a: Record, b: Record) {
    match q.sortBy
    case ByRisk => a.score <= b.score
    case ByTotal => a.total <= b.total
    case ByOverdue => a.overdue <= b.overdue
    case ByDays => a.maxDays <= b.maxDays
    case ByLastPayment =>
      if a.sincePayment.Some? && b.sincePayment.Some? then a.sincePayment.value <= b.sincePayment.value
      else if a.sincePayment.Some? then a.sincePayment.value <= 1_000_000_000
      else if b.sincePayment.Some? then 1_000_000_000 <= b.sincePayment.value
      else true
  }

  /** What it means to rank before another record, on the fields: descending queries put larger
      fields first and ascending ones smaller ones; ties fall to the higher raw score, then the
      higher overdue exposure, then the older debt, then the identity. */
  lemma BeforeExactly(q: QuerySpec, a: Record, b: Record)
    ensures Before(q, a, b) ==> if q.descending then FieldAtMost(q, b, a) else FieldAtMost(q, a, b)
    ensures Before(q, a, b) && FieldAtMost(q, a, b) && FieldAtMost(q, b, a) ==>
              || b.rawScore < a.rawScore
              || (b.rawScore == a.rawScore && b.overdue < a.overdue)
              || (b.rawScore == a.rawScore && b.overdue == a.overdue && b.maxDays < a.maxDays)
              || (b.rawScore == a.rawScore && b.overdue == a.overdue && b.maxDays == a.maxDays && a.id < b.id)
  {
  }

  /** The answer on the fields. Along the answer the sort field never rises in a descending query
      and never falls in an ascending one, and no matching record that was cut off belongs in
      front of one that was returned. */
  lemma AnswerFollowsTheField(q: QuerySpec, contexts: seq<Context>, c: Context, k: nat)
    requires DistinctIds(Records(contexts))
    requires c in contexts && InScope(q, c) && k < |Answer(q, contexts)|
    ensures var answer := Answer(q, contexts);
            && (forall j :: k < j < |answer| ==>
                  if q.descending then FieldAtMost(q, answer[j], answer[k]) else FieldAtMost(q, answer[k], answer[j]))
            && (c.record !in answer ==>
                  if q.descending then FieldAtMost(q, c.record, answer[k]) else FieldAtMost(q, answer[k], c.record))
  {
    hide Before, FieldAtMost, Answer, InScope;
    AnswerIsTheTop(q, contexts, c);
    var answer := Answer(q, contexts);
    forall j | k < j < |answer|
      ensures if q.descending then FieldAtMost(q, answer[j], answer[k]) else FieldAtMost(q, answer[k], answer[j])
    {
      BeforeExactly(q, answer[k], answer[j]);
    }
    BeforeExactly(q, answer[k], c.record);
  }

  // ---------------------------------------------------------------- the predicate and the limit, field by field

  /** Every bound that is set holds, inclusively. */
  predicate WithinBounds(q: QuerySpec, r: Record) {
    && (q.minDays.Some? ==> q.minDays.value <= r.maxDays) && (q.maxDays.Some? ==> r.maxDays <= q.maxDays.value)
    && (q.minScore.Some? ==> q.minScore.value <= r.score) && (q.maxScore.Some? ==> r.score <= q.maxScore.value)
    && (q.minExposure.Some? ==> q.minExposure.value <= r.overdue)
    && (q.maxExposure.Some? ==> r.overdue <= q.maxExposure.value)
  }

  /** No flag that is set has the unwanted value: flags on the metrics, and on the other facts. */
  predicate MetricsAsWanted(q: QuerySpec, r: Record) {
    && q.overdue != Some(r.overdue <= 0) && q.broken != Some(r.broken == 0)
    && q.active != Some(r.active == 0) && q.disputed != Some(r.disputes == 0)
  }

  predicate FactsAsWanted(q: QuerySpec, c: Context) {
    && q.partial != Some(!c.partial) && q.recent != Some(!c.recent) && q.actionable != Some(!c.actionable)
    && q.blocked != Some(!c.blocked) && q.monitoring != Some(!c.monitoring)
    && q.changed != Some(!c.changed) && q.held != Some(!c.held)
  }

  lemma WantedExactly(expected: Option<bool>, actual: bool)
    ensures Wanted(expected, actual) <==> expected != Some(!actual)
  {
  }

  lemma MetricFlagsExactly(q: QuerySpec, r: Record)
    ensures MetricsAsWanted(q, r) <==>
              && Wanted(q.overdue, r.overdue > 0) && Wanted(q.broken, r.broken > 0)
              && Wanted(q.active, r.active > 0) && Wanted(q.disputed, r.disputes > 0)
  {
    hide Wanted;
    WantedExactly(q.overdue, r.overdue > 0);
    WantedExactly(q.broken, r.broken > 0);
    WantedExactly(q.active, r.active > 0);
    WantedExactly(q.disputed, r.disputes > 0);
  }

  lemma FactFlagsExactly(q: QuerySpec, c: Context)
    ensures FactsAsWanted(q, c) <==>
              && Wanted(q.partial, c.partial) && Wanted(q.recent, c.recent) && Wanted(q.actionable, c.actionable)
              && Wanted(q.blocked, c.blocked) && Wanted(q.monitoring, c.monitoring)
              && Wanted(q.changed, c.changed) && Wanted(q.held, c.held)
  {
    hide Wanted;
    WantedExactly(q.partial, c.partial);
    WantedExactly(q.recent, c.recent);
    WantedExactly(q.actionable, c.actionable);
    WantedExactly(q.blocked, c.blocked);
    WantedExactly(q.monitoring, c.monitoring);
    WantedExactly(q.changed, c.changed);
    WantedExactly(q.held, c.held);
  }

  /** What a record must be like to be in scope: it belongs to the latest cycle and to the levels
      asked for, if any are, is within the bounds, and has its flags as wanted. */
  lemma MatchesExactly(q: QuerySpec, c: Context)
    ensures InScope(q, c) <==>
              && (q.latestCycle ==> c.inCycle) && (q.levels != {} ==> c.record.level in q.levels)
              && WithinBounds(q, c.record) && MetricsAsWanted(q, c.record) && FactsAsWanted(q, c)
  {
    hide Wanted, MetricsAsWanted, FactsAsWanted;
    MetricFlagsExactly(q, c.record);
    FactFlagsExactly(q, c);
  }

  /** How much is returned: everything for a count or without a limit, and else the first records
      up to the limit. */
  lemma LimitExactly(q: QuerySpec, contexts: seq<Context>)
    ensures var all, answer := RankedMatches(q, contexts), Answer(q, contexts);
            && answer == all[..|answer|]
            && (q.countOnly || q.limit == None ==> answer == all)
            && (!q.countOnly && q.limit.Some? ==> |answer| == if q.limit.value <= |all| then q.limit.value else |all|)
  {
    hide RankedMatches;
  }
}
