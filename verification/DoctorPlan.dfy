// The guided plan of src/core/doctor_plan.c: the recommendations in a fixed
// order, each with the step it should wait for.

module DoctorPlan {
  import opened Listings
  import opened RecommendationList
  import opened Recommendations
  import opened StableSort

  // Title, risk and note are left out.
  datatype Step = Step(
    id: string, command: string, severity: Severity, requiresAdmin: bool, rollback: bool, confidence: int,
    applyable: bool, order: nat, dependsOn: string)

  const MAX_STEPS: nat := MAX_RECOMMENDATIONS

  // strncmp with these lengths leaves the last letter of each prefix out.
  predicate Applyable(r: Recommendation) {
    && r.action != ""
    && (|| Text(r.id) == "WT-POWER-001" || Text(r.id) == "WT-POWER-002"
        || "wintune apply WT-STARTUP-DISABL" <= r.action || "wintune apply WT-STARTUP-DELA" <= r.action
        || "wintune apply WT-TASK-DISABL" <= r.action || "wintune apply WT-TASK-DELA" <= r.action)
  }

  function StepOf(r: Recommendation): Step {
    Step(Text(r.id), r.action, r.severity, r.requiresAdmin, r.rollback, r.confidence, Applyable(r), 0, "")
  }

  function StepsOf(recs: seq<Recommendation>): (steps: seq<Step>)
    ensures |steps| == |recs| && forall i :: 0 <= i < |recs| ==> steps[i] == StepOf(recs[i])
  {
    seq(|recs|, i requires 0 <= i < |recs| => StepOf(recs[i]))
  }

  // ---- the order ----

  function Rank(id: string): nat {
    if "WT-BLOCKER-" <= id then 10
    else if "WT-UPDATE-" <= id then 15
    else if "WT-POWER-" <= id then 20
    else if "WT-MEMORY-" <= id || "WT-DISK-" <= id || "WT-CPU-" <= id || "WT-GPU-" <= id
            || "WT-RELIABILITY-" <= id || "WT-MAINT-" <= id then 30
    else if "WT-BOOT-" <= id then 40
    else if "WT-STARTUP-" <= id then 50
    else if "WT-UNINSTALL-" <= id then 55
    else if "WT-TASK-" <= id then 60
    else 80
  }

  function Weight(s: Severity): nat {
    match s
    case Info => 0
    case Low => 1
    case Medium => 2
    case High => 3
    case Critical => 4
  }

  // strcmp(a, b) < 0.
  predicate StrLess(a: string, b: string) {
    b != "" && (a == "" || a[0] < b[0] || (a[0] == b[0] && StrLess(a[1..], b[1..])))
  }

  predicate Precedes(a: Step, b: Step) {
    if Rank(a.id) != Rank(b.id) then Rank(a.id) < Rank(b.id)
    else if a.severity != b.severity then Weight(a.severity) > Weight(b.severity)
    else if a.applyable != b.applyable then a.applyable
    else StrLess(a.id, b.id)
  }

  function StepLess(): (Step, Step) -> bool {
    (a: Step, b: Step) => Precedes(a, b)
  }

  lemma {:induction false} StrIrreflexive(a: string)
    ensures !StrLess(a, a)
  {
    if a != "" {
      StrIrreflexive(a[1..]);
    }
  }

  lemma {:induction false} StrTransitive(a: string, b: string, c: string)
    ensures StrLess(a, b) && StrLess(b, c) ==> StrLess(a, c)
  {
    if a != "" && b != "" && c != "" {
      StrTransitive(a[1..], b[1..], c[1..]);
    }
  }

  lemma {:induction false} StrBetween(a: string, b: string, c: string)
    ensures StrLess(a, c) ==> StrLess(a, b) || StrLess(b, c)
  {
    if a != "" && b != "" && c != "" {
      StrBetween(a[1..], b[1..], c[1..]);
    }
  }

  // The comparison of steps is a strict weak order, so sorting by it has one
  // stable outcome.
  lemma StepLessIsWeakOrder()
    ensures WeakOrder(StepLess())
  {
    hide Rank, StrLess;
    forall x ensures !StepLess()(x, x) {
      StrIrreflexive(x.id);
    }
    forall x, y, z | StepLess()(x, y) && StepLess()(y, z) ensures StepLess()(x, z) {
      StrTransitive(x.id, y.id, z.id);
    }
    forall x, y, z | StepLess()(x, z) ensures StepLess()(x, y) || StepLess()(y, z) {
      StrBetween(x.id, y.id, z.id);
    }
  }

  // ---- dependencies ----

  datatype Role = Blocking | PowerChange | StartupChange

  // What assign_depends remembers of a step.
  predicate Plays(s: Step, role: Role) {
    match role
    case Blocking => "WT-BLOCKER-" <= s.id
    case PowerChange => "WT-POWER-" <= s.id && s.applyable
    case StartupChange => "WT-STARTUP-" <= s.id
  }

  // The id of the last of them; "" for none.
  function Last(steps: seq<Step>, role: Role): string {
    if steps == [] then ""
    else if Plays(steps[|steps| - 1], role) then steps[|steps| - 1].id
    else Last(steps[..|steps| - 1], role)
  }

  function Or(a: string, b: string): string {
    if a != "" then a else b
  }

  // What a step waits for, given the last ones.
  function WaitsFor(s: Step, blocker: string, power: string, startup: string): string {
    if "WT-UPDATE-" <= s.id || "WT-POWER-" <= s.id then blocker
    else if "WT-STARTUP-" <= s.id then Or(power, blocker)
    else if "WT-TASK-" <= s.id then Or(startup, power)
    else if "WT-BOOT-" <= s.id then startup
    else ""
  }

  function Dependence(before: seq<Step>, s: Step): string {
    WaitsFor(s, Last(before, Blocking), Last(before, PowerChange), Last(before, StartupChange))
  }

  function Numbered(s: Step, k: nat): Step {
    s.(order := k + 1)
  }

  // The finished steps, from the sorted ones.
  function Linked(steps: seq<Step>): (r: seq<Step>)
    ensures |r| == |steps|
    ensures forall i :: 0 <= i < |steps| ==> r[i] == steps[i].(order := i + 1, dependsOn := Dependence(steps[..i], steps[i]))
  {
    seq(|steps|, i requires 0 <= i < |steps| => steps[i].(order := i + 1, dependsOn := Dependence(steps[..i], steps[i])))
  }

  function Plan(recs: seq<Recommendation>): seq<Step> {
    Linked(Sort(StepLess(), StepsOf(recs)))
  }

  // ---- what every plan keeps ----

  lemma {:induction false} LastIsThere(steps: seq<Step>, role: Role)
    ensures Last(steps, role) != "" ==> exists j :: 0 <= j < |steps| && steps[j].id == Last(steps, role) && Plays(steps[j], role)
    ensures (exists j :: 0 <= j < |steps| && Plays(steps[j], role)) ==> Last(steps, role) != ""
  {
    if steps != [] && !Plays(steps[|steps| - 1], role) {
      LastIsThere(steps[..|steps| - 1], role);
      if Last(steps, role) != "" {
        var front := steps[..|steps| - 1];
        var j :| 0 <= j < |front| && front[j].id == Last(steps, role) && Plays(front[j], role);
        assert steps[j] == front[j];
      }
      if j :| 0 <= j < |steps| && Plays(steps[j], role) {
        assert steps[..|steps| - 1][j] == steps[j];
      }
    }
  }

  lemma {:induction false} LastIgnores(steps: seq<Step>, i: nat, role: Role)
    requires i <= |steps| && forall k :: i <= k < |steps| ==> !Plays(steps[k], role)
    ensures Last(steps, role) == Last(steps[..i], role)
  {
    if i < |steps| {
      LastIgnores(steps[..|steps| - 1], i, role);
      assert steps[..|steps| - 1][..i] == steps[..i];
    } else {
      assert steps[..i] == steps;
    }
  }

  lemma RanksAscend(steps: seq<Step>, i: nat, k: nat)
    requires Sorted(StepLess(), steps) && i < k < |steps|
    ensures Rank(steps[i].id) <= Rank(steps[k].id)
  {
    assert !StepLess()(steps[k], steps[i]);
  }

  // Roles by rank: the prefixes exclude each other.
  lemma RoleRank(s: Step)
    ensures Plays(s, Blocking) <==> Rank(s.id) == 10
    ensures Plays(s, PowerChange) ==> Rank(s.id) == 20
    ensures Plays(s, StartupChange) <==> Rank(s.id) == 50
    ensures "WT-UPDATE-" <= s.id <==> Rank(s.id) == 15
    ensures "WT-POWER-" <= s.id <==> Rank(s.id) == 20
    ensures "WT-BOOT-" <= s.id <==> Rank(s.id) == 40
    ensures "WT-TASK-" <= s.id <==> Rank(s.id) == 60
  {
    PrefixesExclude(s.id);
  }

  lemma PrefixesExclude(id: string)
    ensures "WT-BLOCKER-" <= id ==> |id| > 4 && id[3] == 'B' && id[4] == 'L'
    ensures "WT-BOOT-" <= id ==> |id| > 4 && id[3] == 'B' && id[4] == 'O'
    ensures "WT-UPDATE-" <= id ==> |id| > 4 && id[3] == 'U' && id[4] == 'P'
    ensures "WT-UNINSTALL-" <= id ==> |id| > 4 && id[3] == 'U' && id[4] == 'N'
    ensures "WT-POWER-" <= id ==> |id| > 4 && id[3] == 'P'
    ensures "WT-STARTUP-" <= id ==> |id| > 4 && id[3] == 'S' && id[4] == 'T'
    ensures "WT-SEARCH-" <= id ==> |id| > 4 && id[3] == 'S' && id[4] == 'E'
    ensures "WT-AUDIO-" <= id ==> |id| > 4 && id[3] == 'A'
    ensures "WT-TASK-" <= id ==> |id| > 4 && id[3] == 'T'
    ensures "WT-MEMORY-" <= id || "WT-MAINT-" <= id ==> |id| > 4 && id[3] == 'M'
    ensures "WT-DISK-" <= id ==> |id| > 4 && id[3] == 'D'
    ensures "WT-CPU-" <= id ==> |id| > 4 && id[3] == 'C'
    ensures "WT-GPU-" <= id ==> |id| > 4 && id[3] == 'G'
    ensures "WT-RELIABILITY-" <= id ==> |id| > 4 && id[3] == 'R'
  {
  }

  // A step waits for nothing, or for the id of an earlier step.
  lemma WaitsForEarlier(steps: seq<Step>, i: nat)
    requires i < |steps|
    ensures var d := Dependence(steps[..i], steps[i]); d != "" ==> exists j :: 0 <= j < i && steps[j].id == d
  {
    LastIsThere(steps[..i], Blocking);
    LastIsThere(steps[..i], PowerChange);
    LastIsThere(steps[..i], StartupChange);
    var d := Dependence(steps[..i], steps[i]);
    if d != "" {
      var role := if d == Last(steps[..i], Blocking) then Blocking else if d == Last(steps[..i], PowerChange) then PowerChange else StartupChange;
      var j :| 0 <= j < i && steps[..i][j].id == d && Plays(steps[..i][j], role);
      assert steps[j].id == d;
    }
  }

  // In sorted steps all that play a role of lower rank come before, so "the last
  // so far" is the last of the whole plan.
  lemma LastSoFar(steps: seq<Step>, i: nat, role: Role)
    requires Sorted(StepLess(), steps) && i < |steps|
    requires match role case Blocking => Rank(steps[i].id) > 10 case PowerChange => Rank(steps[i].id) > 20
             case StartupChange => Rank(steps[i].id) > 50
    ensures Last(steps[..i], role) == Last(steps, role)
  {
    hide Plays, Rank;
    forall k | i <= k < |steps| ensures !Plays(steps[k], role) {
      RoleRank(steps[k]);
      if k > i {
        RanksAscend(steps, i, k);
      }
    }
    LastIgnores(steps, i, role);
  }

  lemma NoStartupYet(steps: seq<Step>, i: nat)
    requires Sorted(StepLess(), steps) && i < |steps| && Rank(steps[i].id) < 50
    ensures Last(steps[..i], StartupChange) == ""
  {
    hide Plays, Rank;
    LastIsThere(steps[..i], StartupChange);
    if Last(steps[..i], StartupChange) != "" {
      var j :| 0 <= j < i && steps[..i][j].id == Last(steps[..i], StartupChange) && Plays(steps[..i][j], StartupChange);
      RoleRank(steps[j]);
      RanksAscend(steps, j, i);
      assert false;
    }
  }

  // What every step of a plan waits for, said without regard to its place:
  // updates and power steps for the last blocker of the plan, startup steps for
  // its last applicable power step or else the blocker, task steps for its last
  // startup step or else the power step, and no boot step for anything.
  lemma DependenciesOfSorted(steps: seq<Step>, i: nat)
    requires Sorted(StepLess(), steps) && i < |steps|
    ensures Dependence(steps[..i], steps[i])
         == if "WT-BOOT-" <= steps[i].id then ""
            else WaitsFor(steps[i], Last(steps, Blocking), Last(steps, PowerChange), Last(steps, StartupChange))
  {
    hide Plays, Rank, Last;
    RoleRank(steps[i]);
    var r := Rank(steps[i].id);
    if r > 10 {
      LastSoFar(steps, i, Blocking);
    }
    if r > 20 {
      LastSoFar(steps, i, PowerChange);
    }
    if r > 50 {
      LastSoFar(steps, i, StartupChange);
    }
    if r == 40 {
      NoStartupYet(steps, i);
    }
    StartupIsFifty(steps[i].id);
  }

  lemma StartupIsFifty(id: string)
    ensures "WT-STARTUP-" <= id <==> Rank(id) == 50
  {
    PrefixesExclude(id);
  }

  // The plan is the stable sort of the recommendations, one step for each.
  lemma PlanIsStableSort(recs: seq<Recommendation>)
    ensures |Plan(recs)| == |recs|
    ensures exists sorted ::
      && Sorted(StepLess(), sorted) && multiset(sorted) == multiset(StepsOf(recs))
      && (forall p :: Ties(StepLess(), sorted, p) == Ties(StepLess(), StepsOf(recs), p))
      && Plan(recs) == Linked(sorted)
  {
    StepLessIsWeakOrder();
    SortIsStable(StepLess(), StepsOf(recs));
    assert Plan(recs) == Linked(Sort(StepLess(), StepsOf(recs)));
  }

  // Every recommendation is a step, with what it says.
  lemma PlanCarries(recs: seq<Recommendation>, r: Recommendation)
    requires r in recs
    ensures exists i :: && 0 <= i < |Plan(recs)|
                        && var s := Plan(recs)[i];
                           && s.id == Text(r.id) && s.command == r.action && s.severity == r.severity
                           && s.requiresAdmin == r.requiresAdmin && s.rollback == r.rollback && s.confidence == r.confidence
                           && s.applyable == Applyable(r)
  {
    hide Sort, Applyable, Text, Ties, Dependence;
    StepLessIsWeakOrder();
    SortIsStable(StepLess(), StepsOf(recs));
    var k :| 0 <= k < |recs| && recs[k] == r;
    assert StepsOf(recs)[k] in multiset(StepsOf(recs));
    var sorted := Sort(StepLess(), StepsOf(recs));
    assert StepOf(r) in multiset(sorted);
    var i :| 0 <= i < |sorted| && sorted[i] == StepOf(r);
    assert Plan(recs)[i].id == Text(r.id);
  }

  // The facts about dependencies, of any plan.
  lemma PlanDependencies(recs: seq<Recommendation>, i: nat)
    requires i < |Plan(recs)|
    ensures var plan := Plan(recs);
      && plan[i].order == i + 1
      && (plan[i].dependsOn != "" ==> exists j :: 0 <= j < i && plan[j].id == plan[i].dependsOn)
      && plan[i].dependsOn
         == if "WT-BOOT-" <= plan[i].id then ""
            else WaitsFor(plan[i], Last(plan, Blocking), Last(plan, PowerChange), Last(plan, StartupChange))
  {
    hide Sort, WaitsFor, StepsOf, Last, Sorted, WeakOrder, Precedes, Ties;
    StepLessIsWeakOrder();
    SortIsStable(StepLess(), StepsOf(recs));
    var sorted := Sort(StepLess(), StepsOf(recs));
    var plan := Plan(recs);
    WaitsForEarlier(sorted, i);
    DependenciesOfSorted(sorted, i);
    LastOfLinked(sorted, plan, Blocking);
    LastOfLinked(sorted, plan, PowerChange);
    LastOfLinked(sorted, plan, StartupChange);
    SameWaits(sorted[i], plan[i], Last(plan, Blocking), Last(plan, PowerChange), Last(plan, StartupChange));
    if plan[i].dependsOn != "" {
      var j :| 0 <= j < i && sorted[j].id == plan[i].dependsOn;
      assert plan[j].id == sorted[j].id;
    }
  }

  // ---- the same, told by the ids alone ----

  // j is the last step of a plan with this prefix, one that can be applied if so asked.
  ghost predicate LastOf(plan: seq<Step>, j: nat, prefix: string, applied: bool) {
    && j < |plan| && prefix <= plan[j].id && (applied ==> plan[j].applyable)
    && forall k :: j < k < |plan| && prefix <= plan[k].id ==> applied && !plan[k].applyable
  }

  ghost predicate NoneOf(plan: seq<Step>, prefix: string, applied: bool) {
    forall k :: 0 <= k < |plan| && prefix <= plan[k].id ==> applied && !plan[k].applyable
  }

  ghost predicate WaitsForLast(plan: seq<Step>, wait: string, prefix: string, applied: bool) {
    exists j: nat :: LastOf(plan, j, prefix, applied) && plan[j].id == wait
  }

  function RolePrefix(role: Role): string {
    match role case Blocking => "WT-BLOCKER-" case PowerChange => "WT-POWER-" case StartupChange => "WT-STARTUP-"
  }

  lemma PlaysIs(s: Step, role: Role)
    ensures Plays(s, role) <==> RolePrefix(role) <= s.id && (role.PowerChange? ==> s.applyable)
  {
  }

  lemma {:induction false} LastMeans(plan: seq<Step>, role: Role)
    ensures if NoneOf(plan, RolePrefix(role), role.PowerChange?) then Last(plan, role) == ""
            else Last(plan, role) != "" && WaitsForLast(plan, Last(plan, role), RolePrefix(role), role.PowerChange?)
  {
    hide Plays, RolePrefix;
    var prefix := RolePrefix(role);
    if plan != [] {
      var front, last := plan[..|plan| - 1], plan[|plan| - 1];
      PlaysIs(last, role);
      PrefixIsLong(role);
      if Plays(last, role) {
        assert LastOf(plan, |plan| - 1, prefix, role.PowerChange?);
      } else {
        LastMeans(front, role);
        if !NoneOf(plan, prefix, role.PowerChange?) {
          var k :| 0 <= k < |plan| && prefix <= plan[k].id && !(role.PowerChange? && !plan[k].applyable);
          assert front[k] == plan[k];
          var j: nat :| LastOf(front, j, prefix, role.PowerChange?) && front[j].id == Last(front, role);
          StaysLast(plan, j, prefix, role.PowerChange?);
        }
      }
    }
  }

  lemma PrefixIsLong(role: Role)
    ensures |RolePrefix(role)| > 0
  {
  }

  lemma StaysLast(plan: seq<Step>, j: nat, prefix: string, applied: bool)
    requires plan != [] && LastOf(plan[..|plan| - 1], j, prefix, applied)
    requires prefix <= plan[|plan| - 1].id ==> applied && !plan[|plan| - 1].applyable
    ensures LastOf(plan, j, prefix, applied)
  {
    assert forall k :: 0 <= k < |plan| - 1 ==> plan[..|plan| - 1][k] == plan[k];
  }

  // Updates and power steps wait for the plan's last blocker; startup steps for
  // its last power step that can be applied, else the blocker; task steps for its
  // last startup step, else that power step; and no other step for anything.
  lemma WaitsForWhom(recs: seq<Recommendation>, i: nat)
    requires i < |Plan(recs)|
    ensures var plan := Plan(recs); var id, wait := plan[i].id, plan[i].dependsOn;
      && ("WT-UPDATE-" <= id || "WT-POWER-" <= id ==>
            if NoneOf(plan, "WT-BLOCKER-", false) then wait == "" else WaitsForLast(plan, wait, "WT-BLOCKER-", false))
      && ("WT-STARTUP-" <= id ==>
            if !NoneOf(plan, "WT-POWER-", true) then WaitsForLast(plan, wait, "WT-POWER-", true)
            else if !NoneOf(plan, "WT-BLOCKER-", false) then WaitsForLast(plan, wait, "WT-BLOCKER-", false)
            else wait == "")
      && ("WT-TASK-" <= id ==>
            if !NoneOf(plan, "WT-STARTUP-", false) then WaitsForLast(plan, wait, "WT-STARTUP-", false)
            else if !NoneOf(plan, "WT-POWER-", true) then WaitsForLast(plan, wait, "WT-POWER-", true)
            else wait == "")
      && (!("WT-UPDATE-" <= id) && !("WT-POWER-" <= id) && !("WT-STARTUP-" <= id) && !("WT-TASK-" <= id) ==> wait == "")
  {
    hide Plan, Last, NoneOf, WaitsForLast;
    var plan := Plan(recs);
    PlanDependencies(recs, i);
    LastMeans(plan, Blocking);
    LastMeans(plan, PowerChange);
    LastMeans(plan, StartupChange);
    PrefixesExclude(plan[i].id);
  }

  // The order of the categories, each by the prefixes of its ids.
  const CATEGORIES: seq<set<string>> := [
    {"WT-BLOCKER-"}, {"WT-UPDATE-"}, {"WT-POWER-"},
    {"WT-MEMORY-", "WT-DISK-", "WT-CPU-", "WT-GPU-", "WT-RELIABILITY-", "WT-MAINT-"},
    {"WT-BOOT-"}, {"WT-STARTUP-"}, {"WT-UNINSTALL-"}, {"WT-TASK-"}, {"WT-AUDIO-", "WT-SEARCH-"}]

  predicate InCategory(id: string, c: nat) {
    c < |CATEGORIES| && exists p :: p in CATEGORIES[c] && p <= id
  }

  const SEVERITIES := [Info, Low, Medium, High, Critical]

  predicate Worse(a: Severity, b: Severity) {
    exists x, y :: 0 <= x < y < |SEVERITIES| && SEVERITIES[x] == b && SEVERITIES[y] == a
  }

  // a stands before b in a dictionary: at the first difference, or by ending.
  predicate Before(a: string, b: string) {
    exists k :: 0 <= k <= |a| && k < |b| && a[..k] == b[..k] && (k == |a| || a[k] < b[k])
  }

  lemma {:induction false} StrLessIsBefore(a: string, b: string)
    ensures StrLess(a, b) <==> Before(a, b)
  {
    if a != "" && b != "" && a[0] == b[0] {
      StrLessIsBefore(a[1..], b[1..]);
      if k :| 0 <= k <= |a| && k < |b| && a[..k] == b[..k] && (k == |a| || a[k] < b[k]) {
        assert a[1..][..k - 1] == a[..k][1..] == b[..k][1..] == b[1..][..k - 1];
      }
      if k :| 0 <= k <= |a| - 1 && k < |b| - 1 && a[1..][..k] == b[1..][..k] && (k == |a| - 1 || a[1..][k] < b[1..][k]) {
        assert a[..k + 1] == [a[0]] + a[1..][..k] && b[..k + 1] == [b[0]] + b[1..][..k];
      }
    } else if b != "" {
      assert a[..0] == b[..0];
    }
  }

  lemma CategoryRank(id: string, c: nat)
    requires InCategory(id, c)
    ensures c < 9 && Rank(id) == [10, 15, 20, 30, 40, 50, 55, 60, 80][c]
  {
    PrefixesExclude(id);
  }

  lemma WorseIsHeavier(a: Severity, b: Severity)
    ensures Worse(a, b) <==> Weight(a) > Weight(b)
  {
    assert SEVERITIES[Weight(a)] == a && SEVERITIES[Weight(b)] == b;
  }

  // Of two steps of a plan the later is of no earlier category; of one category
  // it is no worse; if as bad it is not the applicable one of the two; and if that
  // too is the same its id does not come before.
  lemma PlanOrder(recs: seq<Recommendation>, i: nat, j: nat, a: nat, b: nat)
    requires i < j < |Plan(recs)| && InCategory(Plan(recs)[i].id, a) && InCategory(Plan(recs)[j].id, b)
    ensures a <= b
    ensures var s, t := Plan(recs)[i], Plan(recs)[j];
      a == b ==>
        && !Worse(t.severity, s.severity)
        && (t.severity == s.severity ==>
              && (t.applyable ==> s.applyable)
              && (t.applyable == s.applyable ==> !Before(t.id, s.id)))
  {
    hide *;
    var s, t := SortedPair(recs, i, j);
    NotBefore(s, t, a, b);
  }

  // Two steps of a plan as they were sorted.
  lemma SortedPair(recs: seq<Recommendation>, i: nat, j: nat) returns (s: Step, t: Step)
    requires i < j < |Plan(recs)|
    ensures !Precedes(t, s)
    ensures var s', t' := Plan(recs)[i], Plan(recs)[j];
      && s'.id == s.id && s'.severity == s.severity && s'.applyable == s.applyable
      && t'.id == t.id && t'.severity == t.severity && t'.applyable == t.applyable
  {
    hide Sort, StepsOf, Ties, Precedes, Dependence;
    StepLessIsWeakOrder();
    SortIsStable(StepLess(), StepsOf(recs));
    var sorted := Sort(StepLess(), StepsOf(recs));
    s, t := sorted[i], sorted[j];
    assert !StepLess()(t, s);
  }

  lemma NotBefore(s: Step, t: Step, a: nat, b: nat)
    requires !Precedes(t, s) && InCategory(s.id, a) && InCategory(t.id, b)
    ensures a <= b
    ensures a == b ==>
        && !Worse(t.severity, s.severity)
        && (t.severity == s.severity ==>
              && (t.applyable ==> s.applyable)
              && (t.applyable == s.applyable ==> !Before(t.id, s.id)))
  {
    hide InCategory, Rank, Weight, StrLess, Before, Worse;
    CategoryRank(s.id, a);
    CategoryRank(t.id, b);
    WorseIsHeavier(t.severity, s.severity);
    WeightTells(t.severity, s.severity);
    StrLessIsBefore(t.id, s.id);
  }

  lemma WeightTells(a: Severity, b: Severity)
    ensures Weight(a) == Weight(b) ==> a == b
  {
  }

  lemma SameWaits(a: Step, b: Step, blocker: string, power: string, startup: string)
    requires a.id == b.id
    ensures WaitsFor(a, blocker, power, startup) == WaitsFor(b, blocker, power, startup)
  {
  }

  lemma {:induction false} LastOfLinked(a: seq<Step>, b: seq<Step>, role: Role)
    requires |a| == |b| && forall i :: 0 <= i < |a| ==> a[i].id == b[i].id && a[i].applyable == b[i].applyable
    ensures Last(a, role) == Last(b, role)
  {
    if a != [] {
      LastOfLinked(a[..|a| - 1], b[..|b| - 1], role);
    }
  }

  lemma StepApplies(r: Recommendation)
    ensures StepOf(r).applyable == Applyable(r)
  {
  }

  // How many recommendations can be applied.
  function HowMany(recs: seq<Recommendation>): (n: nat)
    ensures n <= |recs|
  {
    if recs == [] then 0 else HowMany(recs[..|recs| - 1]) + (if Applyable(recs[|recs| - 1]) then 1 else 0)
  }

  // ---- building it ----

  class Doctor {
    const steps: array<Step>
    var count: nat
    var applyableCount: nat
    var reviewCount: nat

    ghost predicate Valid()
      reads this, steps
    {
      steps.Length == MAX_STEPS && count <= MAX_STEPS
    }

    constructor ()
      ensures Valid() && fresh(steps) && count == 0 && applyableCount == 0 && reviewCount == 0
    {
      steps := new Step[MAX_STEPS](_ => Step("", "", Info, false, false, 0, false, 0, ""));
      count, applyableCount, reviewCount := 0, 0, 0;
    }

    // The first loop of wt_doctor_plan_build: one step for each, and the counts.
    method Fill(recs: seq<Recommendation>)
      requires Valid() && count == 0 && applyableCount == 0 && reviewCount == 0
      requires |recs| <= MAX_RECOMMENDATIONS
      modifies this, steps
      ensures Valid() && count == |recs| && steps[..count] == StepsOf(recs)
      ensures applyableCount == HowMany(recs) && reviewCount == |recs| - HowMany(recs)
    {
      hide Applyable, StepOf;
      var i := 0;
      while i < |recs| && count < MAX_STEPS
        invariant i <= |recs| && count == i && Valid()
        invariant steps[..count] == StepsOf(recs)[..i]
        invariant applyableCount == HowMany(recs[..i]) && reviewCount == i - HowMany(recs[..i])
      {
        assert recs[..i + 1][..i] == recs[..i];
        StepApplies(recs[i]);
        steps[count] := StepOf(recs[i]);
        if steps[count].applyable {
          applyableCount := applyableCount + 1;
        } else {
          reviewCount := reviewCount + 1;
        }
        count := count + 1;
        i := i + 1;
      }
      assert steps[..count] == StepsOf(recs) && recs[..i] == recs;
    }

    // wt_doctor_plan_build.
    method Build(recs: seq<Recommendation>)
      requires Valid() && count == 0 && applyableCount == 0 && reviewCount == 0
      requires |recs| <= MAX_RECOMMENDATIONS
      modifies this, steps
      ensures Valid() && steps[..count] == Plan(recs)
      ensures applyableCount == HowMany(recs) && reviewCount == |recs| - HowMany(recs)
    {
      hide Applyable, Sort, Linked, HowMany;
      Fill(recs);
      InsertionSort(steps, count);
      ghost var sorted := steps[..count];
      NumberSteps(steps, count);
      ghost var numbered := steps[..count];
      AssignDepends(steps, count);
      LinkedNumbers(sorted, numbered, steps[..count]);
    }
  }

  method NumberSteps(a: array<Step>, n: nat)
    requires n <= a.Length
    modifies a
    ensures forall j :: 0 <= j < n ==> a[j] == old(a[j]).(order := j + 1)
    ensures forall j :: n <= j < a.Length ==> a[j] == old(a[j])
  {
    for k := 0 to n
      invariant forall j :: 0 <= j < k ==> a[j] == old(a[j]).(order := j + 1)
      invariant forall j :: k <= j < a.Length ==> a[j] == old(a[j])
    {
      a[k] := Numbered(a[k], k);
    }
  }

  // Each element in turn moves back to its place; the others shift.
  method InsertionSort(a: array<Step>, n: nat)
    requires n <= a.Length
    modifies a
    ensures a[..n] == Sort(StepLess(), old(a[..n]))
  {
    hide Precedes, Sort, Insert;
    ghost var s := a[..n];
    SortOfFew(s);
    if n == 0 {
      return;
    }
    assert s[..1] == [s[0]];
    for i := 1 to n
      invariant a[..i] == Sort(StepLess(), s[..i])
      invariant forall k :: i <= k < n ==> a[k] == s[k]
    {
      SortStep(StepLess(), s[..i], s[i]);
      assert s[..i] + [s[i]] == s[..i + 1];
      ghost var rest := a[i + 1..];
      ShiftForward(StepLess(), a, i);
      assert forall k :: i < k < n ==> a[k] == a[i + 1..][k - i - 1] == rest[k - i - 1];
    }
    assert s[..n] == s;
  }

  lemma SortOfFew(s: seq<Step>)
    ensures Sort(StepLess(), []) == []
    ensures s != [] ==> Sort(StepLess(), [s[0]]) == [s[0]]
  {
    if s != [] {
      SortStep(StepLess(), [], s[0]);
      assert [] + [s[0]] == [s[0]];
    }
  }

  // wt_doctor_assign_depends.
  method AssignDepends(a: array<Step>, n: nat)
    requires n <= a.Length
    modifies a
    ensures forall i :: 0 <= i < n ==> a[i] == old(a[i]).(dependsOn := Dependence(old(a[..n])[..i], old(a[i])))
    ensures forall i :: n <= i < a.Length ==> a[i] == old(a[i])
  {
    hide Dependence, Last;
    ghost var s := a[..n];
    var lastBlocker, lastPower, lastStartup := "", "", "";
    NoneYet();
    for i := 0 to n
      invariant lastBlocker == Last(s[..i], Blocking) && lastPower == Last(s[..i], PowerChange)
      invariant lastStartup == Last(s[..i], StartupChange)
      invariant forall k :: 0 <= k < i ==> a[k] == s[k].(dependsOn := Dependence(s[..k], s[k]))
      invariant forall k :: i <= k < a.Length ==> a[k] == old(a[k])
    {
      var step := a[i];
      var wait := DependsOn(step, lastBlocker, lastPower, lastStartup, s[..i]);
      a[i] := step.(dependsOn := wait);
      assert s[..i + 1] == s[..i] + [step];
      lastBlocker, lastPower, lastStartup := Passing(step, lastBlocker, lastPower, lastStartup, s[..i]);
    }
  }

  lemma NoneYet()
    ensures forall role :: Last([], role) == ""
  {
  }

  // The last of each role once this step is passed.
  method Passing(step: Step, lastBlocker: string, lastPower: string, lastStartup: string, ghost before: seq<Step>)
    returns (blocker: string, power: string, startup: string)
    requires lastBlocker == Last(before, Blocking) && lastPower == Last(before, PowerChange)
    requires lastStartup == Last(before, StartupChange)
    ensures blocker == Last(before + [step], Blocking) && power == Last(before + [step], PowerChange)
    ensures startup == Last(before + [step], StartupChange)
  {
    assert (before + [step])[..|before|] == before;
    Exclusive(step);
    blocker, power, startup := lastBlocker, lastPower, lastStartup;
    if "WT-BLOCKER-" <= step.id {
      blocker := step.id;
    } else if "WT-POWER-" <= step.id && step.applyable {
      power := step.id;
    } else if "WT-STARTUP-" <= step.id {
      startup := step.id;
    }
  }

  lemma Exclusive(s: Step)
    ensures Plays(s, Blocking) ==> !Plays(s, PowerChange) && !Plays(s, StartupChange)
    ensures Plays(s, PowerChange) ==> !Plays(s, StartupChange)
  {
    PrefixesExclude(s.id);
  }

  method DependsOn(s: Step, lastBlocker: string, lastPower: string, lastStartup: string, ghost before: seq<Step>)
    returns (wait: string)
    requires lastBlocker == Last(before, Blocking) && lastPower == Last(before, PowerChange)
    requires lastStartup == Last(before, StartupChange)
    ensures wait == Dependence(before, s)
  {
    PrefixesExclude(s.id);
    wait := "";
    if "WT-UPDATE-" <= s.id && lastBlocker != "" {
      wait := lastBlocker;
    } else if "WT-POWER-" <= s.id && lastBlocker != "" {
      wait := lastBlocker;
    } else if "WT-STARTUP-" <= s.id {
      if lastPower != "" {
        wait := lastPower;
      } else if lastBlocker != "" {
        wait := lastBlocker;
      }
    } else if "WT-TASK-" <= s.id {
      if lastStartup != "" {
        wait := lastStartup;
      } else if lastPower != "" {
        wait := lastPower;
      }
    } else if "WT-BOOT-" <= s.id && lastStartup != "" {
      wait := lastStartup;
    }
  }

  lemma LinkedNumbers(sorted: seq<Step>, numbered: seq<Step>, done: seq<Step>)
    requires |numbered| == |sorted| == |done|
    requires forall j :: 0 <= j < |sorted| ==> numbered[j] == sorted[j].(order := j + 1)
    requires forall j :: 0 <= j < |sorted| ==> done[j] == numbered[j].(dependsOn := Dependence(numbered[..j], numbered[j]))
    ensures done == Linked(sorted)
  {
    hide WaitsFor;
    forall j | 0 <= j < |sorted| ensures done[j] == Linked(sorted)[j] {
      LastOfLinked(numbered[..j], sorted[..j], Blocking);
      LastOfLinked(numbered[..j], sorted[..j], PowerChange);
      LastOfLinked(numbered[..j], sorted[..j], StartupChange);
      SameWaits(numbered[j], sorted[j], Last(sorted[..j], Blocking), Last(sorted[..j], PowerChange), Last(sorted[..j], StartupChange));
    }
  }

  // ---- from a scan to its plan ----

  // One step for every recommendation, and no two steps of one name, so a
  // dependency names one step.
  lemma PlanOfScan(f: Facts)
    ensures var plan := Plan(AllRules(f));
      && |plan| == |AllRules(f)| <= 30
      && (forall i, j :: 0 <= i < j < |plan| ==> plan[i].id != plan[j].id)
  {
    hide AllRules, Text, Applyable, Sort;
    AtMostThirty(f);
    IdsAreDistinct(f);
    var recs := AllRules(f);
    StepLessIsWeakOrder();
    SortIsStable(StepLess(), StepsOf(recs));
    var steps, sorted := StepsOf(recs), Sort(StepLess(), StepsOf(recs));
    NamesOnce(steps, sorted);
  }

  // ---- what can be applied ----

  lemma PowerTexts()
    ensures Text(RecId(Power, 1)) == "WT-POWER-001" && Text(RecId(Power, 2)) == "WT-POWER-002"
  {
  }

  lemma PowerTextIs(id: RecId, n: nat)
    requires id.number < 10 && n in {1, 2}
    ensures Text(id) == Text(RecId(Power, n)) <==> id == RecId(Power, n)
  {
    hide Text;
    if Text(id) == Text(RecId(Power, n)) {
      TextIsInjective(id, RecId(Power, n));
    }
  }

  predicate AppliesPrefix(action: string) {
    || "wintune apply WT-STARTUP-DISABL" <= action || "wintune apply WT-STARTUP-DELA" <= action
    || "wintune apply WT-TASK-DISABL" <= action || "wintune apply WT-TASK-DELA" <= action
  }

  lemma PlainActions(action: string)
    requires action in {ADVICE, "wintune updates", "wintune blockers", "wintune boot analyze", "wintune startup --measured",
                        "wintune apply WT-POWER-001", "wintune apply WT-POWER-002"}
    ensures action != "" && !AppliesPrefix(action)
  {
    ApplyPrefixes(action);
  }

  lemma ApplyPrefixes(action: string)
    ensures AppliesPrefix(action) ==> |action| > 17 && action[8] == 'a' && (action[17] == 'S' || action[17] == 'T')
  {
  }

  lemma OfferedActions(r: Recommendation, c: Candidate)
    ensures OffersStartup(r, c) || OffersTask(r, c) ==> r.action != "" && AppliesPrefix(r.action)
  {
    var a, b := "wintune apply WT-STARTUP-DISABL", "wintune apply WT-TASK-DELA";
    assert "wintune apply WT-STARTUP-DISABLE \"" == a + "E \"";
    assert "wintune apply WT-TASK-DELAY \"" == b + "Y \"";
    assert a + "E \"" + c.id + "\"" == a + ("E \"" + c.id + "\"");
    assert b + "Y \"" + c.id + "\" --seconds 30" == b + ("Y \"" + c.id + "\" --seconds 30");
  }

  lemma ActionIsPlain(f: Facts, r: Recommendation)
    requires r in AllRules(f) && r.id !in {RecId(Startup, 2), RecId(Tasks, 1)}
    ensures r.action in {ADVICE, "wintune updates", "wintune blockers", "wintune boot analyze", "wintune startup --measured",
                         "wintune apply WT-POWER-001", "wintune apply WT-POWER-002"}
  {
    hide *;
    SmallNumber(f, r);
    FamilyNumbers(r.id);
    match r.id.family {
      case Power => PowerSays(f, r);
      case Memory => MemorySays(f, r);
      case Disk => DiskSays(f, r);
      case Reliability => ReliabilitySays(f, r);
      case Maint => MaintenanceSays(f, r);
      case Cpu => ActivitySays(f, r);
      case Gpu => ActivitySays(f, r);
      case Audio => ActivitySays(f, r);
      case Search => ActivitySays(f, r);
      case Boot => BootSays(f, r);
      case Startup => BootSays(f, r);
      case Update => UpdateSays(f, r);
      case Blocker => BlockerSays(f, r);
      case Tasks =>
      case Uninstall => BlockerSays(f, r);
    }
  }

  lemma FamilyNumbers(id: RecId)
    requires Issued(id)
    ensures id.family == Startup ==> id.number in {1, 2}
    ensures id.family == Tasks ==> id.number == 1
  {
  }

  // Of all a scan can recommend only four ids can be applied.
  lemma WhatCanBeApplied(f: Facts, r: Recommendation)
    requires r in AllRules(f)
    ensures Applyable(r) <==> r.id in {RecId(Power, 1), RecId(Power, 2), RecId(Startup, 2), RecId(Tasks, 1)}
  {
    hide AllRules, Text, WorthIt, OffersStartup, OffersTask, Issued;
    SmallNumber(f, r);
    PowerTexts();
    PowerTextIs(r.id, 1);
    PowerTextIs(r.id, 2);
    if r.id == RecId(Startup, 2) {
      StartupSays(f, r);
      var k: nat :| FirstWorthIt(f.startup.value, false, k) && OffersStartup(r, f.startup.value[k]);
      OfferedActions(r, f.startup.value[k]);
    } else if r.id == RecId(Tasks, 1) {
      TaskSays(f, r);
      var k: nat :| FirstWorthIt(f.tasks.value, true, k) && OffersTask(r, f.tasks.value[k]);
      OfferedActions(r, f.tasks.value[k]);
    } else {
      ActionIsPlain(f, r);
      PlainActions(r.action);
    }
  }

  // From what the collectors found to the finished plan.
  method Guide(f: Facts) returns (doctor: Doctor)
    ensures doctor.Valid() && doctor.steps[..doctor.count] == Plan(AllRules(f))
    ensures doctor.count == |AllRules(f)| && doctor.applyableCount == HowMany(AllRules(f))
    ensures doctor.reviewCount == |AllRules(f)| - HowMany(AllRules(f))
  {
    hide AllRules, Plan;
    var list := Generate(f);
    var recs := list.items[..list.count];
    doctor := new Doctor();
    doctor.Build(recs);
    assert |Plan(recs)| == |recs| by { PlanIsStableSort(recs); }
  }

  // A rearrangement of steps with different names has different names.
  lemma NamesOnce(a: seq<Step>, b: seq<Step>)
    requires multiset(a) == multiset(b)
    requires forall i, j :: 0 <= i < j < |a| ==> a[i].id != a[j].id
    ensures forall i, j :: 0 <= i < j < |b| ==> b[i].id != b[j].id
  {
    forall i, j | 0 <= i < j < |b| ensures b[i].id != b[j].id {
      if b[i].id == b[j].id {
        assert b[i] in multiset(a) && b[j] in multiset(a);
        var k :| 0 <= k < |a| && a[k] == b[i];
        var l :| 0 <= l < |a| && a[l] == b[j];
        assert k == l;
        Twice(b, i, j);
        Once(a, k);
        assert false;
      }
    }
  }

  lemma Twice(b: seq<Step>, i: nat, j: nat)
    requires i < j < |b| && b[i] == b[j]
    ensures multiset(b)[b[i]] >= 2
  {
    assert b == b[..j] + [b[j]] + b[j + 1..];
    assert b[..j][i] in multiset(b[..j]);
  }

  lemma Once(a: seq<Step>, k: nat)
    requires k < |a| && forall i, j :: 0 <= i < j < |a| ==> a[i].id != a[j].id
    ensures multiset(a)[a[k]] == 1
  {
    assert a == a[..k] + [a[k]] + a[k + 1..];
    assert forall i :: 0 <= i < k ==> a[..k][i].id != a[k].id;
    var back := a[k + 1..];
    assert forall i :: 0 <= i < |back| ==> back[i].id != a[k].id;
    assert a[k] !in a[..k] && a[k] !in a[k + 1..];
  }
}
