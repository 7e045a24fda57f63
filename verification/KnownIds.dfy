// Whether `wintune apply` knows the ids that `wintune recommend` shows: the
// tables of src/actions/action_map.c against src/core/recommendations.c.

module KnownIds {
  import opened Recommendations
  import opened Strings
  import A = SafeActions

  // The id of an action or of an advisory entry.
  predicate Known(id: string) {
    A.Lookup(A.SPECS, id).Some? || Fold(id) in A.ADVISORY
  }

  // ---- folded ids ----

  function LowerName(f: Family): string {
    match f
    case Power => "power"
    case Memory => "memory"
    case Disk => "disk"
    case Reliability => "reliability"
    case Maint => "maint"
    case Cpu => "cpu"
    case Gpu => "gpu"
    case Audio => "audio"
    case Search => "search"
    case Boot => "boot"
    case Startup => "startup"
    case Update => "update"
    case Blocker => "blocker"
    case Tasks => "task"
    case Uninstall => "uninstall"
  }

  function LowerText(id: RecId): string {
    "wt-" + (LowerName(id.family) + ("-00" + Decimal(id.number)))
  }

  // The families in two halves.
  const HALF: set<Family> := {Power, Memory, Disk, Reliability, Maint, Cpu, Gpu}

  lemma FoldOneHalf(f: Family)
    requires f in HALF
    ensures Fold(FamilyName(f)) == LowerName(f)
  {
  }

  lemma FoldOtherHalf(f: Family)
    requires f !in HALF
    ensures Fold(FamilyName(f)) == LowerName(f)
  {
  }

  lemma FoldName(f: Family)
    ensures Fold(FamilyName(f)) == LowerName(f)
  {
    hide Fold, FamilyName, LowerName;
    if f in HALF {
      FoldOneHalf(f);
    } else {
      FoldOtherHalf(f);
    }
  }

  lemma FoldConcat(a: string, b: string)
    ensures Fold(a + b) == Fold(a) + Fold(b)
  {
  }

  lemma FoldText(id: RecId)
    requires id.number < 10
    ensures Fold(Text(id)) == LowerText(id)
  {
    hide Fold, FamilyName, LowerName;
    FoldName(id.family);
    FoldMarks(id.number);
    FoldConcat("-00", Decimal(id.number));
    FoldConcat(FamilyName(id.family), "-00" + Decimal(id.number));
    FoldConcat("WT-", FamilyName(id.family) + ("-00" + Decimal(id.number)));
  }

  lemma FoldMarks(n: nat)
    requires n < 10
    ensures Fold("WT-") == "wt-" && Fold("-00") == "-00" && Fold(Decimal(n)) == Decimal(n)
  {
  }

  // ---- the tables ----

  lemma FirstAdvice(n: nat)
    ensures 1 <= n <= 3 ==> LowerText(RecId(Memory, n)) == A.ADVISORY[n - 1]
    ensures 1 <= n <= 5 ==> LowerText(RecId(Disk, n)) == A.ADVISORY[n + 2]
  {
  }

  lemma NextAdvice(n: nat)
    ensures 1 <= n <= 3 ==> LowerText(RecId(Reliability, n)) == A.ADVISORY[n + 7]
    ensures 1 <= n <= 4 ==> LowerText(RecId(Maint, n)) == A.ADVISORY[n + 10]
  {
  }

  lemma MoreAdvice(n: nat)
    ensures LowerText(RecId(Cpu, 1)) == A.ADVISORY[15] && LowerText(RecId(Gpu, 1)) == A.ADVISORY[16]
    ensures 3 <= n <= 4 ==> LowerText(RecId(Power, n)) == A.ADVISORY[n + 14]
    ensures 1 <= n <= 2 ==> LowerText(RecId(Boot, n)) == A.ADVISORY[n + 18]
  {
  }

  lemma LastAdvice(n: nat)
    ensures LowerText(RecId(Startup, 1)) == A.ADVISORY[21] && LowerText(RecId(Startup, 2)) == A.ADVISORY[27]
    ensures 1 <= n <= 4 ==> LowerText(RecId(Update, n)) == A.ADVISORY[n + 21]
  {
  }

  lemma OtherAdvice()
    ensures LowerText(RecId(Blocker, 1)) == A.ADVISORY[26] && LowerText(RecId(Tasks, 1)) == A.ADVISORY[28]
    ensures LowerText(RecId(Uninstall, 1)) == A.ADVISORY[29]
  {
  }

  lemma PowerSpecs(n: nat)
    requires n == 1 || n == 2
    ensures LowerText(RecId(Power, n)) == A.SPECS[n - 1].id
  {
  }

  lemma {:induction false} LookupFinds(specs: seq<A.Spec>, id: string, k: nat)
    requires k < |specs| && id != "" && Fold(id) == specs[k].id
    ensures A.Lookup(specs, id).Some?
  {
    if Fold(id) != specs[0].id {
      LookupFinds(specs[1..], id, k - 1);
    }
  }

  lemma {:induction false} LookupMisses(specs: seq<A.Spec>, id: string)
    requires forall k :: 0 <= k < |specs| ==> specs[k].id != Fold(id)
    ensures A.Lookup(specs, id).None?
  {
    if specs != [] {
      assert specs[0].id != Fold(id);
      forall k | 0 <= k < |specs[1..]| ensures specs[1..][k].id != Fold(id) {
        assert specs[1..][k] == specs[k + 1];
      }
      LookupMisses(specs[1..], id);
    }
  }

  // No table entry ends in a six, is about audio, or starts with "se".
  lemma TablesAvoid()
    ensures forall k :: 0 <= k < |A.ADVISORY| ==> var t := A.ADVISORY[k];
      |t| > 4 && t[|t| - 1] != '6' && t[3] != 'a' && !(t[3] == 's' && t[4] == 'e')
    ensures forall k :: 0 <= k < |A.SPECS| ==> var t := A.SPECS[k].id;
      |t| > 4 && t[|t| - 1] != '6' && t[3] != 'a' && !(t[3] == 's' && t[4] == 'e')
  {
  }

  lemma MissingTexts()
    ensures var t := LowerText(RecId(Disk, 6)); |t| > 4 && t[|t| - 1] == '6'
    ensures var t := LowerText(RecId(Audio, 1)); |t| > 4 && t[3] == 'a'
    ensures var t := LowerText(RecId(Search, 1)); |t| > 4 && t[3] == 's' && t[4] == 'e'
  {
  }

  lemma Unknown(id: RecId)
    requires id in {RecId(Disk, 6), RecId(Audio, 1), RecId(Search, 1)}
    ensures !Known(Text(id))
  {
    hide Text, LowerText, Fold;
    FoldText(id);
    MissingTexts();
    TablesAvoid();
    LookupMisses(A.SPECS, Text(id));
  }

  lemma Advised(id: RecId)
    requires Issued(id) && id !in {RecId(Disk, 6), RecId(Audio, 1), RecId(Search, 1)}
    requires id != RecId(Power, 1) && id != RecId(Power, 2)
    ensures LowerText(id) in A.ADVISORY
  {
    hide LowerText;
    FirstAdvice(id.number);
    NextAdvice(id.number);
    MoreAdvice(id.number);
    LastAdvice(id.number);
    OtherAdvice();
    AdvisoryLength();
  }

  lemma AdvisoryLength()
    ensures |A.ADVISORY| == 30 && |A.SPECS| == 6
  {
  }

  // Every id a scan can show is known to apply, but for three.
  lemma ShownIdsAreKnown(f: Facts)
    ensures forall r :: r in AllRules(f) ==>
      (Known(Text(r.id)) <==> r.id !in {RecId(Disk, 6), RecId(Audio, 1), RecId(Search, 1)})
  {
    hide AllRules, Text, LowerText, Fold, Issued, Known;
    AllRise(f);
    var s := AllRules(f);
    forall i | 0 <= i < |s|
      ensures Known(Text(s[i].id)) <==> s[i].id !in {RecId(Disk, 6), RecId(Audio, 1), RecId(Search, 1)}
    {
      KnownOrNot(s[i].id);
    }
  }

  lemma KnownOrNot(id: RecId)
    requires Issued(id)
    ensures Known(Text(id)) <==> id !in {RecId(Disk, 6), RecId(Audio, 1), RecId(Search, 1)}
  {
    hide LowerText, Fold, Issued, FamilyName;
    NumbersAreDigits(id);
    FoldText(id);
    AdvisoryLength();
    if id in {RecId(Disk, 6), RecId(Audio, 1), RecId(Search, 1)} {
      Unknown(id);
    } else if id == RecId(Power, 1) || id == RecId(Power, 2) {
      PowerSpecs(id.number);
      LookupFinds(A.SPECS, Text(id), id.number - 1);
    } else {
      Advised(id);
    }
  }
}
