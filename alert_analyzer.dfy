/** The alert analysis engine (AlertAnalyzer.java): department filter, reference date,
    urgency level, the four reminder name lists and the display order of the table. */
module AlertAnalyzer {
  import opened Options
  import opened Text
  import opened Model

  /** `1000 * 60 * 60 * 24`, the divisor that turns a millisecond span into days. */
  const DAY_MILLIS: int := 1000 * 60 * 60 * 24

  /** The subject line starts with this; the rest is the clock's text form. */
  const SUBJECT_PREFIX: string := "人月框架协议进度提醒 - "

  // ---------------------------------------------------------------- department filter

  /** The records of the target department, in input order, duplicates kept. */
  function TargetAgreements(all: seq<FrameworkAgreement>): (r: seq<FrameworkAgreement>)
    ensures |r| <= |all|
    ensures forall i :: 0 <= i < |r| ==> r[i] in all && r[i].responsibleDepartment == TARGET_DEPARTMENT
    ensures forall j :: 0 <= j < |all| && all[j].responsibleDepartment == TARGET_DEPARTMENT ==> all[j] in r
  {
    if all == [] then []
    else
      assert all == [all[0]] + all[1..];
      (if all[0].responsibleDepartment == TARGET_DEPARTMENT then [all[0]] else [])
        + TargetAgreements(all[1..])
  }

  /** The filter keeps every occurrence of a target record and no occurrence of any other. */
  lemma {:induction false} TargetAgreementsOccurrences(all: seq<FrameworkAgreement>, a: FrameworkAgreement)
    ensures multiset(TargetAgreements(all))[a] ==
            if a.responsibleDepartment == TARGET_DEPARTMENT then multiset(all)[a] else 0
    decreases |all|
  {
    if all != [] {
      assert all == [all[0]] + all[1..];
      TargetAgreementsOccurrences(all[1..], a);
    }
  }

  // ---------------------------------------------------------------- reference date

  /** The date a record's urgency is measured against. */
  function ReferenceDate(a: FrameworkAgreement): (r: Option<Instant>)
    ensures a.previousAgreementExpiry.Some? ==> r == a.previousAgreementExpiry
    ensures a.previousAgreementExpiry.None? ==> r == a.plannedApprovalDate
    ensures r.None? <==> a.previousAgreementExpiry.None? && a.plannedApprovalDate.None?
  {
    if a.previousAgreementExpiry.Some? then a.previousAgreementExpiry else a.plannedApprovalDate
  }

  // ---------------------------------------------------------------- urgency level

  /** Java's `long` division of `ref - now` by a day: it truncates toward zero. */
  function DiffDays(ref: Instant, now: Instant): (days: int)
    ensures ref >= now ==> 0 <= days && days * DAY_MILLIS <= ref - now < (days + 1) * DAY_MILLIS
    ensures ref < now ==> days <= 0 && (days - 1) * DAY_MILLIS < ref - now <= days * DAY_MILLIS
  {
    var span := ref - now;
    if span >= 0 then span / DAY_MILLIS else -((-span) / DAY_MILLIS)
  }

  /** The tier for a whole number of days left: under a week is 1, under two weeks 2,
      under thirty days 3, under ninety days 4, and 5 beyond. */
  function LevelForDays(days: int): (level: int)
    ensures 1 <= level <= 5
  {
    if days < 7 then 1
    else if days < 14 then 2
    else if days < 30 then 3
    else if days < 90 then 4
    else 5
  }

  /** The urgency level of a record with reference date `ref`, judged at `now`. */
  function UrgencyLevel(ref: Option<Instant>, now: Instant): (level: int)
    ensures 1 <= level <= 5
    ensures ref.None? ==> level == 5
  {
    match ref
    case None => 5
    case Some(t) => LevelForDays(DiffDays(t, now))
  }

  /** The tiers read directly off the millisecond span: truncation never moves a span across
      a tier boundary, and every overdue span (negative, however small) is tier 1. */
  lemma UrgencyLevelByMillis(t: Instant, now: Instant)
    ensures UrgencyLevel(Some(t), now) == 1 <==> t - now < 7 * DAY_MILLIS
    ensures UrgencyLevel(Some(t), now) == 2 <==> 7 * DAY_MILLIS <= t - now < 14 * DAY_MILLIS
    ensures UrgencyLevel(Some(t), now) == 3 <==> 14 * DAY_MILLIS <= t - now < 30 * DAY_MILLIS
    ensures UrgencyLevel(Some(t), now) == 4 <==> 30 * DAY_MILLIS <= t - now < 90 * DAY_MILLIS
    ensures UrgencyLevel(Some(t), now) == 5 <==> 90 * DAY_MILLIS <= t - now
  {
    var d := DiffDays(t, now);
    if t >= now {
      assert d < 7 <==> t - now < 7 * DAY_MILLIS;
      assert d < 14 <==> t - now < 14 * DAY_MILLIS;
      assert d < 30 <==> t - now < 30 * DAY_MILLIS;
      assert d < 90 <==> t - now < 90 * DAY_MILLIS;
    }
  }

  /** A later reference date never gives a more urgent level. */
  lemma UrgencyLevelMonotone(t1: Instant, t2: Instant, now: Instant)
    requires t1 <= t2
    ensures UrgencyLevel(Some(t1), now) <= UrgencyLevel(Some(t2), now)
  {
    UrgencyLevelByMillis(t1, now);
    UrgencyLevelByMillis(t2, now);
  }

  /** Levels for 5, 10, 20, 60 and 200 days ahead, and for one day overdue. */
  lemma UrgencyLevelExamples(now: Instant)
    ensures UrgencyLevel(Some(now + 5 * DAY_MILLIS), now) == 1
    ensures UrgencyLevel(Some(now + 10 * DAY_MILLIS), now) == 2
    ensures UrgencyLevel(Some(now + 20 * DAY_MILLIS), now) == 3
    ensures UrgencyLevel(Some(now + 60 * DAY_MILLIS), now) == 4
    ensures UrgencyLevel(Some(now + 200 * DAY_MILLIS), now) == 5
    ensures UrgencyLevel(Some(now - DAY_MILLIS), now) == 1
  {
    UrgencyLevelByMillis(now + 5 * DAY_MILLIS, now);
    UrgencyLevelByMillis(now + 10 * DAY_MILLIS, now);
    UrgencyLevelByMillis(now + 20 * DAY_MILLIS, now);
    UrgencyLevelByMillis(now + 60 * DAY_MILLIS, now);
    UrgencyLevelByMillis(now + 200 * DAY_MILLIS, now);
    UrgencyLevelByMillis(now - DAY_MILLIS, now);
  }

  /** Every record of `s` carries a level. */
  predicate Leveled(s: seq<FrameworkAgreement>)
    reads s
  {
    forall i :: 0 <= i < |s| ==> s[i].alertLevel.Some?
  }

  /** Every record of `s` carries the level its reference date gives at `now`. */
  predicate LevelsCalculated(s: seq<FrameworkAgreement>, now: Instant)
    reads s
  {
    forall i :: 0 <= i < |s| ==> s[i].alertLevel == Some(UrgencyLevel(ReferenceDate(s[i]), now))
  }

  /** Writes each record's level into it, in place. A record listed twice is written twice,
      with the same value. */
  method CalculateUrgencyLevel(agreements: seq<FrameworkAgreement>, now: Instant)
    modifies agreements
    ensures LevelsCalculated(agreements, now)
    ensures forall a :: a in agreements ==> a.referenceDate == old(a.referenceDate)
  {
    for i := 0 to |agreements|
      invariant LevelsCalculated(agreements[..i], now)
      invariant forall a :: a in agreements ==> a.referenceDate == old(a.referenceDate)
    {
      var agreement := agreements[i];
      var referenceDate := ReferenceDate(agreement);
      if referenceDate.None? {
        agreement.alertLevel := Some(5);
      } else {
        var diffDays := DiffDays(referenceDate.value, now);
        if diffDays < 7 {
          agreement.alertLevel := Some(1);
        } else if diffDays < 14 {
          agreement.alertLevel := Some(2);
        } else if diffDays < 30 {
          agreement.alertLevel := Some(3);
        } else if diffDays < 90 {
          agreement.alertLevel := Some(4);
        } else {
          agreement.alertLevel := Some(5);
        }
      }
    }
    assert agreements[..|agreements|] == agreements;
  }

  // ---------------------------------------------------------------- reminder lists

  /** The four reminder lists. */
  datatype Category = NeedData | NeedApproval | NeedPurchase | NeedSeal

  /** `Calendar.add(Calendar.MONTH, k)` applied to an instant, in the default time zone. */
  type AddMonths = (Instant, int) -> Instant

  /** What the model assumes of the calendar: going back one month or more lands at least fifteen
      days earlier. A calendar month back is at least 28 days less one daylight-saving hour. */
  ghost predicate MonthsReachBack15Days(addMonths: AddMonths) {
    forall t: Instant, k: int :: k < 0 ==> addMonths(t, k) <= t - 15 * DAY_MILLIS
  }

  /** The start of a category's lookback window before reference date `ref`: three, two and one
      calendar months back, and fourteen days back for the seal reminder. */
  function WindowStart(cat: Category, ref: Instant, addMonths: AddMonths): (start: Instant)
    ensures cat == NeedSeal ==> start == ref - 14 * DAY_MILLIS
    ensures MonthsReachBack15Days(addMonths) ==> start <= ref - 14 * DAY_MILLIS
  {
    match cat
    case NeedData => addMonths(ref, -3)
    case NeedApproval => addMonths(ref, -2)
    case NeedPurchase => addMonths(ref, -1)
    case NeedSeal => ref - 14 * DAY_MILLIS
  }

  /** The non-null progress labels that keep a record in a category's list. */
  function PendingLabels(cat: Category): (labels: set<string>)
    ensures "" in labels && DATA_PREP in labels
    ensures COMPLETED !in labels
  {
    match cat
    case NeedData => {"", DATA_PREP}
    case NeedApproval => {"", DATA_PREP, APPROVAL_STAGE}
    case NeedPurchase => {"", DATA_PREP, APPROVAL_STAGE, PURCHASE_STAGE}
    case NeedSeal => {"", DATA_PREP, APPROVAL_STAGE, PURCHASE_STAGE, SEAL_STAGE}
  }

  /** Progress that has not yet reached the stage a category reminds about. */
  predicate PendingFor(cat: Category, progress: Option<string>): (r: bool)
    ensures progress.None? || progress == Some("") || progress == Some(DATA_PREP) ==> r
    ensures r ==> progress != Some(COMPLETED)
  {
    progress.None? || progress.value in PendingLabels(cat)
  }

  /** Whether record `a` puts its responsible person on the `cat` list at `now`. */
  predicate InAlert(a: FrameworkAgreement, cat: Category, now: Instant, addMonths: AddMonths): (r: bool)
    ensures r ==> ReferenceDate(a).Some? && now < ReferenceDate(a).value
    ensures r ==> a.currentProgress != Some(COMPLETED)
  {
    match ReferenceDate(a)
    case None => false
    case Some(ref) => WindowStart(cat, ref, addMonths) < now < ref && PendingFor(cat, a.currentProgress)
  }

  /** `names` is a reminder list for `cat` over `agreements`: a person is on it exactly when some
      record of theirs is in the alert, and nobody is on it twice. */
  ghost predicate IsAlertList(names: seq<string>, agreements: seq<FrameworkAgreement>, cat: Category,
                        now: Instant, addMonths: AddMonths)
  {
    && NoDuplicates(names)
    && forall p :: p in names <==>
         exists i :: 0 <= i < |agreements| && InAlert(agreements[i], cat, now, addMonths)
                     && agreements[i].responsiblePerson == p
  }

  /** The loop the four reminder builders share: gather the qualifying people into a set,
      then list the set. */
  method CollectNames(agreements: seq<FrameworkAgreement>, cat: Category, now: Instant, addMonths: AddMonths)
    returns (names: seq<string>)
    ensures IsAlertList(names, agreements, cat, now, addMonths)
  {
    var found: set<string> := {};
    for i := 0 to |agreements|
      invariant forall p :: p in found <==>
        exists j :: 0 <= j < i && InAlert(agreements[j], cat, now, addMonths)
                    && agreements[j].responsiblePerson == p
    {
      var agreement := agreements[i];
      var referenceDate := ReferenceDate(agreement);
      if referenceDate.Some? {
        var windowStart := WindowStart(cat, referenceDate.value, addMonths);
        if windowStart < now && now < referenceDate.value {
          var progress := agreement.currentProgress;
          if progress.None? || progress.value in PendingLabels(cat) {
            found := found + {agreement.responsiblePerson};
          }
        }
      }
    }
    names := ListOfSet(found);
  }

  /** People whose records are due within three months and still gathering material. */
  method GenerateNeedDataAlert(agreements: seq<FrameworkAgreement>, now: Instant, addMonths: AddMonths)
    returns (names: seq<string>)
    ensures IsAlertList(names, agreements, NeedData, now, addMonths)
  {
    names := CollectNames(agreements, NeedData, now, addMonths);
  }

  /** People whose records are due within two months and have not passed approval. */
  method GenerateNeedApprovalAlert(agreements: seq<FrameworkAgreement>, now: Instant, addMonths: AddMonths)
    returns (names: seq<string>)
    ensures IsAlertList(names, agreements, NeedApproval, now, addMonths)
  {
    names := CollectNames(agreements, NeedApproval, now, addMonths);
  }

  /** People whose records are due within a month and have not passed purchasing. */
  method GenerateNeedPurchaseAlert(agreements: seq<FrameworkAgreement>, now: Instant, addMonths: AddMonths)
    returns (names: seq<string>)
    ensures IsAlertList(names, agreements, NeedPurchase, now, addMonths)
  {
    names := CollectNames(agreements, NeedPurchase, now, addMonths);
  }

  /** People whose records are due within fourteen days and are not yet sealed. */
  method GenerateNeedSealAlert(agreements: seq<FrameworkAgreement>, now: Instant, addMonths: AddMonths)
    returns (names: seq<string>)
    ensures IsAlertList(names, agreements, NeedSeal, now, addMonths)
  {
    names := CollectNames(agreements, NeedSeal, now, addMonths);
  }

  /** Each later list accepts every label an earlier one accepts. */
  lemma PendingLabelsNested()
    ensures PendingLabels(NeedData) < PendingLabels(NeedApproval)
    ensures PendingLabels(NeedApproval) < PendingLabels(NeedPurchase)
    ensures PendingLabels(NeedPurchase) < PendingLabels(NeedSeal)
  {
    assert APPROVAL_STAGE !in PendingLabels(NeedData);
    assert PURCHASE_STAGE !in PendingLabels(NeedApproval);
    assert SEAL_STAGE !in PendingLabels(NeedPurchase);
  }

  /** A completed record, or one whose progress is a label no list accepts, is on no list. */
  lemma NoAlertPastSealing(a: FrameworkAgreement, cat: Category, now: Instant, addMonths: AddMonths)
    requires a.currentProgress.Some? && a.currentProgress.value !in PendingLabels(NeedSeal)
    ensures !InAlert(a, cat, now, addMonths)
  {
    PendingLabelsNested();
  }

  /** Not started and due in ten days: the record is on all four lists, the seal list included,
      because ten days lie inside the fourteen-day window. */
  lemma TenDaysAheadExample(a: FrameworkAgreement, now: Instant, addMonths: AddMonths)
    requires MonthsReachBack15Days(addMonths)
    requires ReferenceDate(a) == Some(now + 10 * DAY_MILLIS)
    requires a.currentProgress == Some("")
    ensures InAlert(a, NeedData, now, addMonths) && InAlert(a, NeedApproval, now, addMonths)
    ensures InAlert(a, NeedPurchase, now, addMonths) && InAlert(a, NeedSeal, now, addMonths)
  {
    var ref := now + 10 * DAY_MILLIS;
    assert addMonths(ref, -3) <= ref - 15 * DAY_MILLIS;
    assert addMonths(ref, -2) <= ref - 15 * DAY_MILLIS;
    assert addMonths(ref, -1) <= ref - 15 * DAY_MILLIS;
  }

  /** At the sealing stage and due in five days: the record is on the seal list only. */
  lemma SealStageExample(a: FrameworkAgreement, now: Instant, addMonths: AddMonths)
    requires ReferenceDate(a) == Some(now + 5 * DAY_MILLIS)
    requires a.currentProgress == Some(SEAL_STAGE)
    ensures InAlert(a, NeedSeal, now, addMonths)
    ensures !InAlert(a, NeedData, now, addMonths) && !InAlert(a, NeedApproval, now, addMonths)
    ensures !InAlert(a, NeedPurchase, now, addMonths)
  {
    assert SEAL_STAGE !in PendingLabels(NeedPurchase);
  }

  /** Once a record falls in the seal window with a label the data list accepts, it is on all four
      lists, since the monthly windows reach further back than fourteen days. */
  lemma SealWindowWithEarlyLabel(a: FrameworkAgreement, now: Instant, addMonths: AddMonths)
    requires MonthsReachBack15Days(addMonths)
    requires InAlert(a, NeedSeal, now, addMonths)
    requires PendingFor(NeedData, a.currentProgress)
    ensures InAlert(a, NeedData, now, addMonths) && InAlert(a, NeedApproval, now, addMonths)
    ensures InAlert(a, NeedPurchase, now, addMonths)
  {
    PendingLabelsNested();
    var ref := ReferenceDate(a).value;
    assert addMonths(ref, -3) <= ref - 15 * DAY_MILLIS;
    assert addMonths(ref, -2) <= ref - 15 * DAY_MILLIS;
    assert addMonths(ref, -1) <= ref - 15 * DAY_MILLIS;
  }

  // ---------------------------------------------------------------- display order

  /** The first sort key: 1 for a record whose progress is exactly the completed label. */
  function CompletedRank(a: FrameworkAgreement): (rank: int)
    ensures rank == 0 || rank == 1
    ensures rank == 1 <==> a.currentProgress == Some(COMPLETED)
  {
    if a.currentProgress == Some(COMPLETED) then 1 else 0
  }

  /** The level the comparator reads. Every record handed to the sort carries one
      (`SortAgreements` requires it); the 0 is never used. */
  function SortLevel(a: FrameworkAgreement): int
    reads a
  {
    if a.alertLevel.Some? then a.alertLevel.value else 0
  }

  /** `a` sorts strictly before `b`: by completed rank first, then by level. */
  predicate Precedes(a: FrameworkAgreement, b: FrameworkAgreement): (r: bool)
    reads a, b
    ensures r <==> !NotAfter(b, a)
  {
    CompletedRank(a) < CompletedRank(b)
    || (CompletedRank(a) == CompletedRank(b) && SortLevel(a) < SortLevel(b))
  }

  /** `a` may stand before `b` in the display order. */
  predicate NotAfter(a: FrameworkAgreement, b: FrameworkAgreement): (r: bool)
    reads a, b
    ensures a == b ==> r
    ensures r && CompletedRank(b) == 0 ==> CompletedRank(a) == 0
  {
    && CompletedRank(a) <= CompletedRank(b)
    && (CompletedRank(a) == CompletedRank(b) ==> SortLevel(a) <= SortLevel(b))
  }

  /** Unfinished records before completed ones, and levels non-decreasing within each group. */
  predicate SortedForDisplay(s: seq<FrameworkAgreement>)
    reads s
  {
    forall i, j :: 0 <= i < j < |s| ==> NotAfter(s[i], s[j])
  }

  /** Insertion step of the stable sort: `x` goes after every record that sorts strictly before it. */
  function InsertForDisplay(x: FrameworkAgreement, s: seq<FrameworkAgreement>): (r: seq<FrameworkAgreement>)
    reads x, s
    ensures multiset(r) == multiset(s) + multiset{x}
    ensures forall i :: 0 <= i < |r| ==> r[i] == x || r[i] in s
    decreases |s|
  {
    if s == [] then [x]
    else if Precedes(s[0], x) then
      assert s == [s[0]] + s[1..];
      [s[0]] + InsertForDisplay(x, s[1..])
    else [x] + s
  }

  /** A record that may stand before every element of a display-ordered list may head it. */
  lemma ConsKeepsSorted(h: FrameworkAgreement, s: seq<FrameworkAgreement>)
    requires SortedForDisplay(s)
    requires forall k :: 0 <= k < |s| ==> NotAfter(h, s[k])
    ensures SortedForDisplay([h] + s)
  {
    var t := [h] + s;
    forall i, j | 0 <= i < j < |t|
      ensures NotAfter(t[i], t[j])
    {
      if i == 0 {
        assert t[j] == s[j - 1];
      } else {
        assert t[i] == s[i - 1] && t[j] == s[j - 1];
      }
    }
  }

  lemma {:induction false} InsertKeepsSorted(x: FrameworkAgreement, s: seq<FrameworkAgreement>)
    requires SortedForDisplay(s)
    ensures SortedForDisplay(InsertForDisplay(x, s))
    decreases |s|
  {
    if s == [] {
      assert InsertForDisplay(x, s) == [x];
    } else if Precedes(s[0], x) {
      var rest := InsertForDisplay(x, s[1..]);
      assert SortedForDisplay(s[1..]) by {
        forall i, j | 0 <= i < j < |s[1..]|
          ensures NotAfter(s[1..][i], s[1..][j])
        {
          assert s[1..][i] == s[i + 1] && s[1..][j] == s[j + 1];
        }
      }
      InsertKeepsSorted(x, s[1..]);
      forall k | 0 <= k < |rest|
        ensures NotAfter(s[0], rest[k])
      {
        if rest[k] != x {
          var j :| 0 <= j < |s[1..]| && s[1..][j] == rest[k];
          assert s[1 + j] == rest[k];
        }
      }
      ConsKeepsSorted(s[0], rest);
      assert InsertForDisplay(x, s) == [s[0]] + rest;
    } else {
      forall k | 0 <= k < |s|
        ensures NotAfter(x, s[k])
      {
        if k > 0 {
          assert NotAfter(s[0], s[k]);
        }
      }
      ConsKeepsSorted(x, s);
      assert InsertForDisplay(x, s) == [x] + s;
    }
  }

  /** The table order: a stable sort by completed rank, then level. Java's comparator would
      fail on a record without a level, so every record must carry one. */
  function SortAgreements(s: seq<FrameworkAgreement>): (r: seq<FrameworkAgreement>)
    reads s
    requires Leveled(s)
    ensures multiset(r) == multiset(s)
    ensures forall i :: 0 <= i < |r| ==> r[i] in s
    ensures |r| == |s|
    ensures SortedForDisplay(r)
    decreases |s|
  {
    if s == [] then []
    else
      assert s == [s[0]] + s[1..];
      var rest := SortAgreements(s[1..]);
      InsertKeepsSorted(s[0], rest);
      InsertForDisplay(s[0], rest)
  }

  /** The records of `s` that have completed rank `rank` and level `level`, in order. */
  function WithKey(s: seq<FrameworkAgreement>, rank: int, level: int): (r: seq<FrameworkAgreement>)
    reads s
    decreases |s|
  {
    if s == [] then []
    else
      (if CompletedRank(s[0]) == rank && s[0].alertLevel == Some(level) then [s[0]] else [])
        + WithKey(s[1..], rank, level)
  }

  lemma {:induction false} InsertWithKey(x: FrameworkAgreement, s: seq<FrameworkAgreement>, rank: int, level: int)
    ensures WithKey(InsertForDisplay(x, s), rank, level) ==
            (if CompletedRank(x) == rank && x.alertLevel == Some(level) then [x] else []) + WithKey(s, rank, level)
    decreases |s|
  {
    var r := InsertForDisplay(x, s);
    if s == [] {
      assert r[1..] == [];
    } else if Precedes(s[0], x) {
      var rest := InsertForDisplay(x, s[1..]);
      assert r == [s[0]] + rest;
      assert r[1..] == rest;
      InsertWithKey(x, s[1..], rank, level);
    } else {
      assert r[1..] == s;
    }
  }

  /** The sort is stable: records with equal keys keep their input order. */
  lemma {:induction false} SortIsStable(s: seq<FrameworkAgreement>, rank: int, level: int)
    requires Leveled(s)
    ensures WithKey(SortAgreements(s), rank, level) == WithKey(s, rank, level)
    decreases |s|
  {
    if s != [] {
      SortIsStable(s[1..], rank, level);
      InsertWithKey(s[0], SortAgreements(s[1..]), rank, level);
    }
  }

  /** A completed level-2 record sorts after an unfinished level-3 one. */
  lemma SortExample(a: FrameworkAgreement, b: FrameworkAgreement, c: FrameworkAgreement)
    requires a.alertLevel == Some(2) && a.currentProgress == Some(COMPLETED)
    requires b.alertLevel == Some(1) && b.currentProgress == Some("进行中")
    requires c.alertLevel == Some(3) && c.currentProgress == Some("")
    ensures SortAgreements([a, b, c]) == [b, c, a]
  {
    SortExampleTail(b, c);
    SortExampleHead(a, b, c);
    assert [a, b, c][1..] == [b, c];
  }

  lemma SortExampleTail(b: FrameworkAgreement, c: FrameworkAgreement)
    requires b.alertLevel == Some(1) && b.currentProgress == Some("进行中")
    requires c.alertLevel == Some(3) && c.currentProgress == Some("")
    ensures SortAgreements([b, c]) == [b, c]
  {
    assert [c][1..] == [];
    assert SortAgreements([c]) == [c];
    assert [b, c][1..] == [c];
  }

  lemma SortExampleHead(a: FrameworkAgreement, b: FrameworkAgreement, c: FrameworkAgreement)
    requires a.alertLevel == Some(2) && a.currentProgress == Some(COMPLETED)
    requires b.alertLevel == Some(1) && b.currentProgress == Some("进行中")
    requires c.alertLevel == Some(3) && c.currentProgress == Some("")
    ensures InsertForDisplay(a, [b, c]) == [b, c, a]
  {
    assert [c][1..] == [];
    assert InsertForDisplay(a, [c]) == [c, a];
    assert [b, c][1..] == [c];
  }

  // ---------------------------------------------------------------- the whole pass

  /** The analysis pass: filter, level in place, build the four lists, sort the table.
      `now` is the one clock reading the pass uses; `nowText` is its text form for the subject. */
  method AnalyzeAlerts(allAgreements: seq<FrameworkAgreement>, now: Instant, nowText: string,
                       addMonths: AddMonths)
    returns (mail: MailContent)
    modifies TargetAgreements(allAgreements)
    ensures var target := TargetAgreements(allAgreements);
      && LevelsCalculated(target, now)
      && Leveled(target)
      && mail.subject == SUBJECT_PREFIX + nowText
      && IsAlertList(mail.needDataAlert, target, NeedData, now, addMonths)
      && IsAlertList(mail.needApprovalAlert, target, NeedApproval, now, addMonths)
      && IsAlertList(mail.needPurchaseAlert, target, NeedPurchase, now, addMonths)
      && IsAlertList(mail.needSealAlert, target, NeedSeal, now, addMonths)
      && mail.tableData == SortAgreements(target)
    ensures forall a :: a in allAgreements ==> a.referenceDate == old(a.referenceDate)
    ensures forall a :: a in allAgreements && a !in TargetAgreements(allAgreements) ==>
      a.alertLevel == old(a.alertLevel)
  {
    var targetAgreements := TargetAgreements(allAgreements);
    CalculateUrgencyLevel(targetAgreements, now);
    assert Leveled(targetAgreements);
    var subject := SUBJECT_PREFIX + nowText;
    var needData := GenerateNeedDataAlert(targetAgreements, now, addMonths);
    var needApproval := GenerateNeedApprovalAlert(targetAgreements, now, addMonths);
    var needPurchase := GenerateNeedPurchaseAlert(targetAgreements, now, addMonths);
    var needSeal := GenerateNeedSealAlert(targetAgreements, now, addMonths);
    mail := MailContent(subject, needData, needApproval, needPurchase, needSeal,
                        SortAgreements(targetAgreements));
  }

}
