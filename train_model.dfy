/**
 The fine-tuning script: loading the base sentence model with a local cache and
 a retry loop with exponential backoff, and labelling (context, suggestion)
 pairs per application owner.
 */
module TrainModel {
  import opened Table

  // ---------------------------------------------------------------------
  // load_model_safely

  const MaxRetries := 5
  const BaseDelay := 1
  /** The cap on one backoff delay, in seconds. */
  const DelayCap := 60

  /** How one download attempt ends: the model (and, with a cache path, its saved copy), an
      error whose text contains "429", or any other error. */
  datatype Attempt = Downloaded | RateLimited | Failed

  /** The local cache: no path given, or a directory with this many entries (0 when it does not
      exist) whose model loads or raises. */
  datatype Cache = NoCachePath | CacheDir(entries: nat, loads: bool)

  /** How `load_model_safely` ends: a model from the cache, a model from a download attempt,
      the error of the last attempt raised again, or the final "Failed to load" exception. */
  datatype Loaded = FromCache | FromDownload(attempt: nat) | ReRaised(attempt: nat) | GaveUp

  predicate UsableCache(c: Cache)
  {
    c.CacheDir? && c.entries > 0 && c.loads
  }

  predicate IsError(l: Loaded)
  {
    l.ReRaised? || l.GaveUp?
  }

  function Pow2(n: nat): (p: nat)
    ensures p >= 1
  {
    if n == 0 then 1 else 2 * Pow2(n - 1)
  }

  /** The sleep after a rate-limited attempt: `min(base_delay * 2 ** attempt, 60)`. */
  function Backoff(attempt: nat): nat
  {
    if BaseDelay * Pow2(attempt) < DelayCap then BaseDelay * Pow2(attempt) else DelayCap
  }

  /** The sleeps taken by the first `n` attempts. */
  function Sleeps(outcome: nat -> Attempt, n: nat): seq<nat>
  {
    if n == 0 then []
    else Sleeps(outcome, n - 1) + (if outcome(n - 1) == RateLimited then [Backoff(n - 1)] else [])
  }

  /** The number of attempts before the one that ended the call, or all of them. */
  function AttemptsBefore(l: Loaded): nat
  {
    match l
    case FromCache => 0
    case FromDownload(a) => a
    case ReRaised(a) => a
    case GaveUp => MaxRetries
  }

  function SumOf(xs: seq<nat>): nat
  {
    if xs == [] then 0 else SumOf(xs[..|xs| - 1]) + xs[|xs| - 1]
  }

  /** `load_model_safely`: the cache first, then up to five downloads. A rate-limited attempt
      sleeps; any other error is raised again on the last attempt only. */
  method LoadModelSafely(cache: Cache, outcome: nat -> Attempt)
    returns (r: Loaded, sleeps: seq<nat>, saved: bool)
    ensures r == FromCache <==> UsableCache(cache)
    ensures r.FromDownload? ==>
              && r.attempt < MaxRetries
              && outcome(r.attempt) == Downloaded
              && forall j :: 0 <= j < r.attempt ==> outcome(j) != Downloaded
    ensures r.ReRaised? ==>
              && r.attempt == MaxRetries - 1
              && outcome(r.attempt) == Failed
              && forall j :: 0 <= j < r.attempt ==> outcome(j) != Downloaded
    ensures r.GaveUp? ==>
              && outcome(MaxRetries - 1) == RateLimited
              && forall j :: 0 <= j < MaxRetries ==> outcome(j) != Downloaded
    ensures sleeps == Sleeps(outcome, AttemptsBefore(r))
    ensures saved <==> r.FromDownload? && cache.CacheDir?
  {
    saved := false;
    sleeps := [];
    if UsableCache(cache) {
      return FromCache, sleeps, saved;
    }
    for attempt := 0 to MaxRetries
      invariant forall j :: 0 <= j < attempt ==> outcome(j) != Downloaded
      invariant attempt == MaxRetries ==> outcome(MaxRetries - 1) == RateLimited
      invariant sleeps == Sleeps(outcome, attempt)
    {
      match outcome(attempt) {
        case Downloaded =>
          saved := cache.CacheDir?;
          return FromDownload(attempt), sleeps, saved;
        case RateLimited =>
          sleeps := sleeps + [Backoff(attempt)];
        case Failed =>
          if attempt == MaxRetries - 1 {
            return ReRaised(attempt), sleeps, saved;
          }
      }
    }
    r := GaveUp;
  }

  /** Some attempt that the loop reaches succeeds exactly when the download path returns a
      model. */
  lemma LoadOutcomes(cache: Cache, outcome: nat -> Attempt, r: Loaded)
    requires !UsableCache(cache) && r != FromCache
    requires r.FromDownload? ==>
               && r.attempt < MaxRetries
               && outcome(r.attempt) == Downloaded
               && forall j :: 0 <= j < r.attempt ==> outcome(j) != Downloaded
    requires r.ReRaised? ==>
               && r.attempt == MaxRetries - 1
               && outcome(r.attempt) == Failed
               && forall j :: 0 <= j < r.attempt ==> outcome(j) != Downloaded
    requires r.GaveUp? ==>
               && outcome(MaxRetries - 1) == RateLimited
               && forall j :: 0 <= j < MaxRetries ==> outcome(j) != Downloaded
    ensures !IsError(r) <==> exists j :: 0 <= j < MaxRetries && outcome(j) == Downloaded
  {
    if r.FromDownload? {
      assert outcome(r.attempt) == Downloaded;
    }
  }

  lemma Pow2Values()
    ensures Pow2(0) == 1 && Pow2(1) == 2 && Pow2(2) == 4 && Pow2(3) == 8 && Pow2(4) == 16 && Pow2(5) == 32
  {
    assert Pow2(1) == 2;
    assert Pow2(2) == 4;
    assert Pow2(3) == 8;
    assert Pow2(4) == 16;
  }

  lemma Pow2AtMost32(n: nat)
    requires n <= MaxRetries
    ensures Pow2(n) <= 32
  {
    Pow2Values();
    assert n == 0 || n == 1 || n == 2 || n == 3 || n == 4 || n == 5;
  }

  /** Within the five attempts the backoff doubles from one second and the 60-second cap is
      never reached. */
  lemma BackoffDoubles(attempt: nat)
    requires attempt < MaxRetries
    ensures Backoff(attempt) == Pow2(attempt) <= 16
  {
    Pow2Values();
    assert attempt == 0 || attempt == 1 || attempt == 2 || attempt == 3 || attempt == 4;
  }

  lemma SumOfAppend(xs: seq<nat>, x: nat)
    ensures SumOf(xs + [x]) == SumOf(xs) + x
  {
    assert (xs + [x])[..|xs|] == xs;
  }

  /** Every sleep of the first `n` attempts is shorter than `2^n` seconds, and at most 16. */
  lemma {:induction false} SleepsBelow(outcome: nat -> Attempt, n: nat)
    requires n <= MaxRetries
    ensures forall k :: 0 <= k < |Sleeps(outcome, n)| ==>
              Sleeps(outcome, n)[k] < Pow2(n) && Sleeps(outcome, n)[k] <= 16
  {
    if n > 0 {
      var prev := Sleeps(outcome, n - 1);
      var s := Sleeps(outcome, n);
      SleepsBelow(outcome, n - 1);
      BackoffDoubles(n - 1);
      assert Pow2(n) == 2 * Pow2(n - 1);
      forall k | 0 <= k < |s|
        ensures s[k] < Pow2(n) && s[k] <= 16
      {
        if k < |prev| {
          assert s[k] == prev[k];
        } else {
          assert s[k] == Backoff(n - 1);
        }
      }
    }
  }

  /** The sleeps of the first `n` attempts total less than `2^n` seconds. */
  lemma {:induction false} SleepsSumBelow(outcome: nat -> Attempt, n: nat)
    requires n <= MaxRetries
    ensures SumOf(Sleeps(outcome, n)) < Pow2(n)
  {
    if n > 0 {
      var prev := Sleeps(outcome, n - 1);
      SleepsSumBelow(outcome, n - 1);
      BackoffDoubles(n - 1);
      assert Pow2(n) == 2 * Pow2(n - 1);
      if outcome(n - 1) == RateLimited {
        assert Sleeps(outcome, n) == prev + [Backoff(n - 1)];
        SumOfAppend(prev, Backoff(n - 1));
      } else {
        assert Sleeps(outcome, n) == prev;
      }
    }
  }

  /** Whatever way the call ends, no sleep exceeds 16 seconds and all sleeps total at most 31. */
  lemma AllSleepsBounded(outcome: nat -> Attempt, r: Loaded)
    requires AttemptsBefore(r) <= MaxRetries
    ensures forall k :: 0 <= k < |Sleeps(outcome, AttemptsBefore(r))| ==> Sleeps(outcome, AttemptsBefore(r))[k] <= 16
    ensures SumOf(Sleeps(outcome, AttemptsBefore(r))) <= 31
  {
    var n := AttemptsBefore(r);
    SleepsBelow(outcome, n);
    SleepsSumBelow(outcome, n);
    Pow2AtMost32(n);
  }

  // ---------------------------------------------------------------------
  // create_training_examples

  /** One owner's figures, as the context text of its pairs reports them. */
  datatype Context = Context(
    id: string, name: string, apps: seq<string>,
    criticalHigh: nat, open: nat, avgDaysToClose: Option<real>, highRisk: nat, avgRepeats: Option<real>)

  /** Which suggestion text a pair holds. */
  datatype Suggestion =
    | FocusCriticalHigh   // address the owner's critical/high findings, with their number
    | PrioritiseOpen      // remediate the owner's open findings, with their number
    | SlowClosure         // the average closure time is above the 30-day target
    | HighRiskItems       // the owner's high-risk items need attention, with their number
    | GenericCriticalHigh // the critical/high advice without a number, for an owner without any
    | SecurityTraining    // team security training

  /** One `InputExample`: the owner's context, the suggestion and the similarity label. */
  datatype Example = Example(context: Context, suggestion: Suggestion, score: real)

  datatype Training = Exit | Examples(examples: seq<Example>)

  function OwnerIs(id: string): Row -> bool
  {
    (r: Row) => r.v.ownerId == id
  }

  function CriticalHighSeverity(): Row -> bool
  {
    (r: Row) => r.v.severity in ["Critical", "High"]
  }

  function IsOpenStatus(): Row -> bool
  {
    (r: Row) => r.v.status == "Open"
  }

  function HighCvssOrRisk(): Row -> bool
  {
    (r: Row) => r.v.cvss > 7.0 || r.v.risk > 7.0
  }

  /** The figures of an owner that has rows (`ao_data`); the name is that of its first row. */
  function ContextOf(rows: seq<Row>, id: string): Context
    requires Count(rows, OwnerIs(id)) > 0
  {
    var own := Filter(rows, OwnerIs(id));
    Context(id, own[0].v.ownerName, Distinct(AppColumn(own)),
            Count(own, CriticalHighSeverity()), Count(own, IsOpenStatus()),
            Mean(DaysToCloseColumn(own)), Count(own, HighCvssOrRisk()), Mean(RepeatsColumn(own)))
  }

  /** Whether an owner's figures call for this suggestion. */
  predicate Applies(c: Context, s: Suggestion)
  {
    match s
    case FocusCriticalHigh => c.criticalHigh > 3
    case PrioritiseOpen => c.open > 5
    case SlowClosure => Gt(c.avgDaysToClose, 30.0)
    case HighRiskItems => c.highRisk > 0
    case GenericCriticalHigh => c.criticalHigh == 0
    case SecurityTraining => true
  }

  /** The similarity label of a suggestion: relevant, unrelated or medium. */
  function Label(s: Suggestion): real
  {
    match s
    case GenericCriticalHigh => 0.2
    case SecurityTraining => 0.6
    case _ => 1.0
  }

  /** The pair for this suggestion, when it applies. */
  function Pair(c: Context, s: Suggestion): (ex: seq<Example>)
    ensures |ex| <= 1
    ensures forall e :: e in ex ==> e == Example(c, s, Label(s))
    ensures |ex| == 1 <==> Applies(c, s)
  {
    if Applies(c, s) then [Example(c, s, Label(s))] else []
  }

  /** The pairs of one owner, in the order the source appends them. */
  function OwnerExamples(c: Context): seq<Example>
  {
    Pair(c, FocusCriticalHigh) + Pair(c, PrioritiseOpen) + Pair(c, SlowClosure) + Pair(c, HighRiskItems)
    + Pair(c, GenericCriticalHigh) + Pair(c, SecurityTraining)
  }

  predicate HasSuggestion(ex: seq<Example>, s: Suggestion)
  {
    exists e :: e in ex && e.suggestion == s
  }

  /** The number of pairs with this label. */
  function LabelCount(ex: seq<Example>, score: real): nat
  {
    if ex == [] then 0
    else LabelCount(ex[..|ex| - 1], score) + (if ex[|ex| - 1].score == score then 1 else 0)
  }

  lemma HasSuggestionPair(c: Context, s: Suggestion, t: Suggestion)
    ensures HasSuggestion(Pair(c, s), t) <==> s == t && Applies(c, s)
  {
    if s == t && Applies(c, s) {
      assert Pair(c, s)[0] in Pair(c, s);
    }
  }

  /** An owner gets the pair of a suggestion exactly when its figures call for it. */
  lemma HasSuggestionApplies(c: Context, t: Suggestion)
    ensures HasSuggestion(OwnerExamples(c), t) <==> Applies(c, t)
  {
    HasSuggestionPair(c, FocusCriticalHigh, t);
    HasSuggestionPair(c, PrioritiseOpen, t);
    HasSuggestionPair(c, SlowClosure, t);
    HasSuggestionPair(c, HighRiskItems, t);
    HasSuggestionPair(c, GenericCriticalHigh, t);
    HasSuggestionPair(c, SecurityTraining, t);
  }

  /** The four relevant pairs exactly when their thresholds are passed, the unrelated one
      exactly when the owner has no critical/high finding, so never together with the
      critical/high focus, and the training pair always. */
  lemma OwnerExamplesSpec(c: Context)
    ensures var ex := OwnerExamples(c);
      && (HasSuggestion(ex, FocusCriticalHigh) <==> c.criticalHigh > 3)
      && (HasSuggestion(ex, PrioritiseOpen) <==> c.open > 5)
      && (HasSuggestion(ex, SlowClosure) <==> Gt(c.avgDaysToClose, 30.0))
      && (HasSuggestion(ex, HighRiskItems) <==> c.highRisk > 0)
      && (HasSuggestion(ex, GenericCriticalHigh) <==> c.criticalHigh == 0)
      && !(HasSuggestion(ex, FocusCriticalHigh) && HasSuggestion(ex, GenericCriticalHigh))
      && HasSuggestion(ex, SecurityTraining)
  {
    HasSuggestionApplies(c, FocusCriticalHigh);
    HasSuggestionApplies(c, PrioritiseOpen);
    HasSuggestionApplies(c, SlowClosure);
    HasSuggestionApplies(c, HighRiskItems);
    HasSuggestionApplies(c, GenericCriticalHigh);
    HasSuggestionApplies(c, SecurityTraining);
  }

  /** Every pair of an owner is about that owner; the relevant ones are labelled 1.0, the
      unrelated one 0.2 and the training one 0.6. */
  lemma OwnerExamplesLabels(c: Context)
    ensures forall e :: e in OwnerExamples(c) ==>
              && e.context == c
              && (e.score == 1.0 <==> e.suggestion !in {GenericCriticalHigh, SecurityTraining})
              && (e.score == 0.2 <==> e.suggestion == GenericCriticalHigh)
              && (e.score == 0.6 <==> e.suggestion == SecurityTraining)
  {
  }

  /** One to five pairs, the training pair last and the only one labelled 0.6. */
  lemma OwnerExamplesShape(c: Context)
    ensures var ex := OwnerExamples(c);
      && 1 <= |ex| <= 5
      && ex[|ex| - 1] == Example(c, SecurityTraining, 0.6)
      && LabelCount(ex, 0.6) == 1
  {
    var ex := OwnerExamples(c);
    var init := ex[..|ex| - 1];
    assert init == Pair(c, FocusCriticalHigh) + Pair(c, PrioritiseOpen) + Pair(c, SlowClosure)
                   + Pair(c, HighRiskItems) + Pair(c, GenericCriticalHigh);
    assert forall i :: 0 <= i < |init| ==> init[i].score != 0.6 by {
      assert forall i :: 0 <= i < |init| ==> init[i] in init;
    }
    LabelCountNone(init, 0.6);
  }

  lemma {:induction false} LabelCountNone(ex: seq<Example>, score: real)
    requires forall i :: 0 <= i < |ex| ==> ex[i].score != score
    ensures LabelCount(ex, score) == 0
  {
    if ex != [] {
      LabelCountNone(ex[..|ex| - 1], score);
    }
  }

  lemma {:induction false} LabelCountAppend(a: seq<Example>, b: seq<Example>, score: real)
    ensures LabelCount(a + b, score) == LabelCount(a, score) + LabelCount(b, score)
  {
    if b == [] {
      assert a + b == a;
    } else {
      var ab := a + b;
      assert ab[..|ab| - 1] == a + b[..|b| - 1];
      assert ab[|ab| - 1] == b[|b| - 1];
      LabelCountAppend(a, b[..|b| - 1], score);
    }
  }

  /** Every id is that of an owner with rows. */
  predicate AllOwners(rows: seq<Row>, ids: seq<string>)
  {
    forall i :: 0 <= i < |ids| ==> Count(rows, OwnerIs(ids[i])) > 0
  }

  /** The pairs of these owners, owner after owner. */
  function ExamplesFor(rows: seq<Row>, ids: seq<string>): seq<Example>
    requires AllOwners(rows, ids)
  {
    if ids == [] then []
    else ExamplesFor(rows, ids[..|ids| - 1]) + OwnerExamples(ContextOf(rows, ids[|ids| - 1]))
  }

  lemma OwnersHaveRows(rows: seq<Row>, ids: seq<string>)
    requires forall i :: 0 <= i < |ids| ==> ids[i] in OwnerColumn(rows)
    ensures AllOwners(rows, ids)
  {
    forall i | 0 <= i < |ids| ensures Count(rows, OwnerIs(ids[i])) > 0 {
      var k :| 0 <= k < |rows| && OwnerColumn(rows)[k] == ids[i];
      assert rows[k] in rows && OwnerIs(ids[i])(rows[k]);
      CountPositive(rows, OwnerIs(ids[i]));
    }
  }

  /** `df['Application_Owner_ID'].unique()`. */
  function Owners(rows: seq<Row>): (ids: seq<string>)
    ensures AllOwners(rows, ids)
    ensures NoDuplicates(ids) && forall x :: x in ids <==> x in OwnerColumn(rows)
  {
    var ids := Distinct(OwnerColumn(rows));
    OwnersHaveRows(rows, ids);
    ids
  }

  function TrainingExamples(rows: seq<Row>): seq<Example>
  {
    ExamplesFor(rows, Owners(rows))
  }

  lemma ExamplesForSnoc(rows: seq<Row>, ids: seq<string>, i: nat)
    requires AllOwners(rows, ids) && i < |ids|
    ensures AllOwners(rows, ids[..i]) && AllOwners(rows, ids[..i + 1])
    ensures ExamplesFor(rows, ids[..i + 1]) == ExamplesFor(rows, ids[..i]) + OwnerExamples(ContextOf(rows, ids[i]))
  {
    assert ids[..i + 1][..i] == ids[..i];
  }

  /** `create_training_examples`: exit when the base model cannot be loaded, otherwise the pairs
      of every owner in order of first appearance. */
  method CreateTrainingExamples(rows: seq<Row>, base: Loaded) returns (r: Training)
    ensures r == Exit <==> IsError(base)
    ensures r.Examples? ==> r.examples == TrainingExamples(rows)
  {
    if IsError(base) {
      return Exit;
    }
    var examples: seq<Example> := [];
    var aos := Owners(rows);
    for i := 0 to |aos|
      invariant examples == ExamplesFor(rows, aos[..i])
    {
      ExamplesForSnoc(rows, aos, i);
      examples := examples + OwnerExamples(ContextOf(rows, aos[i]));
    }
    assert aos[..|aos|] == aos;
    r := Examples(examples);
  }

  /** Between one and five pairs per owner, and exactly one training pair (0.6) per owner. */
  lemma {:induction false} ExamplesForCount(rows: seq<Row>, ids: seq<string>)
    requires AllOwners(rows, ids)
    ensures var ex := ExamplesFor(rows, ids);
      && |ids| <= |ex| <= 5 * |ids|
      && LabelCount(ex, 0.6) == |ids|
  {
    if ids != [] {
      var init := ids[..|ids| - 1];
      assert AllOwners(rows, init);
      ExamplesForCount(rows, init);
      var c := ContextOf(rows, ids[|ids| - 1]);
      OwnerExamplesShape(c);
      LabelCountAppend(ExamplesFor(rows, init), OwnerExamples(c), 0.6);
    }
  }

  /** Every pair is about one of these owners. */
  lemma {:induction false} ExamplesForOwners(rows: seq<Row>, ids: seq<string>)
    requires AllOwners(rows, ids)
    ensures forall e :: e in ExamplesFor(rows, ids) ==> e.context.id in ids
  {
    if ids != [] {
      var init := ids[..|ids| - 1];
      assert AllOwners(rows, init);
      ExamplesForOwners(rows, init);
      var c := ContextOf(rows, ids[|ids| - 1]);
      OwnerExamplesLabels(c);
      assert forall e :: e in ExamplesFor(rows, init) ==> e.context.id in ids by {
        assert forall x :: x in init ==> x in ids;
      }
    }
  }

  /** Over the whole table: between #owners and 5 × #owners pairs, #owners of them labelled 0.6,
      all about owners present in the table. */
  lemma TrainingExamplesSpec(rows: seq<Row>)
    ensures var ex := TrainingExamples(rows);
      && |Owners(rows)| <= |ex| <= 5 * |Owners(rows)|
      && LabelCount(ex, 0.6) == |Owners(rows)|
      && forall e :: e in ex ==> e.context.id in OwnerColumn(rows)
  {
    ExamplesForCount(rows, Owners(rows));
    ExamplesForOwners(rows, Owners(rows));
  }
}
