/**
 The direct model integration used by the simplified dashboard: four fixed
 rules over the selected rows, a keyword-dispatch chatbot and the lazily
 created process-wide instance.
 */
module ModelIntegration {
  import opened Table
  import opened Sorting
  import opened Text
  import opened TemplateBank

  /** The spreadsheet as read at start-up. It is read without the derived columns, so
      `Days_Open` is present only if the file itself carries it. */
  datatype Frame = Frame(rows: seq<Row>, hasDaysOpen: bool)

  /** `ao_ids`: one id as a string, or a list of ids. */
  datatype OwnerArg = OwnerString(id: string) | OwnerList(ids: seq<string>)

  /** `dept_names`: absent, one name as a string, or a list of names. */
  datatype DeptArg = NoDepts | DeptString(name: string) | DeptList(names: seq<string>)

  /** A string becomes a one-element list. */
  function OwnerIds(ao: OwnerArg): (ids: seq<string>)
    ensures ao.OwnerString? ==> ids == [ao.id]
    ensures ao.OwnerList? ==> ids == ao.ids
  {
    match ao
    case OwnerString(id) => [id]
    case OwnerList(ids) => ids
  }

  /** The department names that filter, or None when no department filter applies: a string
      becomes a one-element list unless it is empty, and an empty list is false in `if`. */
  function DeptFilter(d: DeptArg): (f: Option<seq<string>>)
    ensures f.Some? ==> |f.value| > 0
    ensures f.None? <==> d.NoDepts? || d == DeptString("") || d == DeptList([])
  {
    match d
    case NoDepts => None
    case DeptString(name) => if name == "" then None else Some([name])
    case DeptList(names) => if |names| == 0 then None else Some(names)
  }

  /** `filtered_df`: the selected owners' rows, then the selected departments' rows. */
  function Selection(rows: seq<Row>, ao: OwnerArg, d: DeptArg): seq<Row>
  {
    var ids := OwnerIds(ao);
    var byOwner := Filter(rows, (r: Row) => r.v.ownerId in ids);
    match DeptFilter(d)
    case None => byOwner
    case Some(names) => Filter(byOwner, (r: Row) => r.v.deptName in names)
  }

  /** A row is selected exactly when its owner is selected and, if a department filter applies,
      its department is selected; row order is kept. */
  lemma SelectionSpec(rows: seq<Row>, ao: OwnerArg, d: DeptArg)
    ensures forall r :: r in Selection(rows, ao, d) <==>
      && r in rows
      && r.v.ownerId in OwnerIds(ao)
      && (DeptFilter(d).Some? ==> r.v.deptName in DeptFilter(d).value)
  {
  }

  // ---------------------------------------------------------------------
  // The four rules

  const RuleCount := 4

  /** The subset each rule counts: Critical/High severity, Days_Open above 30 (NaN is not),
      CVSS above 7.0, status Open or In Progress. */
  function RuleSubset(t: nat): Row -> bool
  {
    if t == 0 then (r: Row) => IsCriticalHighSeverity(r.v.severity)
    else if t == 1 then (r: Row) => Gt(r.flags.daysOpen, 30.0)
    else if t == 2 then (r: Row) => r.v.cvss > 7.0
    else (r: Row) => r.v.status == "Open" || r.v.status == "In Progress"
  }

  const RulePriorities: seq<string> := ["High", "Medium", "High", "Medium"]

  /** A suggestion card: a rule with the size of its subset and the average the text quotes
      (mean Days_Open for rule 0, mean CVSS for rule 2), or the single error card. */
  datatype Card = RuleCard(rule: nat, count: nat, average: Option<real>) | ErrorCard

  function Priority(c: Card): string
  {
    if c.RuleCard? && c.rule < |RulePriorities| then RulePriorities[c.rule] else "Low"
  }

  /** The rule fires when its subset of the selection is non-empty. */
  function Fires(sel: seq<Row>): nat -> bool
  {
    (t: nat) => Count(sel, RuleSubset(t)) > 0
  }

  /** The card of rule `t` on the selection. */
  function CardOf(sel: seq<Row>, t: nat): Card
  {
    var subset := Filter(sel, RuleSubset(t));
    var average :=
      if t == 0 then Mean(DaysOpenColumn(subset))
      else if t == 2 && |subset| > 0 then Some(MeanOf(CvssColumn(subset)))
      else None;
    RuleCard(t, |subset|, average)
  }

  function CardsOf(sel: seq<Row>, ids: seq<nat>): (c: seq<Card>)
    ensures |c| == |ids|
    ensures forall k :: 0 <= k < |ids| ==> c[k] == CardOf(sel, ids[k])
  {
    if ids == [] then [] else CardsOf(sel, ids[..|ids| - 1]) + [CardOf(sel, ids[|ids| - 1])]
  }

  /** Every fired rule's card, in rule order. */
  function RulesOn(sel: seq<Row>): seq<Card>
  {
    CardsOf(sel, Selected(Fires(sel), RuleCount))
  }

  /** The body of `generate_suggestions`: the fired rules in order, cut to `max_suggestions`
      (a Python slice, so a negative bound counts from the end); a missing Days_Open column
      raises KeyError, which yields the single error card. */
  function SuggestionsOf(frame: Frame, ao: OwnerArg, d: DeptArg, maxSuggestions: int): seq<Card>
  {
    if !frame.hasDaysOpen then [ErrorCard]
    else PrefixSlice(RulesOn(Selection(frame.rows, ao, d)), maxSuggestions)
  }

  /** `max_suggestions` when the caller gives none. */
  const DefaultMax := 4

  /** One rule check appends that rule's card exactly when the rule fires. */
  lemma RuleStep(sel: seq<Row>, t: nat)
    ensures CardsOf(sel, Selected(Fires(sel), t + 1)) ==
      CardsOf(sel, Selected(Fires(sel), t)) + (if Count(sel, RuleSubset(t)) > 0 then [CardOf(sel, t)] else [])
  {
    var ids := Selected(Fires(sel), t);
    if Fires(sel)(t) {
      assert (ids + [t])[..|ids|] == ids;
    }
  }

  /** The four `if len(subset) > 0: suggestions.append(...)` blocks, one per rule in rule
      order, written as one loop over the rule table. */
  method ApplyRules(sel: seq<Row>) returns (suggestions: seq<Card>)
    ensures suggestions == RulesOn(sel)
  {
    suggestions := [];
    assert suggestions == CardsOf(sel, Selected(Fires(sel), 0));
    for t := 0 to RuleCount
      invariant suggestions == CardsOf(sel, Selected(Fires(sel), t))
    {
      RuleStep(sel, t);
      if Count(sel, RuleSubset(t)) > 0 {
        suggestions := suggestions + [CardOf(sel, t)];
      }
    }
  }

  /** `generate_suggestions` without its cache: filtering, the rule checks, then the slice. */
  method GenerateSuggestions(frame: Frame, ao: OwnerArg, d: DeptArg, maxSuggestions: int)
    returns (r: seq<Card>)
    ensures r == SuggestionsOf(frame, ao, d, maxSuggestions)
  {
    if !frame.hasDaysOpen {
      return [ErrorCard];
    }
    var sel := Selection(frame.rows, ao, d);
    var suggestions := ApplyRules(sel);
    r := PrefixSlice(suggestions, maxSuggestions);
  }

  /** The cards of the fired rules below `n`: each once, in rule order, each counting a
      non-empty subset, and every fired rule has one. */
  lemma {:induction false} FiredCardsSpec(sel: seq<Row>, n: nat)
    ensures var r := CardsOf(sel, Selected(Fires(sel), n));
      && |r| <= n
      && (forall k :: 0 <= k < |r| ==>
            r[k].RuleCard? && r[k].rule < n && r[k].count == Count(sel, RuleSubset(r[k].rule)) > 0)
      && (forall k, l :: 0 <= k < l < |r| ==> r[k].rule < r[l].rule)
      && (forall t :: 0 <= t < n ==>
            (Count(sel, RuleSubset(t)) > 0 <==> exists k :: 0 <= k < |r| && r[k].rule == t))
  {
    var ids := Selected(Fires(sel), n);
    SelectedSpec(Fires(sel), n);
    var r := CardsOf(sel, ids);
    forall k | 0 <= k < |r|
      ensures r[k].RuleCard? && r[k].rule < n && r[k].count == Count(sel, RuleSubset(r[k].rule)) > 0
    {
      assert r[k] == CardOf(sel, ids[k]);
      assert Fires(sel)(ids[k]);
    }
    forall t | 0 <= t < n
      ensures Count(sel, RuleSubset(t)) > 0 <==> exists k :: 0 <= k < |r| && r[k].rule == t
    {
      if Count(sel, RuleSubset(t)) > 0 {
        assert Fires(sel)(t);
        var k :| 0 <= k < |ids| && ids[k] == t;
        assert r[k].rule == t;
      }
    }
  }

  /** Without the Days_Open column there is exactly one card, of priority "Low"; with it, at
      most `max_suggestions` of the fired rules' cards are kept, from the front, and with the
      default bound all of them. */
  lemma SuggestionsSpec(frame: Frame, ao: OwnerArg, d: DeptArg, maxSuggestions: int)
    ensures var r := SuggestionsOf(frame, ao, d, maxSuggestions);
      && (!frame.hasDaysOpen ==> r == [ErrorCard] && Priority(r[0]) == "Low")
      && (frame.hasDaysOpen ==> r <= RulesOn(Selection(frame.rows, ao, d)))
      && (frame.hasDaysOpen && maxSuggestions >= 0 ==> |r| <= maxSuggestions)
      && (frame.hasDaysOpen && maxSuggestions >= DefaultMax ==> r == RulesOn(Selection(frame.rows, ao, d)))
  {
    if frame.hasDaysOpen {
      FiredCardsSpec(Selection(frame.rows, ao, d), RuleCount);
    }
  }

  /** What a call of the cached method gives its caller: the list, or the TypeError raised
      while hashing the arguments. */
  datatype CallResult = Returned(cards: seq<Card>) | UnhashableArgument

  /** `generate_suggestions` as written, behind `@lru_cache`: the cache hashes every argument
      before the body runs, so a list of owners or of departments raises TypeError outside
      the method's own `try`. */
  function GenerateSuggestionsCachedAsWritten(frame: Frame, ao: OwnerArg, d: DeptArg, maxSuggestions: int)
    : (r: CallResult)
    ensures r.UnhashableArgument? <==> ao.OwnerList? || d.DeptList?
  {
    if ao.OwnerList? || d.DeptList? then UnhashableArgument
    else Returned(SuggestionsOf(frame, ao, d, maxSuggestions))
  }

  /** The multi-select owner dropdown always delivers a list, so as written no selection made
      there reaches the rules, while the uncached body answers every such selection with at
      least one card when some rule fires. */
  lemma CachedListSelectionNeverReachesRules(frame: Frame, ids: seq<string>, d: DeptArg)
    ensures GenerateSuggestionsCachedAsWritten(frame, OwnerList(ids), d, DefaultMax) == UnhashableArgument
    ensures frame.hasDaysOpen && Count(Selection(frame.rows, OwnerList(ids), d), RuleSubset(3)) > 0 ==>
              |SuggestionsOf(frame, OwnerList(ids), d, DefaultMax)| > 0
  {
    if frame.hasDaysOpen {
      var sel := Selection(frame.rows, OwnerList(ids), d);
      FiredCardsSpec(sel, RuleCount);
      SuggestionsSpec(frame, OwnerList(ids), d, DefaultMax);
    }
  }

  // ---------------------------------------------------------------------
  // The chatbot

  /** `user_message`; anything but a string makes `.lower()` raise. */
  datatype Message = Text(s: string) | NotText

  /** The reply texts, with the counts the vulnerability reply quotes. */
  datatype Reply =
    | BestPractices
    | VulnerabilityCounts(critical: nat, high: nat)
    | VulnerabilityOverview
    | RiskGuide
    | DashboardHelp
    | GeneralHelp
    | Apology

  const BestPracticeWords: seq<string> := ["best practice", "recommend", "should", "how to"]
  const VulnerabilityWords: seq<string> := ["vulnerability", "vuln", "cve", "patch"]
  const RiskWords: seq<string> := ["risk", "score", "cvss", "severity"]
  const DashboardWords: seq<string> := ["dashboard", "filter", "chart", "data"]

  function SeverityIs(level: string): Row -> bool
  {
    (r: Row) => r.v.severity == level
  }

  /** `_get_vulnerability_response`: counts of Critical and of High rows when the context
      carries `filtered_data` (None stands for a missing, empty or key-less context). */
  function VulnerabilityReply(context: Option<seq<Row>>): (r: Reply)
    ensures context.None? <==> r == VulnerabilityOverview
  {
    match context
    case None => VulnerabilityOverview
    case Some(rows) => VulnerabilityCounts(Count(rows, SeverityIs("Critical")), Count(rows, SeverityIs("High")))
  }

  /** `chatbot_response`: the first keyword group found in the lower-cased message decides. */
  function ChatbotResponse(msg: Message, context: Option<seq<Row>>): Reply
  {
    match msg
    case NotText => Apology
    case Text(s) =>
      var m := Lower(s);
      if ContainsAny(m, BestPracticeWords) then BestPractices
      else if ContainsAny(m, VulnerabilityWords) then VulnerabilityReply(context)
      else if ContainsAny(m, RiskWords) then RiskGuide
      else if ContainsAny(m, DashboardWords) then DashboardHelp
      else GeneralHelp
  }

  /** Each reply is chosen exactly when its group matches and no earlier group does. */
  lemma ChatbotDispatchSpec(s: string, context: Option<seq<Row>>)
    ensures var m := Lower(s); var r := ChatbotResponse(Text(s), context);
      && (r == BestPractices <==> ContainsAny(m, BestPracticeWords))
      && ((r.VulnerabilityCounts? || r == VulnerabilityOverview) <==>
            !ContainsAny(m, BestPracticeWords) && ContainsAny(m, VulnerabilityWords))
      && (r == RiskGuide <==>
            !ContainsAny(m, BestPracticeWords) && !ContainsAny(m, VulnerabilityWords) && ContainsAny(m, RiskWords))
      && (r == DashboardHelp <==>
            !ContainsAny(m, BestPracticeWords) && !ContainsAny(m, VulnerabilityWords)
            && !ContainsAny(m, RiskWords) && ContainsAny(m, DashboardWords))
      && r != Apology
  {
  }

  /** Matching ignores case: a message and its lower-cased form get the same reply. */
  lemma ChatbotIgnoresCase(s: string, context: Option<seq<Row>>)
    ensures ChatbotResponse(Text(s), context) == ChatbotResponse(Text(Lower(s)), context)
  {
    LowerIdempotent(s);
  }

  /** The two counts of the vulnerability reply split the Critical/High rows. */
  lemma VulnerabilityCountsSplitCriticalHigh(rows: seq<Row>)
    ensures var r := VulnerabilityReply(Some(rows));
      r.critical + r.high == Count(rows, (x: Row) => IsCriticalHighSeverity(x.v.severity))
  {
    CountDisjointUnion(rows, SeverityIs("Critical"), SeverityIs("High"),
                       (x: Row) => IsCriticalHighSeverity(x.v.severity));
  }

  // ---------------------------------------------------------------------
  // The process-wide instance

  /** A constructed integration: the loaded model and the spreadsheet it read. */
  class Integration {
    const frame: Frame

    constructor (frame: Frame)
      ensures this.frame == frame
    {
      this.frame := frame;
    }
  }

  /** The module-level `cybersec_model`. */
  class Registry {
    var instance: Option<Integration>

    constructor ()
      ensures instance.None?
    {
      instance := None;
    }

    /** `get_model_instance`: constructs on the first call only. `load` is what `_initialize`
        reads, None when loading the model or the spreadsheet raises; that exception reaches
        the caller and the global stays unset. */
    method GetModelInstance(load: Option<Frame>) returns (r: Option<Integration>)
      modifies this
      ensures old(instance).Some? ==> r == old(instance) && instance == old(instance)
      ensures old(instance).None? && load.Some? ==>
                r.Some? && fresh(r.value) && r.value.frame == load.value && instance == r
      ensures old(instance).None? && load.None? ==> r.None? && instance.None?
    {
      if instance.None? {
        if load.None? {
          return None;
        }
        var created := new Integration(load.value);
        instance := Some(created);
      }
      r := instance;
    }
  }

  /** Two calls after a successful construction return the same object. */
  method SameInstanceTwice(reg: Registry, first: Option<Frame>, second: Option<Frame>)
    returns (a: Option<Integration>, b: Option<Integration>)
    modifies reg
    ensures a.Some? ==> b == a
    ensures old(reg.instance).None? && first.Some? ==> a.Some?
  {
    a := reg.GetModelInstance(first);
    b := reg.GetModelInstance(second);
  }
}
