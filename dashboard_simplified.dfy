/**
 The simplified dashboard, which calls the rule-based model integration
 directly: its KPI cards, its suggestions panel (with the priority badge
 colours) and the guards in front of its chatbot.
 */
module DashboardSimplified {
  import opened Table
  import opened Text
  import opened ModelIntegration
  import opened TemplateBank

  // ---------------------------------------------------------------------
  // KPI cards

  /** The KPI rows: the selected owners, then the selected departments when there are any,
      then the selected statuses. */
  function KpiRows(rows: seq<Row>, aos: seq<string>, depts: seq<string>, statuses: seq<string>): seq<Row>
  {
    var byOwner := OwnersRows(rows, aos);
    var byDept := if |depts| > 0 then Filter(byOwner, (r: Row) => r.v.deptName in depts) else byOwner;
    Filter(byDept, (r: Row) => r.v.status in statuses)
  }

  datatype Kpis =
    | SelectFiltersPrompt
    | Cards(total: nat, criticalHigh: nat, avgDaysOpen: Option<real>, urgent: nat, avgCvss: real, highRisk: nat)

  function IsCriticalHighSeverityRow(): Row -> bool
  {
    (r: Row) => IsCriticalHighSeverity(r.v.severity)
  }

  /** `Days_Open > 30`, whatever the severity. */
  function OpenOver30(): Row -> bool
  {
    (r: Row) => Gt(r.flags.daysOpen, 30.0)
  }

  function CriticalHighOver30Flag(): Row -> bool
  {
    (r: Row) => r.flags.isCriticalHighOver30
  }

  function HighRiskFlag(): Row -> bool
  {
    (r: Row) => r.flags.isHighRisk
  }

  /** `CVSS_Score > 7`, the risk score left aside. */
  function CvssOver7(): Row -> bool
  {
    (r: Row) => r.v.cvss > 7.0
  }

  /** `update_kpi_cards`: the prompt unless owners and statuses are selected; otherwise the
      six figures, the two averages 0 for an empty selection. */
  function KpiCards(rows: seq<Row>, aos: seq<string>, depts: seq<string>, statuses: seq<string>): Kpis
  {
    if |aos| == 0 || |statuses| == 0 then SelectFiltersPrompt
    else
      var f := KpiRows(rows, aos, depts, statuses);
      Cards(|f|, Count(f, IsCriticalHighSeverityRow()),
            if |f| > 0 then Mean(DaysOpenColumn(f)) else Some(0.0),
            Count(f, OpenOver30()),
            if |f| > 0 then MeanOf(CvssColumn(f)) else 0.0,
            Count(f, CvssOver7()))
  }

  /** A row is counted exactly when it meets the owner, department (when any) and status
      selections; a table whose derived columns agree keeps them in the selection. */
  lemma KpiRowsSpec(rows: seq<Row>, aos: seq<string>, depts: seq<string>, statuses: seq<string>)
    ensures forall r :: r in KpiRows(rows, aos, depts, statuses) <==>
              r in rows && r.v.ownerId in aos && (|depts| > 0 ==> r.v.deptName in depts) && r.v.status in statuses
    ensures Derived(rows) ==> Derived(KpiRows(rows, aos, depts, statuses))
  {
    if Derived(rows) {
      var byOwner := OwnersRows(rows, aos);
      FilterPreservesDerived(rows, (r: Row) => r.v.ownerId in aos);
      FilterPreservesDerived(byOwner, (r: Row) => r.v.deptName in depts);
      var byDept := if |depts| > 0 then Filter(byOwner, (r: Row) => r.v.deptName in depts) else byOwner;
      FilterPreservesDerived(byDept, (r: Row) => r.v.status in statuses);
    }
  }

  /** The prompt shows exactly when owners or statuses are missing; the counts are bounded by
      the total; the urgent count covers every critical/high row over 30 days and the
      high-risk count only rows the derived high-risk flag also marks; the averages are 0 for
      an empty selection. */
  lemma KpiCardsSpec(rows: seq<Row>, aos: seq<string>, depts: seq<string>, statuses: seq<string>)
    requires Derived(rows)
    requires forall r :: r in rows ==> (r.flags.isHighRisk <==> r.v.cvss > 7.0 || r.v.risk > 7.0)
    ensures var k := KpiCards(rows, aos, depts, statuses);
      && (k.SelectFiltersPrompt? <==> |aos| == 0 || |statuses| == 0)
      && (k.Cards? ==>
            var f := KpiRows(rows, aos, depts, statuses);
            && k.total == |f|
            && k.criticalHigh <= k.total && k.urgent <= k.total && k.highRisk <= k.total
            && Count(f, CriticalHighOver30Flag()) <= k.urgent
            && k.highRisk <= Count(f, HighRiskFlag())
            && (k.total == 0 ==> k.avgDaysOpen == Some(0.0) && k.avgCvss == 0.0))
  {
    if |aos| > 0 && |statuses| > 0 {
      var f := KpiRows(rows, aos, depts, statuses);
      KpiRowsSpec(rows, aos, depts, statuses);
      CountMonotone(f, CriticalHighOver30Flag(), OpenOver30());
      forall i | 0 <= i < |f| ensures CvssOver7()(f[i]) ==> HighRiskFlag()(f[i]) {
        assert f[i] in rows;
      }
      CountMonotone(f, CvssOver7(), HighRiskFlag());
    }
  }

  // ---------------------------------------------------------------------
  // Suggestions panel

  /** Badge colour of a suggestion card. */
  datatype Badge = Danger | Warning | Info

  /** `{'High': 'danger', 'Medium': 'warning', 'Low': 'info'}.get(priority, 'info')`. */
  function BadgeFor(priority: string): (b: Badge)
    ensures b == Danger <==> priority == "High"
    ensures b == Warning <==> priority == "Medium"
    ensures b == Info <==> priority != "High" && priority != "Medium"
  {
    if priority == "High" then Danger
    else if priority == "Medium" then Warning
    else Info
  }

  datatype Panel =
    | SelectOwnerPrompt
    | NoSuggestions
    | SuggestionCards(cards: seq<(Card, Badge)>)
    | ErrorAlert

  /** The department dropdown's value as the call passes it on: nothing, or a list. */
  function DeptArgOf(depts: Option<seq<string>>): DeptArg
  {
    if depts.None? then NoDepts else DeptList(depts.value)
  }

  /** `update_suggestions` around the result of the call: a prompt without owners, the error
      alert when the call raised, a note for an empty list, otherwise one badged card per
      suggestion. */
  function PanelOf(selected: seq<string>, call: CallResult): Panel
  {
    if |selected| == 0 then SelectOwnerPrompt
    else match call
      case UnhashableArgument => ErrorAlert
      case Returned(cards) =>
        if |cards| == 0 then NoSuggestions
        else SuggestionCards(seq(|cards|, k requires 0 <= k < |cards| => (cards[k], BadgeFor(Priority(cards[k])))))
  }

  /** The panel as written. `model` is the frame of the instance `get_model_instance`
      returns, None when loading it raised, which the `except` turns into the error alert;
      the owner selection is a list, handed to the cached method. */
  function SuggestionPanelAsWritten(model: Option<Frame>, selected: seq<string>, depts: Option<seq<string>>): Panel
  {
    if |selected| > 0 && model.None? then ErrorAlert
    else if model.None? then SelectOwnerPrompt
    else PanelOf(selected, GenerateSuggestionsCachedAsWritten(model.value, OwnerList(selected), DeptArgOf(depts), DefaultMax))
  }

  /** As written, every selection of owners ends in the error alert, whether the model
      loads or not. */
  lemma SuggestionPanelAsWrittenAlwaysFails(model: Option<Frame>, selected: seq<string>, depts: Option<seq<string>>)
    requires |selected| > 0
    ensures SuggestionPanelAsWritten(model, selected, depts) == ErrorAlert
  {
    if model.Some? {
      CachedListSelectionNeverReachesRules(model.value, selected, DeptArgOf(depts));
    }
  }

  /** The panel with the uncached method, as the dashboard intends; a failed model load
      still reaches the error alert. */
  function SuggestionPanel(model: Option<Frame>, selected: seq<string>, depts: Option<seq<string>>): Panel
  {
    if |selected| > 0 && model.None? then ErrorAlert
    else if model.None? then SelectOwnerPrompt
    else PanelOf(selected, Returned(SuggestionsOf(model.value, OwnerList(selected), DeptArgOf(depts), DefaultMax)))
  }

  /** Cards of rules: one badged card each, danger for the critical/high and CVSS rules,
      warning for the other two. */
  lemma BadgesOfRuleCards(selected: seq<string>, cards: seq<Card>)
    requires |selected| > 0 && |cards| > 0
    requires forall k :: 0 <= k < |cards| ==> cards[k].RuleCard? && cards[k].rule < RuleCount
    ensures var p := PanelOf(selected, Returned(cards));
      && p.SuggestionCards? && |p.cards| == |cards|
      && forall k :: 0 <= k < |cards| ==>
           && p.cards[k].0 == cards[k]
           && (p.cards[k].1 == Danger <==> cards[k].rule == 0 || cards[k].rule == 2)
           && (p.cards[k].1 == Warning <==> cards[k].rule == 1 || cards[k].rule == 3)
  {
    var p := PanelOf(selected, Returned(cards));
    forall k | 0 <= k < |cards|
      ensures p.cards[k].0 == cards[k]
      ensures p.cards[k].1 == Danger <==> cards[k].rule == 0 || cards[k].rule == 2
      ensures p.cards[k].1 == Warning <==> cards[k].rule == 1 || cards[k].rule == 3
    {
      assert p.cards[k] == (cards[k], BadgeFor(Priority(cards[k])));
      assert Priority(cards[k]) == RulePriorities[cards[k].rule];
    }
  }

  /** With the uncached method the panel shows the error alert exactly when owners are
      selected and the model does not load, and with a loaded model lacking the Days_Open
      column it shows the one error card with an info badge. */
  lemma SuggestionPanelSpec(model: Option<Frame>, selected: seq<string>, depts: Option<seq<string>>)
    ensures var p := SuggestionPanel(model, selected, depts);
      && (p.SelectOwnerPrompt? <==> |selected| == 0)
      && (p.ErrorAlert? <==> |selected| > 0 && model.None?)
      && (|selected| > 0 && model.Some? && !model.value.hasDaysOpen ==> p == SuggestionCards([(ErrorCard, Info)]))
  {
    if model.Some? {
      SuggestionsSpec(model.value, OwnerList(selected), DeptArgOf(depts), DefaultMax);
    }
  }

  /** The panel for the fired rules below `n` of a selection shows a note exactly when none
      of them fires. */
  lemma FiredRulesNote(selected: seq<string>, sel: seq<Row>, n: nat)
    requires |selected| > 0
    ensures PanelOf(selected, Returned(CardsOf(sel, Selected(Fires(sel), n)))).NoSuggestions? <==>
              forall t :: 0 <= t < n ==> Count(sel, RuleSubset(t)) == 0
  {
    var r := CardsOf(sel, Selected(Fires(sel), n));
    FiredCardsSpec(sel, n);
    assert PanelOf(selected, Returned(r)).NoSuggestions? <==> |r| == 0;
    if |r| > 0 {
      assert r[0].rule < n && Count(sel, RuleSubset(r[0].rule)) > 0;
    }
  }

  /** Otherwise it shows at most `n` cards, each for a fired rule, the critical/high and CVSS
      rules with a danger badge, the other two with a warning badge. */
  lemma FiredRulesCards(selected: seq<string>, sel: seq<Row>, n: nat)
    requires |selected| > 0 && n <= RuleCount
    ensures var p := PanelOf(selected, Returned(CardsOf(sel, Selected(Fires(sel), n))));
      p.SuggestionCards? ==>
        && |p.cards| <= n
        && forall k :: 0 <= k < |p.cards| ==>
             && p.cards[k].0.RuleCard?
             && Count(sel, RuleSubset(p.cards[k].0.rule)) > 0
             && (p.cards[k].1 == Danger <==> p.cards[k].0.rule == 0 || p.cards[k].0.rule == 2)
             && (p.cards[k].1 == Warning <==> p.cards[k].0.rule == 1 || p.cards[k].0.rule == 3)
  {
    var r := CardsOf(sel, Selected(Fires(sel), n));
    FiredCardsSpec(sel, n);
    if |r| > 0 {
      BadgesOfRuleCards(selected, r);
    }
  }

  /** With a loaded model that has the Days_Open column, the panel of a selection of owners is that of all the fired
      rules on the selected rows: a note exactly when no rule fires, otherwise at most four
      cards, each for a fired rule, badged by the rule's priority. */
  lemma SuggestionPanelRulesSpec(frame: Frame, selected: seq<string>, depts: Option<seq<string>>)
    requires |selected| > 0 && frame.hasDaysOpen
    ensures var p := SuggestionPanel(Some(frame), selected, depts);
      var sel := Selection(frame.rows, OwnerList(selected), DeptArgOf(depts));
      && (p.NoSuggestions? <==> forall t :: 0 <= t < RuleCount ==> Count(sel, RuleSubset(t)) == 0)
      && (p.SuggestionCards? ==>
            && |p.cards| <= RuleCount
            && forall k :: 0 <= k < |p.cards| ==>
                 && p.cards[k].0.RuleCard?
                 && Count(sel, RuleSubset(p.cards[k].0.rule)) > 0
                 && (p.cards[k].1 == Danger <==> p.cards[k].0.rule == 0 || p.cards[k].0.rule == 2)
                 && (p.cards[k].1 == Warning <==> p.cards[k].0.rule == 1 || p.cards[k].0.rule == 3))
  {
    var sel := Selection(frame.rows, OwnerList(selected), DeptArgOf(depts));
    SuggestionsSpec(frame, OwnerList(selected), DeptArgOf(depts), DefaultMax);
    FiredRulesNote(selected, sel, RuleCount);
    FiredRulesCards(selected, sel, RuleCount);
  }

  // ---------------------------------------------------------------------
  // Chatbot

  datatype ChatOutput =
    | Greeting
    | EnterQuestionPrompt
    | Answer(question: string, reply: Reply)
    | ChatError

  /** The context handed to the chatbot: the rows of the selected owners (and departments,
      when any are selected), or none when no owner is selected. */
  function ChatContext(rows: seq<Row>, aos: seq<string>, depts: seq<string>): Option<seq<Row>>
  {
    if |aos| == 0 then None
    else
      var byOwner := OwnersRows(rows, aos);
      Some(if |depts| > 0 then Filter(byOwner, (r: Row) => r.v.deptName in depts) else byOwner)
  }

  /** `handle_chatbot`: the greeting before any submission, a prompt for a missing or blank
      message, the error reply when `get_model_instance` raises (`model` is None), otherwise
      the chatbot's reply to the message with the selection as context. A click count or
      submit count of None is 0 here; the exception's text is not modelled. */
  function HandleChatbot(submitClicks: nat, inputSubmits: nat, message: Option<string>, model: Option<Frame>,
                         rows: seq<Row>, aos: seq<string>, depts: seq<string>): ChatOutput
  {
    if submitClicks == 0 && inputSubmits == 0 then Greeting
    else if message.None? || IsBlank(message.value) then EnterQuestionPrompt
    else if model.None? then ChatError
    else Answer(message.value, ChatbotResponse(Text(message.value), ChatContext(rows, aos, depts)))
  }

  /** The guards come in order, a failed model load giving the error reply to a real
      question; a vulnerability question about a selection is answered with
      the Critical and High counts of exactly the selected rows, and without a selection with
      the general overview. */
  lemma HandleChatbotSpec(submitClicks: nat, inputSubmits: nat, message: Option<string>, model: Option<Frame>,
                          rows: seq<Row>, aos: seq<string>, depts: seq<string>)
    ensures var out := HandleChatbot(submitClicks, inputSubmits, message, model, rows, aos, depts);
      && (out.Greeting? <==> submitClicks == 0 && inputSubmits == 0)
      && (out.EnterQuestionPrompt? <==>
            (submitClicks > 0 || inputSubmits > 0) && (message.None? || forall i :: 0 <= i < |message.value| ==> IsSpace(message.value[i])))
      && (out.ChatError? <==> !out.Greeting? && !out.EnterQuestionPrompt? && model.None?)
      && (out.Answer? <==> !out.Greeting? && !out.EnterQuestionPrompt? && model.Some?)
      && (out.Answer? ==> out.question == message.value && |message.value| > 0)
      && (out.Answer? && |aos| == 0 ==> !out.reply.VulnerabilityCounts?)
      && (out.Answer? && out.reply.VulnerabilityCounts? ==>
            var sel := ChatContext(rows, aos, depts).value;
            && (forall r :: r in sel <==> r in rows && r.v.ownerId in aos && (|depts| > 0 ==> r.v.deptName in depts))
            && out.reply.critical + out.reply.high == Count(sel, IsCriticalHighSeverityRow()))
  {
    var out := HandleChatbot(submitClicks, inputSubmits, message, model, rows, aos, depts);
    if out.Answer? {
      assert message.value != [] by {
        assert IsBlank([]);
      }
      if out.reply.VulnerabilityCounts? {
        var sel := ChatContext(rows, aos, depts).value;
        VulnerabilityCountsSplitCriticalHigh(sel);
      }
    }
  }
}
