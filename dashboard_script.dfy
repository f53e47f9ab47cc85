/**
 Whether `assets/js/dashboard.js` loads at all. A script's top-level `class`,
 `const` and `let` names are its lexically declared names, and its top-level
 `function` names are var-declared. ECMA-262 (the early errors of a Script body,
 section 16.1.1 in recent editions) rejects the whole script with a SyntaxError,
 before any of it runs, when a lexically declared name is declared twice or is
 also var-declared.
 */
module DashboardScript {
  import opened Table

  /** The top-level declarations of a script body, in source order. */
  datatype ScriptBody = ScriptBody(lexical: seq<string>, varNames: seq<string>)

  /** The script is rejected before it runs. */
  predicate HasEarlyError(b: ScriptBody)
  {
    || !NoDuplicates(b.lexical)
    || exists i :: 0 <= i < |b.lexical| && b.lexical[i] in b.varNames
  }

  /** The configuration constant and the eight classes at lines 10-608. */
  const Components: seq<string> :=
    ["DashboardConfig", "DashboardUtils", "AnimationEngine", "NotificationSystem", "DataManager",
     "PerformanceMonitor", "EnhancedComponents", "KeyboardShortcuts", "ThemeManager"]

  /** The five global instances at lines 664-668. */
  const Instances: seq<string> :=
    ["dashboardNotifications", "dataManager", "performanceMonitor", "keyboardShortcuts", "themeManager"]

  /** The two enhancement classes at lines 741 and 979. */
  const Enhancements: seq<string> := ["DashboardEnhancements", "RealTimeUpdates"]

  /** The top-level declarations as written: the groups above, then a second
      `PerformanceMonitor` class at line 1124, and the helper function at line 722. */
  function AsWritten(): ScriptBody
  {
    ScriptBody(Components + Instances + Enhancements + ["PerformanceMonitor"], ["showKeyboardShortcuts"])
  }

  /** As written, the script declares `PerformanceMonitor` twice, so none of it runs: no data
      manager, shortcut table or theme manager is ever created. */
  lemma AsWrittenHasEarlyError()
    ensures AsWritten().lexical[5] == AsWritten().lexical[16] == "PerformanceMonitor"
    ensures HasEarlyError(AsWritten())
  {
    var names := AsWritten().lexical;
    assert names[5] == names[16];
  }

  /** The script with a single `PerformanceMonitor` class, the first one, which is the one the
      client state models: the second declaration is dropped and nothing else changes. */
  function Corrected(): (b: ScriptBody)
    ensures b.lexical + ["PerformanceMonitor"] == AsWritten().lexical
    ensures b.varNames == AsWritten().varNames
  {
    ScriptBody(Components + Instances + Enhancements, AsWritten().varNames)
  }

  predicate Upper(c: char)
  {
    'A' <= c <= 'Z'
  }

  /** The class and configuration names are distinct and start with a capital. */
  lemma ClassNamesDistinct()
    ensures NoDuplicates(Components + Enhancements)
    ensures forall i :: 0 <= i < |Components + Enhancements| ==> |(Components + Enhancements)[i]| > 0 && Upper((Components + Enhancements)[i][0])
  {
  }

  /** The instance names are distinct and start with a lower-case letter. */
  lemma InstanceNamesDistinct()
    ensures NoDuplicates(Instances)
    ensures forall i :: 0 <= i < |Instances| ==> |Instances[i]| > 0 && !Upper(Instances[i][0])
  {
  }

  /** Upper-case names before and after a run of lower-case ones, each part without
      duplicates, give a list without duplicates. */
  lemma {:induction false} NoDuplicatesAcross(a: seq<string>, b: seq<string>, c: seq<string>)
    requires NoDuplicates(a + c) && NoDuplicates(b)
    requires forall i :: 0 <= i < |a + c| ==> |(a + c)[i]| > 0 && Upper((a + c)[i][0])
    requires forall i :: 0 <= i < |b| ==> |b[i]| > 0 && !Upper(b[i][0])
    ensures NoDuplicates(a + b + c)
  {
    var s := a + b + c;
    forall i, j | 0 <= i < j < |s|
      ensures s[i] != s[j]
    {
      if i < |a| && j < |a| {
        assert s[i] == (a + c)[i] && s[j] == (a + c)[j];
      } else if i < |a| && j < |a| + |b| {
        assert s[i] == (a + c)[i] && s[j] == b[j - |a|];
      } else if i < |a| {
        assert s[i] == (a + c)[i] && s[j] == (a + c)[j - |b|];
      } else if i >= |a| + |b| {
        assert s[i] == (a + c)[i - |b|] && s[j] == (a + c)[j - |b|];
      } else if j < |a| + |b| {
        assert s[i] == b[i - |a|] && s[j] == b[j - |a|];
      } else {
        assert s[i] == b[i - |a|] && s[j] == (a + c)[j - |b|];
      }
    }
  }

  /** With one monitor class every top-level name is declared once, so the script loads. */
  lemma CorrectedLoads()
    ensures !HasEarlyError(Corrected())
  {
    ClassNamesDistinct();
    InstanceNamesDistinct();
    NoDuplicatesAcross(Components, Instances, Enhancements);
    var names := Corrected().lexical;
    forall i | 0 <= i < |names|
      ensures names[i] !in Corrected().varNames
    {
    }
  }
}
