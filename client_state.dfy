/**
 The browser-side state of the dashboard script: the response cache of the data
 manager, the performance monitor's samples and report, the keyboard shortcut
 table and the theme switcher. Clock readings, the fetched responses and the
 colour-scheme preference are parameters.
 */
module ClientState {
  import opened Table
  import opened Text

  // ---------------------------------------------------------------------
  // DataManager

  /** `defaultCacheDuration`: five minutes, in milliseconds. */
  const CacheDuration := 5 * 60 * 1000

  /** What `fetch` gives: a response with an ok status and its JSON body, a response with
      another status, or a rejection (network error, or a body that is no JSON). */
  datatype Response = Ok(body: string) | NotOk(status: int) | Rejected

  /** What `fetchData` settles to: the data, or the error it throws again. */
  datatype Fetched = Data(value: string) | Thrown

  class DataManager {
    var cache: map<string, string>
    var cacheExpiry: map<string, int>

    /** Entries are stored and deleted in both maps together. */
    ghost predicate Valid()
      reads this
    {
      cache.Keys == cacheExpiry.Keys
    }

    constructor()
      ensures Valid() && cache == map[] && cacheExpiry == map[]
    {
      cache := map[];
      cacheExpiry := map[];
    }

    /** `isCacheValid`: an expiry is recorded (and is not 0, which is falsy) and lies after now. */
    predicate IsCacheValid(key: string, now: int)
      reads this
    {
      key in cacheExpiry && cacheExpiry[key] != 0 && now < cacheExpiry[key]
    }

    /** `fetchData(url, options)`, the options already serialised; `response` is what the
        network would answer, asked only on a miss. */
    method FetchData(url: string, options: string, now: nat, response: Response) returns (r: Fetched)
      requires Valid()
      modifies this
      ensures Valid()
      ensures var key := url + options;
        if key in old(cache) && old(IsCacheValid(key, now)) then
          r == Data(old(cache)[key]) && cache == old(cache) && cacheExpiry == old(cacheExpiry)
        else if response.Ok? then
          && r == Data(response.body)
          && cache == old(cache)[key := response.body]
          && cacheExpiry == old(cacheExpiry)[key := now + CacheDuration]
        else
          r == Thrown && cache == old(cache) && cacheExpiry == old(cacheExpiry)
    {
      var key := url + options;
      if key in cache && IsCacheValid(key, now) {
        return Data(cache[key]);
      }
      match response {
        case Ok(body) =>
          cache := cache[key := body];
          cacheExpiry := cacheExpiry[key := now + CacheDuration];
          r := Data(body);
        case NotOk(_) =>
          r := Thrown;
        case Rejected =>
          r := Thrown;
      }
    }

    /** `clearCache`. */
    method ClearCache()
      modifies this
      ensures Valid() && cache == map[] && cacheExpiry == map[]
    {
      cache := map[];
      cacheExpiry := map[];
    }

    /** `invalidateCache(pattern)`: every cached key containing the pattern leaves both maps;
        every other entry stays as it was. */
    method InvalidateCache(pattern: string)
      requires Valid()
      modifies this
      ensures Valid()
      ensures forall k :: k in cache <==> k in old(cache) && !Contains(k, pattern)
      ensures forall k :: k in cache ==> cache[k] == old(cache)[k] && cacheExpiry[k] == old(cacheExpiry)[k]
    {
      var todo := cache.Keys;
      while todo != {}
        invariant Valid()
        invariant todo <= old(cache).Keys
        invariant forall k :: k in cache <==> k in old(cache) && (k in todo || !Contains(k, pattern))
        invariant forall k :: k in cache ==> cache[k] == old(cache)[k] && cacheExpiry[k] == old(cacheExpiry)[k]
        decreases todo
      {
        var key :| key in todo;
        if Includes(key, pattern) {
          cache := cache - {key};
          cacheExpiry := cacheExpiry - {key};
        }
        todo := todo - {key};
      }
    }
  }

  /** A value fetched from the network at `now` is served from the cache, whatever the network
      would answer, for the next five minutes. */
  method FetchTwice(m: DataManager, url: string, options: string, now: nat, later: nat, first: Response, second: Response)
    returns (a: Fetched, b: Fetched)
    requires m.Valid() && first.Ok? && now <= later < now + CacheDuration
    requires !(url + options in m.cache && m.IsCacheValid(url + options, now))
    modifies m
    ensures a == b == Data(first.body)
  {
    a := m.FetchData(url, options, now, first);
    b := m.FetchData(url, options, later, second);
  }

  // ---------------------------------------------------------------------
  // PerformanceMonitor (the first of the two classes of that name)

  /** At most this many memory samples are kept. */
  const MemoryCap := 50

  datatype MemorySample = MemorySample(timestamp: int, used: int, total: int)

  /** The samples after one more is pushed and, beyond the cap, the oldest shifted out. */
  function Pushed(samples: seq<MemorySample>, s: MemorySample): (r: seq<MemorySample>)
  {
    var p := samples + [s];
    if |p| > MemoryCap then p[1..] else p
  }

  /** A window of at most 50 samples stays one: it holds the newest sample last, and the
      latest samples of before in their order, the oldest dropped only when it was full. */
  lemma PushedSpec(samples: seq<MemorySample>, s: MemorySample)
    requires |samples| <= MemoryCap
    ensures var r := Pushed(samples, s);
      && |r| <= MemoryCap
      && |r| == (if |samples| == MemoryCap then MemoryCap else |samples| + 1)
      && r[|r| - 1] == s
      && r[..|r| - 1] == samples[|samples| + 1 - |r|..]
  {
  }

  /** `reduce((a, b) => a + b, 0) / length`, or 0 without samples. */
  function Average(xs: seq<real>): (a: real)
    ensures |xs| == 0 ==> a == 0.0
  {
    if |xs| > 0 then Sum(xs) / |xs| as real else 0.0
  }

  lemma {:induction false} SumBounds(xs: seq<real>, lo: real, hi: real)
    requires forall i :: 0 <= i < |xs| ==> lo <= xs[i] <= hi
    ensures |xs| as real * lo <= Sum(xs) <= |xs| as real * hi
  {
    if xs != [] {
      SumBounds(xs[..|xs| - 1], lo, hi);
      assert |xs| as real * lo == (|xs| - 1) as real * lo + lo;
      assert |xs| as real * hi == (|xs| - 1) as real * hi + hi;
    }
  }

  /** Multiplying by a positive number keeps the order. */
  lemma MulMonotone(a: real, b: real, n: real)
    requires n > 0.0
    ensures a <= b <==> a * n <= b * n
  {
    if a > b {
      ProductPositive(a - b, n);
    }
  }

  lemma QuotientBounds(x: real, n: real, lo: real, hi: real)
    requires n > 0.0 && n * lo <= x <= n * hi
    ensures lo <= x / n <= hi
  {
    var q := x / n;
    assert x == q * n;
    MulMonotone(lo, q, n);
    MulMonotone(q, hi, n);
  }

  /** An average lies between the smallest and the largest sample. */
  lemma AverageBounds(xs: seq<real>, lo: real, hi: real)
    requires |xs| > 0
    requires forall i :: 0 <= i < |xs| ==> lo <= xs[i] <= hi
    ensures lo <= Average(xs) <= hi
  {
    SumBounds(xs, lo, hi);
    QuotientBounds(Sum(xs), |xs| as real, lo, hi);
  }

  /** `getReport()`. */
  datatype Report = Report(
    pageLoadTime: real, averageRenderTime: real, averageApiTime: real,
    totalRenders: nat, totalApiCalls: nat, memoryUsage: seq<MemorySample>)

  class PerformanceMonitor {
    var pageLoadTime: real
    var startTime: real
    var renderTimes: seq<real>
    var apiCallTimes: seq<real>
    var memoryUsage: seq<MemorySample>
    var timers: map<string, real>

    ghost predicate Valid()
      reads this
    {
      |memoryUsage| <= MemoryCap
    }

    constructor(now: real)
      ensures Valid()
      ensures pageLoadTime == 0.0 && startTime == now
      ensures renderTimes == [] && apiCallTimes == [] && memoryUsage == [] && timers == map[]
    {
      pageLoadTime := 0.0;
      startTime := now;
      renderTimes := [];
      apiCallTimes := [];
      memoryUsage := [];
      timers := map[];
    }

    /** The window `load` listener. */
    method OnLoad(now: real)
      modifies this`pageLoadTime
      ensures pageLoadTime == now - startTime
    {
      pageLoadTime := now - startTime;
    }

    /** The ten-second memory sampler: push, then shift when over the cap. */
    method SampleMemory(s: MemorySample)
      requires Valid()
      modifies this`memoryUsage
      ensures Valid()
      ensures memoryUsage == Pushed(old(memoryUsage), s)
    {
      memoryUsage := memoryUsage + [s];
      if |memoryUsage| > MemoryCap {
        memoryUsage := memoryUsage[1..];
      }
    }

    /** `startTimer(name)`. */
    method StartTimer(name: string, now: real)
      modifies this`timers
      ensures timers == old(timers)[name := now]
    {
      timers := timers[name := now];
    }

    /** `endTimer(name)`: the time since the timer started, recorded as a render time when the
        name mentions "render", otherwise as an API time when it mentions "api"; 0 and no change
        for a timer that was not started. */
    method EndTimer(name: string, now: real) returns (duration: real)
      modifies this`timers, this`renderTimes, this`apiCallTimes
      ensures name !in old(timers) ==>
                duration == 0.0 && timers == old(timers)
                && renderTimes == old(renderTimes) && apiCallTimes == old(apiCallTimes)
      ensures name in old(timers) ==>
                && duration == now - old(timers)[name]
                && timers == old(timers) - {name}
                && renderTimes == old(renderTimes) + (if Contains(name, "render") then [duration] else [])
                && apiCallTimes == old(apiCallTimes) +
                     (if !Contains(name, "render") && Contains(name, "api") then [duration] else [])
    {
      if name !in timers {
        return 0.0;
      }
      duration := now - timers[name];
      timers := timers - {name};
      if Includes(name, "render") {
        renderTimes := renderTimes + [duration];
      } else if Includes(name, "api") {
        apiCallTimes := apiCallTimes + [duration];
      }
    }

    /** `getReport()`: each average is 0 without samples and otherwise lies between the
        smallest and largest recorded time. */
    method GetReport() returns (r: Report)
      ensures r.pageLoadTime == pageLoadTime && r.memoryUsage == memoryUsage
      ensures r.totalRenders == |renderTimes| && r.totalApiCalls == |apiCallTimes|
      ensures r.averageRenderTime == Average(renderTimes) && r.averageApiTime == Average(apiCallTimes)
    {
      r := Report(pageLoadTime, Average(renderTimes), Average(apiCallTimes),
                  |renderTimes|, |apiCallTimes|, memoryUsage);
    }
  }

  // ---------------------------------------------------------------------
  // KeyboardShortcuts

  datatype KeyEvent = KeyEvent(ctrlKey: bool, altKey: bool, shiftKey: bool, key: string)

  /** `parts.join(sep)`. */
  function Join(parts: seq<string>, sep: string): string
  {
    if |parts| == 0 then ""
    else if |parts| == 1 then parts[0]
    else Join(parts[..|parts| - 1], sep) + sep + parts[|parts| - 1]
  }

  /** The modifier names pushed before the key, in this order. */
  function ModifierNames(e: KeyEvent): seq<string>
  {
    (if e.ctrlKey then ["ctrl"] else []) + (if e.altKey then ["alt"] else [])
    + (if e.shiftKey then ["shift"] else [])
  }

  /** `getKeyString(e)`. */
  function KeyString(e: KeyEvent): string
  {
    Join(ModifierNames(e) + [Lower(e.key)], "+")
  }

  /** The modifiers as the prefix of the key string, each followed by the separator. */
  function ModifierPrefix(e: KeyEvent): string
  {
    (if e.ctrlKey then "ctrl+" else "") + (if e.altKey then "alt+" else "")
    + (if e.shiftKey then "shift+" else "")
  }

  lemma {:induction false} JoinSnoc(parts: seq<string>, last: string)
    requires |parts| > 0
    ensures Join(parts + [last], "+") == Join(parts, "+") + "+" + last
  {
    assert (parts + [last])[..|parts|] == parts;
  }

  /** Each name followed by the separator. */
  function Plus(names: seq<string>): string
  {
    if names == [] then "" else Plus(names[..|names| - 1]) + names[|names| - 1] + "+"
  }

  lemma {:induction false} JoinPlus(names: seq<string>, k: string)
    ensures Join(names + [k], "+") == Plus(names) + k
  {
    if names != [] {
      var init := names[..|names| - 1];
      var last := names[|names| - 1];
      assert names == init + [last];
      JoinPlus(init, last);
      JoinSnoc(names, k);
    }
  }

  /** The key string is `ctrl+`, `alt+` and `shift+` for the modifiers held, in that order,
      followed by the lower-cased key. */
  lemma KeyStringParts(e: KeyEvent)
    ensures KeyString(e) == ModifierPrefix(e) + Lower(e.key)
  {
    JoinPlus(ModifierNames(e), Lower(e.key));
    var c: seq<string> := if e.ctrlKey then ["ctrl"] else [];
    var ca := c + (if e.altKey then ["alt"] else []);
    var cas := ca + (if e.shiftKey then ["shift"] else []);
    var pc := if e.ctrlKey then "ctrl+" else "";
    var pca := pc + (if e.altKey then "alt+" else "");
    assert Plus(c) == pc;
    assert Plus(ca) == pca by {
      if e.altKey {
        assert ca[..|ca| - 1] == c;
      }
    }
    assert Plus(cas) == ModifierPrefix(e) by {
      if e.shiftKey {
        assert cas[..|cas| - 1] == ca;
      }
    }
  }

  predicate NoPlus(s: string)
  {
    forall i :: 0 <= i < |s| ==> s[i] != '+'
  }

  /** The last "+" of a prefix ending in "+" is at its end when the rest has none. */
  lemma PlusEndsPrefix(p: string, k: string, s: string)
    requires s == p + k && NoPlus(k)
    requires |p| == 0 || p[|p| - 1] == '+'
    ensures forall i :: |p| <= i < |s| ==> s[i] != '+'
    ensures |p| == 0 || s[|p| - 1] == '+'
  {
    assert forall i :: |p| <= i < |s| ==> s[i] == k[i - |p|];
  }

  /** A string that is a prefix ending in "+" (or empty) followed by a key without "+" splits
      in only one way. */
  lemma SplitUnique(p1: string, k1: string, p2: string, k2: string)
    requires p1 + k1 == p2 + k2 && NoPlus(k1) && NoPlus(k2)
    requires |p1| == 0 || p1[|p1| - 1] == '+'
    requires |p2| == 0 || p2[|p2| - 1] == '+'
    ensures p1 == p2 && k1 == k2
  {
    var s := p1 + k1;
    assert |p1| == |p2| by {
      PlusEndsPrefix(p1, k1, s);
      PlusEndsPrefix(p2, k2, s);
    }
    assert p1 == s[..|p1|] == p2;
  }

  /** The modifiers can be read back from the prefix: ctrl from a leading 'c', then alt from
      a leading 'a' of the rest, then shift from whatever remains. */
  lemma ModifierPrefixDecodes(e: KeyEvent)
    ensures var p := ModifierPrefix(e);
      && (e.ctrlKey <==> |p| > 0 && p[0] == 'c')
      && var q := p[if e.ctrlKey then 5 else 0..];
      && (e.altKey <==> |q| > 0 && q[0] == 'a')
      && var r := q[if e.altKey then 4 else 0..];
      && (e.shiftKey <==> |r| > 0)
  {
    var a := if e.altKey then "alt+" else "";
    var sh := if e.shiftKey then "shift+" else "";
    var p := ModifierPrefix(e);
    assert p == (if e.ctrlKey then "ctrl+" else "") + a + sh;
    assert p[if e.ctrlKey then 5 else 0..] == a + sh;
    assert (a + sh)[if e.altKey then 4 else 0..] == sh;
  }

  /** Two key presses whose keys contain no "+" give the same string, and so reach the same
      handler, only when they hold the same modifiers and the same key up to case. */
  lemma KeyStringInjective(e1: KeyEvent, e2: KeyEvent)
    requires NoPlus(Lower(e1.key)) && NoPlus(Lower(e2.key))
    requires KeyString(e1) == KeyString(e2)
    ensures e1.ctrlKey == e2.ctrlKey && e1.altKey == e2.altKey && e1.shiftKey == e2.shiftKey
    ensures Lower(e1.key) == Lower(e2.key)
  {
    KeyStringParts(e1);
    KeyStringParts(e2);
    SplitUnique(ModifierPrefix(e1), Lower(e1.key), ModifierPrefix(e2), Lower(e2.key));
    ModifierPrefixDecodes(e1);
    ModifierPrefixDecodes(e2);
  }

  lemma NoDuplicatesInit(xs: seq<string>)
    requires |xs| > 0
    ensures NoDuplicates(xs) ==> NoDuplicates(xs[..|xs| - 1]) && xs[|xs| - 1] !in xs[..|xs| - 1]
  {
  }

  /** `xs` without `x`. */
  function Remove(xs: seq<string>, x: string): (r: seq<string>)
    ensures forall y :: y in r <==> y in xs && y != x
    ensures NoDuplicates(xs) ==> NoDuplicates(r)
  {
    if xs == [] then []
    else
      var rest := Remove(xs[..|xs| - 1], x);
      assert forall y :: y in xs <==> y in xs[..|xs| - 1] || y == xs[|xs| - 1];
      NoDuplicatesInit(xs);
      if xs[|xs| - 1] == x then rest else rest + [xs[|xs| - 1]]
  }

  /** The shortcut table: a map from key strings to handlers that remembers the order in which
      keys were first registered. */
  class KeyboardShortcuts<H> {
    var shortcuts: map<string, H>
    var order: seq<string>

    ghost predicate Valid()
      reads this
    {
      NoDuplicates(order) && forall k :: k in order <==> k in shortcuts
    }

    constructor()
      ensures Valid() && shortcuts == map[] && order == []
    {
      shortcuts := map[];
      order := [];
    }

    /** The handler the `keydown` listener calls, if any. */
    function HandlerFor(e: KeyEvent): Option<H>
      reads this
    {
      var k := KeyString(e);
      if k in shortcuts then Some(shortcuts[k]) else None
    }

    /** `register(key, handler)`: a new key goes last; a known key keeps its place. */
    method Register(key: string, handler: H)
      requires Valid()
      modifies this
      ensures Valid()
      ensures shortcuts == old(shortcuts)[key := handler]
      ensures order == if key in old(shortcuts) then old(order) else old(order) + [key]
    {
      if key !in shortcuts {
        order := order + [key];
      }
      shortcuts := shortcuts[key := handler];
    }

    /** `unregister(key)`. */
    method Unregister(key: string)
      requires Valid()
      modifies this
      ensures Valid()
      ensures shortcuts == old(shortcuts) - {key}
      ensures order == Remove(old(order), key)
    {
      shortcuts := shortcuts - {key};
      order := Remove(order, key);
    }

    /** `getRegisteredShortcuts()`: every registered key once, in the order of registration. */
    method GetRegisteredShortcuts() returns (keys: seq<string>)
      requires Valid()
      ensures keys == order
      ensures NoDuplicates(keys)
      ensures forall k :: k in keys <==> k in shortcuts
    {
      keys := order;
    }
  }

  // ---------------------------------------------------------------------
  // ThemeManager

  const Themes: seq<string> := ["light", "dark", "auto"]

  /** `themes[(themes.indexOf(current) + 1) % themes.length]`; `indexOf` gives -1 for an unknown
      theme. */
  function NextTheme(current: string): string
  {
    var index := if current in Themes then IndexOf(Themes, current) else -1;
    Themes[(index + 1) % |Themes|]
  }

  lemma ThemeIndices()
    ensures IndexOf(Themes, "light") == 0
    ensures IndexOf(Themes, "dark") == 1
    ensures IndexOf(Themes, "auto") == 2
  {
    assert Themes[0] == "light" && Themes[1] == "dark" && Themes[2] == "auto";
  }

  /** Toggling cycles light, dark, auto and back to light, and leaves an unknown theme for
      light. */
  lemma NextThemeSpec(t: string)
    ensures t == "light" ==> NextTheme(t) == "dark"
    ensures t == "dark" ==> NextTheme(t) == "auto"
    ensures t == "auto" ==> NextTheme(t) == "light"
    ensures t !in Themes ==> NextTheme(t) == "light"
  {
    ThemeIndices();
  }

  /** Every toggle lands on a known theme, and three toggles come back to any known theme. */
  lemma NextThemeCycles(t: string)
    ensures NextTheme(t) in Themes
    ensures t in Themes ==> NextTheme(NextTheme(NextTheme(t))) == t
  {
    NextThemeSpec(t);
    NextThemeSpec("light");
    NextThemeSpec("dark");
    NextThemeSpec("auto");
    assert t in Themes ==> t == "light" || t == "dark" || t == "auto";
  }

  /** The `data-theme` attribute after `applyTheme(theme)`: set for the three known themes
      (auto follows the system preference), untouched otherwise. */
  function Attribute(theme: string, prefersDark: bool, current: Option<string>): Option<string>
  {
    if theme == "dark" then Some("dark")
    else if theme == "light" then Some("light")
    else if theme == "auto" then Some(if prefersDark then "dark" else "light")
    else current
  }

  class ThemeManager {
    var currentTheme: string
    /** The `data-theme` attribute of the document root. */
    var dataTheme: Option<string>
    /** The `dashboard-theme` entry of local storage. */
    var stored: Option<string>

    /** A known theme has set the attribute, to itself for light and dark. */
    ghost predicate Valid()
      reads this
    {
      && (currentTheme in Themes ==> dataTheme.Some? && dataTheme.value in {"light", "dark"})
      && (currentTheme == "light" ==> dataTheme == Some("light"))
      && (currentTheme == "dark" ==> dataTheme == Some("dark"))
    }

    /** The saved theme, or light when nothing (or an empty string) is saved, applied at once. */
    constructor(saved: Option<string>, prefersDark: bool)
      ensures Valid()
      ensures currentTheme == (if saved.Some? && saved.value != "" then saved.value else "light")
      ensures stored == Some(currentTheme)
      ensures dataTheme == Attribute(currentTheme, prefersDark, None)
    {
      var theme := if saved.Some? && saved.value != "" then saved.value else "light";
      currentTheme := theme;
      dataTheme := Attribute(theme, prefersDark, None);
      stored := Some(theme);
    }

    /** `applyTheme(theme)`. */
    method ApplyTheme(theme: string, prefersDark: bool)
      requires Valid()
      modifies this
      ensures Valid()
      ensures currentTheme == theme && stored == Some(theme)
      ensures dataTheme == Attribute(theme, prefersDark, old(dataTheme))
    {
      dataTheme := Attribute(theme, prefersDark, dataTheme);
      currentTheme := theme;
      stored := Some(theme);
    }

    /** `toggleTheme()`. */
    method ToggleTheme(prefersDark: bool)
      requires Valid()
      modifies this
      ensures Valid()
      ensures currentTheme == NextTheme(old(currentTheme)) && stored == Some(currentTheme)
      ensures dataTheme == Attribute(currentTheme, prefersDark, old(dataTheme))
      ensures dataTheme.Some?
    {
      NextThemeCycles(currentTheme);
      ApplyTheme(NextTheme(currentTheme), prefersDark);
    }

    /** The colour-scheme listener: only the auto theme follows a change of preference. */
    method OnSchemeChange(prefersDark: bool)
      requires Valid()
      modifies this
      ensures Valid()
      ensures currentTheme == old(currentTheme)
      ensures old(currentTheme) == "auto" ==> dataTheme == Some(if prefersDark then "dark" else "light")
      ensures old(currentTheme) != "auto" ==> dataTheme == old(dataTheme) && stored == old(stored)
    {
      if currentTheme == "auto" {
        ApplyTheme("auto", prefersDark);
      }
    }
  }
}
