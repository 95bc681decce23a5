/** The browser-side store: the recent-topics history and the colour theme,
    kept under two keys of the page's `localStorage`. */
module Storage {
  import opened Wrappers
  import opened Strings
  import opened Json

  const HistoryKey := "ssa_history"
  const ThemeKey := "ssa_theme"
  const HistoryLimit: nat := 10
  const DefaultTheme := "light"

  lemma {:induction false} SubsequenceOfTake<T>(a: seq<T>, b: seq<T>, n: nat)
    requires Subsequence(a, b)
    ensures Subsequence(Take(a, n), b)
    decreases |b|
  {
    if a != [] && n > 0 && b != [] {
      if a[0] == b[0] {
        SubsequenceOfTake(a[1..], b[1..], n - 1);
        assert Take(a, n)[1..] == Take(a[1..], n - 1);
      } else {
        SubsequenceOfTake(a, b[1..], n);
      }
    }
  }

  // ------------------------------------------------------------- history

  /** `getHistory()` for the stored text `raw` (`None` when the key is
      absent): `JSON.parse(raw || '[]')`, and the first ten entries of an
      array; anything else, or a text that does not parse, is `[]`. */
  function HistoryOf(raw: Option<string>, parse: string -> Option<Json>): (r: seq<Json>)
    ensures |r| <= HistoryLimit
    ensures var text := if raw.Some? && raw.value != "" then raw.value else "[]";
      && (parse(text).Some? && parse(text).value.JArray? ==> r == Take(parse(text).value.items, HistoryLimit))
      && (parse(text).None? || !parse(text).value.JArray? ==> r == [])
  {
    var text := if raw.Some? && raw.value != "" then raw.value else "[]";
    match parse(text)
    case Some(JArray(items)) => Take(items, HistoryLimit)
    case _ => []
  }

  /** An entry the filter keeps: a string that differs from the topic other
      than in letter case. */
  predicate Distinct(entry: Json, topic: string) {
    entry.JString? && !EqualsIgnoreCase(entry.s, topic)
  }

  /** `current.filter((t) => t.toLowerCase() !== topic.toLowerCase())`;
      `None` when an entry is not a string, on which `toLowerCase` throws. */
  function WithoutTopic(current: seq<Json>, topic: string): (r: Option<seq<Json>>)
    ensures r.Some? <==> forall k :: 0 <= k < |current| ==> current[k].JString?
    ensures r.Some? ==> forall k :: 0 <= k < |r.value| ==> Distinct(r.value[k], topic)
    ensures r.Some? ==> forall k :: 0 <= k < |current| && Distinct(current[k], topic) ==> current[k] in r.value
    ensures r.Some? ==> Subsequence(r.value, current)
  {
    if current == [] then Some([])
    else if !current[0].JString? then None
    else match WithoutTopic(current[1..], topic)
      case None =>
        assert !(forall k :: 0 <= k < |current| ==> current[k].JString?) by {
          var k :| 0 <= k < |current[1..]| && !current[1..][k].JString?;
          assert current[k + 1] == current[1..][k];
        }
        None
      case Some(rest) =>
        assert forall k :: 1 <= k < |current| ==> current[k] == current[1..][k - 1];
        if Distinct(current[0], topic) then
          assert ([current[0]] + rest)[1..] == rest;
          Some([current[0]] + rest)
        else Some(rest)
  }

  /** The filter keeps every occurrence of an entry that differs from the
      topic and drops every other: with the order kept (`Subsequence`) this
      makes the result exactly `current.filter(…)`. */
  lemma {:induction false} WithoutTopicCounts(current: seq<Json>, topic: string, x: Json)
    requires WithoutTopic(current, topic).Some?
    ensures multiset(WithoutTopic(current, topic).value)[x] == if Distinct(x, topic) then multiset(current)[x] else 0
  {
    if current != [] {
      WithoutTopicCounts(current[1..], topic, x);
      assert current == [current[0]] + current[1..];
      var rest := WithoutTopic(current[1..], topic).value;
      if Distinct(current[0], topic) {
        assert WithoutTopic(current, topic).value == [current[0]] + rest;
      } else {
        assert WithoutTopic(current, topic).value == rest;
      }
    }
  }

  /** A list of strings that all differ from the topic is kept whole. */
  lemma {:induction false} WithoutTopicKeepsDistinct(xs: seq<Json>, topic: string)
    requires forall k :: 0 <= k < |xs| ==> Distinct(xs[k], topic)
    ensures WithoutTopic(xs, topic) == Some(xs)
  {
    if xs != [] {
      WithoutTopicKeepsDistinct(xs[1..], topic);
      assert [xs[0]] + xs[1..] == xs;
    }
  }

  /** The list `addToHistory(topic)` writes and returns, for the list
      `getHistory()` gave (`None` where the filter throws). */
  function NextHistory(current: seq<Json>, topic: string): (r: Option<seq<Json>>)
    ensures r.Some? <==> WithoutTopic(current, topic).Some?
    ensures r.Some? ==> 1 <= |r.value| <= HistoryLimit && r.value[0] == JString(topic)
    ensures r.Some? ==> forall k :: 1 <= k < |r.value| ==> Distinct(r.value[k], topic)
    ensures r.Some? ==> r.value[1..] == Take(WithoutTopic(current, topic).value, HistoryLimit - 1)
  {
    match WithoutTopic(current, topic)
    case None => None
    case Some(rest) =>
      var next := Take([JString(topic)] + rest, HistoryLimit);
      assert next[1..] == Take(rest, HistoryLimit - 1);
      Some(next)
  }

  /** The earlier entries that survive keep their relative order. */
  lemma NextHistoryKeepsOrder(current: seq<Json>, topic: string)
    requires NextHistory(current, topic).Some?
    ensures Subsequence(NextHistory(current, topic).value[1..], current)
  {
    SubsequenceOfTake(WithoutTopic(current, topic).value, current, HistoryLimit - 1);
  }

  /** Adding the topic again to the list just written changes nothing. */
  lemma NextHistoryIdempotent(current: seq<Json>, topic: string)
    requires NextHistory(current, topic).Some?
    ensures NextHistory(NextHistory(current, topic).value, topic) == NextHistory(current, topic)
  {
    var next := NextHistory(current, topic).value;
    assert !Distinct(next[0], topic);
    WithoutTopicKeepsDistinct(next[1..], topic);
    assert WithoutTopic(next, topic) == Some(next[1..]) by {
      assert next == [next[0]] + next[1..];
      assert next[1..] == next[1..][0..];
    }
    assert [JString(topic)] + next[1..] == next;
  }

  /** The runtime writes a list as a text it reads back as the same list. */
  predicate RoundTrips(rt: Runtime, xs: seq<Json>) {
    rt.stringify(JArray(xs)) != "" && rt.parse(rt.stringify(JArray(xs))) == Some(JArray(xs))
  }

  /** The list written is the list read back. */
  lemma HistoryRoundTrip(next: seq<Json>, rt: Runtime)
    requires |next| <= HistoryLimit && RoundTrips(rt, next)
    ensures HistoryOf(Some(rt.stringify(JArray(next))), rt.parse) == next
  {
  }

  /** Adding a topic twice leaves the same list stored as adding it once,
      when the runtime's write of the list reads back. */
  lemma AddTwiceIsAddOnce(raw: Option<string>, topic: string, rt: Runtime)
    requires NextHistory(HistoryOf(raw, rt.parse), topic).Some?
    requires RoundTrips(rt, NextHistory(HistoryOf(raw, rt.parse), topic).value)
    ensures var once := NextHistory(HistoryOf(raw, rt.parse), topic).value;
      NextHistory(HistoryOf(Some(rt.stringify(JArray(once))), rt.parse), topic) == Some(once)
  {
    var once := NextHistory(HistoryOf(raw, rt.parse), topic).value;
    HistoryRoundTrip(once, rt);
    NextHistoryIdempotent(HistoryOf(raw, rt.parse), topic);
  }

  // --------------------------------------------------------------- theme

  /** `getTheme()` for the stored text: the stored theme, unless absent or
      empty, else `light`. */
  function ThemeOf(raw: Option<string>): (r: string)
    ensures r != ""
    ensures raw.Some? && raw.value != "" ==> r == raw.value
    ensures raw.None? || raw.value == "" ==> r == DefaultTheme
  {
    if raw.Some? && raw.value != "" then raw.value else DefaultTheme
  }

  // --------------------------------------------------------------- store

  /** The page's `localStorage`: a map from keys to texts. */
  class BrowserStorage {
    var items: map<string, string>

    constructor ()
      ensures items == map[]
    {
      items := map[];
    }

    /** `localStorage.getItem(key)`, `None` for `null`. */
    function GetItem(key: string): (r: Option<string>)
      reads this
      ensures r.Some? <==> key in items
      ensures r.Some? ==> r.value == items[key]
    {
      if key in items then Some(items[key]) else None
    }

    /** `getHistory()` */
    function GetHistory(parse: string -> Option<Json>): (r: seq<Json>)
      reads this
      ensures |r| <= HistoryLimit
      ensures HistoryKey !in items ==> r == HistoryOf(None, parse)
      ensures HistoryKey in items && items[HistoryKey] == "" ==> r == HistoryOf(None, parse)
      ensures HistoryKey !in items && parse("[]") == Some(JArray([])) ==> r == []
      ensures HistoryKey in items && items[HistoryKey] != "" ==>
        var stored := parse(items[HistoryKey]);
        && (stored.Some? && stored.value.JArray? ==> r == Take(stored.value.items, HistoryLimit))
        && (stored.None? || !stored.value.JArray? ==> r == [])
    {
      HistoryOf(GetItem(HistoryKey), parse)
    }

    /** `addToHistory(topic)`: the new list is written under the history key
      and returned; when the filter throws nothing is written. */
    method AddToHistory(topic: string, rt: Runtime) returns (next: Option<seq<Json>>)
      modifies this
      ensures next == NextHistory(old(GetHistory(rt.parse)), topic)
      ensures next.Some? ==> items == old(items)[HistoryKey := rt.stringify(JArray(next.value))]
      ensures next.None? ==> items == old(items)
      ensures next.Some? && RoundTrips(rt, next.value) ==> GetHistory(rt.parse) == next.value
      ensures GetTheme() == old(GetTheme())
    {
      next := NextHistory(GetHistory(rt.parse), topic);
      if next.Some? {
        items := items[HistoryKey := rt.stringify(JArray(next.value))];
        if RoundTrips(rt, next.value) {
          HistoryRoundTrip(next.value, rt);
        }
      }
    }

    /** `getTheme()` */
    function GetTheme(): (r: string)
      reads this
      ensures r != ""
      ensures ThemeKey in items && items[ThemeKey] != "" ==> r == items[ThemeKey]
      ensures ThemeKey !in items ==> r == DefaultTheme
      ensures ThemeKey in items && items[ThemeKey] == "" ==> r == DefaultTheme
    {
      ThemeOf(GetItem(ThemeKey))
    }

    /** `setTheme(theme)`: the theme is written; reading it back gives it,
      except that an empty theme reads as `light`. */
    method SetTheme(theme: string)
      modifies this
      ensures items == old(items)[ThemeKey := theme]
      ensures theme != "" ==> GetTheme() == theme
      ensures theme == "" ==> GetTheme() == DefaultTheme
      ensures forall parse :: GetHistory(parse) == old(GetHistory(parse))
    {
      items := items[ThemeKey := theme];
    }
  }
}
