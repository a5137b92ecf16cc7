/**
 * The warnings panel. An empty list shows the "All Clear" view. Otherwise the
 * warnings are grouped by severity, each group keeping the input order, and
 * the groups are shown in the order error, warning, info. Every card carries
 * a recommendation: the warning's own, or a canned one chosen by the first
 * keyword found in the lower-cased message.
 */
module WarningsPanel {
  import opened Wrappers
  import opened Strings

  /** A warning as the panel receives it; `resource` and `recommendation` may be absent. */
  datatype Warning = Warning(severity: string, message: string, resource: Option<string>, recommendation: Option<string>)

  /** The severities the panel has a configuration for, in display order. */
  const DisplayOrder: seq<string> := ["error", "warning", "info"]

  predicate Displayable(severity: string) {
    severity == "error" || severity == "warning" || severity == "info"
  }

  /** The badge text of each displayed severity. */
  function SeverityLabel(severity: string): string
    requires Displayable(severity)
  {
    if severity == "error" then "Critical" else if severity == "warning" then "Warning" else "Info"
  }

  // ---------------------------------------------------------------------
  // Grouping by severity
  // ---------------------------------------------------------------------

  /** The warnings of one severity, in input order. */
  function WithSeverity(ws: seq<Warning>, s: string): (group: seq<Warning>)
    ensures forall k :: 0 <= k < |group| ==> group[k].severity == s
  {
    if ws == [] then []
    else WithSeverity(ws[..|ws| - 1], s) + (if ws[|ws| - 1].severity == s then [ws[|ws| - 1]] else [])
  }

  /** Grouping a concatenation groups each part: the input order survives inside a group. */
  lemma {:induction false} WithSeverityAppend(a: seq<Warning>, b: seq<Warning>, s: string)
    ensures WithSeverity(a + b, s) == WithSeverity(a, s) + WithSeverity(b, s)
    decreases |b|
  {
    if b == [] {
      assert a + b == a;
    } else {
      assert (a + b)[..|a + b| - 1] == a + b[..|b| - 1];
      WithSeverityAppend(a, b[..|b| - 1], s);
    }
  }

  /** A group is empty exactly when no warning has that severity. */
  lemma {:induction false} WithSeverityEmpty(ws: seq<Warning>, s: string)
    ensures WithSeverity(ws, s) == [] <==> forall k :: 0 <= k < |ws| ==> ws[k].severity != s
  {
    if ws != [] {
      var init := ws[..|ws| - 1];
      WithSeverityEmpty(init, s);
      if forall k :: 0 <= k < |ws| ==> ws[k].severity != s {
        assert forall k :: 0 <= k < |init| ==> init[k].severity != s by {
          forall k | 0 <= k < |init| ensures init[k].severity != s {
            assert init[k] == ws[k];
          }
        }
      }
      if WithSeverity(ws, s) == [] {
        forall k | 0 <= k < |ws| ensures ws[k].severity != s {
          if k < |init| {
            assert init[k] == ws[k];
          }
        }
      }
    }
  }

  /** A group holds every warning of its severity, as often as the input does, and nothing else. */
  lemma {:induction false} WithSeverityCounts(ws: seq<Warning>, s: string, w: Warning)
    ensures multiset(WithSeverity(ws, s))[w] == if w.severity == s then multiset(ws)[w] else 0
  {
    if ws != [] {
      var init := ws[..|ws| - 1];
      WithSeverityCounts(init, s, w);
      assert ws == init + [ws[|ws| - 1]];
    }
  }

  /**
   * The `reduce` of the panel: each warning is pushed onto the bucket of its
   * severity, the bucket being created on first use.
   */
  method GroupBySeverity(ws: seq<Warning>) returns (grouped: map<string, seq<Warning>>)
    ensures forall s :: s in grouped <==> exists k :: 0 <= k < |ws| && ws[k].severity == s
    ensures forall s :: s in grouped ==> grouped[s] == WithSeverity(ws, s)
  {
    grouped := map[];
    var i := 0;
    while i < |ws|
      invariant 0 <= i <= |ws|
      invariant forall s :: s in grouped <==> exists k :: 0 <= k < i && ws[k].severity == s
      invariant forall s :: s in grouped ==> grouped[s] == WithSeverity(ws[..i], s)
    {
      var w := ws[i];
      assert ws[..i + 1][..i] == ws[..i];
      if w.severity !in grouped {
        WithSeverityEmpty(ws[..i], w.severity);
        grouped := grouped[w.severity := []];
      }
      grouped := grouped[w.severity := grouped[w.severity] + [w]];
      i := i + 1;
    }
    assert ws[..i] == ws;
  }

  /** `['error', 'warning', 'info'].filter(s => grouped[s])` */
  function PresentSeverities(order: seq<string>, grouped: map<string, seq<Warning>>): (present: seq<string>)
    ensures forall k :: 0 <= k < |present| ==> present[k] in grouped && present[k] in order
  {
    if order == [] then []
    else PresentSeverities(order[..|order| - 1], grouped)
         + (if order[|order| - 1] in grouped then [order[|order| - 1]] else [])
  }

  // ---------------------------------------------------------------------
  // The cards
  // ---------------------------------------------------------------------

  /** A card shows its badge and its warning; the tooltip's recommendation is computed from the warning. */
  datatype Card = Card(badge: string, warning: Warning)
  {
    function Recommendation(): string {
      ShownRecommendation(warning)
    }
  }

  datatype PanelView = AllClear | Cards(cards: seq<Card>)

  /** One card per warning of a group, in group order. */
  function GroupCards(severity: string, ws: seq<Warning>): (cards: seq<Card>)
    requires Displayable(severity)
    ensures |cards| == |ws|
    ensures forall k :: 0 <= k < |ws| ==> cards[k] == Card(SeverityLabel(severity), ws[k])
  {
    if ws == [] then []
    else GroupCards(severity, ws[..|ws| - 1]) + [Card(SeverityLabel(severity), ws[|ws| - 1])]
  }

  /** The cards of the present groups, group after group. */
  function RenderGroups(grouped: map<string, seq<Warning>>, severities: seq<string>): seq<Card>
    requires forall k :: 0 <= k < |severities| ==> severities[k] in grouped && Displayable(severities[k])
  {
    if severities == [] then []
    else RenderGroups(grouped, severities[..|severities| - 1])
         + GroupCards(severities[|severities| - 1], grouped[severities[|severities| - 1]])
  }

  /** The warnings the panel shows, in the order it shows them. */
  function Displayed(ws: seq<Warning>): seq<Warning> {
    WithSeverity(ws, "error") + WithSeverity(ws, "warning") + WithSeverity(ws, "info")
  }

  /** The card of a displayed warning. */
  function CardsOf(ws: seq<Warning>): (cards: seq<Card>)
    requires forall k :: 0 <= k < |ws| ==> Displayable(ws[k].severity)
    ensures |cards| == |ws|
    ensures forall k :: 0 <= k < |ws| ==>
              cards[k] == Card(SeverityLabel(ws[k].severity), ws[k])
  {
    if ws == [] then []
    else CardsOf(ws[..|ws| - 1])
         + [Card(SeverityLabel(ws[|ws| - 1].severity), ws[|ws| - 1])]
  }

  lemma DisplayedIsDisplayable(ws: seq<Warning>)
    ensures forall k :: 0 <= k < |Displayed(ws)| ==> Displayable(Displayed(ws)[k].severity)
  {
    var e := WithSeverity(ws, "error");
    var w := WithSeverity(ws, "warning");
    var i := WithSeverity(ws, "info");
    forall k | 0 <= k < |Displayed(ws)| ensures Displayable(Displayed(ws)[k].severity) {
      if k < |e| {
        assert Displayed(ws)[k] == e[k];
      } else if k < |e| + |w| {
        assert Displayed(ws)[k] == w[k - |e|];
      } else {
        assert Displayed(ws)[k] == i[k - |e| - |w|];
      }
    }
  }

  /** The cards of one group are the cards of its warnings. */
  lemma GroupCardsAreCards(severity: string, ws: seq<Warning>)
    requires Displayable(severity)
    requires forall k :: 0 <= k < |ws| ==> ws[k].severity == severity
    ensures GroupCards(severity, ws) == CardsOf(ws)
  {
  }

  lemma {:induction false} CardsOfAppend(a: seq<Warning>, b: seq<Warning>)
    requires forall k :: 0 <= k < |a| ==> Displayable(a[k].severity)
    requires forall k :: 0 <= k < |b| ==> Displayable(b[k].severity)
    ensures CardsOf(a + b) == CardsOf(a) + CardsOf(b)
  {
    assert forall k :: 0 <= k < |a + b| ==> Displayable((a + b)[k].severity) by {
      forall k | 0 <= k < |a + b| ensures Displayable((a + b)[k].severity) {
        if k < |a| {
          assert (a + b)[k] == a[k];
        } else {
          assert (a + b)[k] == b[k - |a|];
        }
      }
    }
  }

  lemma PresentOne(x: string, grouped: map<string, seq<Warning>>)
    ensures PresentSeverities([x], grouped) == if x in grouped then [x] else []
  {
    assert [x][..0] == [];
  }

  /** The cards of one severity as the panel renders them: the group's cards, or none when it is absent. */
  lemma GroupRendered(ws: seq<Warning>, grouped: map<string, seq<Warning>>, s: string)
    requires Displayable(s)
    requires forall t :: t in grouped <==> exists k :: 0 <= k < |ws| && ws[k].severity == t
    requires forall t :: t in grouped ==> grouped[t] == WithSeverity(ws, t)
    ensures RenderedGroup(grouped, s) == CardsOf(WithSeverity(ws, s))
  {
    if s in grouped {
      GroupCardsAreCards(s, WithSeverity(ws, s));
    } else {
      WithSeverityEmpty(ws, s);
    }
  }

  /** The severity alone when it has a group, else nothing. */
  function IfPresent(s: string, grouped: map<string, seq<Warning>>): (r: seq<string>)
    ensures forall k :: 0 <= k < |r| ==> r[k] == s && s in grouped
  {
    if s in grouped then [s] else []
  }

  lemma PresentInDisplayOrder(grouped: map<string, seq<Warning>>)
    ensures PresentSeverities(DisplayOrder, grouped)
            == IfPresent("error", grouped) + IfPresent("warning", grouped) + IfPresent("info", grouped)
  {
    var o1 := ["error"];
    var o2 := ["error", "warning"];
    assert o2[..1] == o1 && DisplayOrder[..2] == o2;
    PresentOne("error", grouped);
  }

  /** Every severity the panel walks through has a group and can be displayed. */
  lemma PresentRenderable(grouped: map<string, seq<Warning>>)
    ensures forall k :: 0 <= k < |PresentSeverities(DisplayOrder, grouped)| ==>
              PresentSeverities(DisplayOrder, grouped)[k] in grouped
              && Displayable(PresentSeverities(DisplayOrder, grouped)[k])
  {
    PresentInDisplayOrder(grouped);
    var e, w, i := IfPresent("error", grouped), IfPresent("warning", grouped), IfPresent("info", grouped);
    var p := e + w + i;
    forall k | 0 <= k < |p| ensures p[k] in grouped && Displayable(p[k]) {
      if k < |e| {
        assert p[k] == e[k];
      } else if k < |e| + |w| {
        assert p[k] == w[k - |e|];
      } else {
        assert p[k] == i[k - |e| - |w|];
      }
    }
  }

  lemma RenderGroupsStep(grouped: map<string, seq<Warning>>, severities: seq<string>, s: string)
    requires forall k :: 0 <= k < |severities| ==> severities[k] in grouped && Displayable(severities[k])
    requires Displayable(s)
    ensures RenderGroups(grouped, severities + IfPresent(s, grouped))
            == RenderGroups(grouped, severities) + RenderedGroup(grouped, s)
  {
    if s in grouped {
      assert (severities + [s])[..|severities|] == severities;
    } else {
      assert severities + IfPresent(s, grouped) == severities;
    }
  }

  /** The cards `RenderGroups` gives one severity. */
  function RenderedGroup(grouped: map<string, seq<Warning>>, s: string): seq<Card>
    requires Displayable(s)
  {
    if s in grouped then GroupCards(s, grouped[s]) else []
  }

  lemma RenderedFirst(grouped: map<string, seq<Warning>>)
    ensures RenderGroups(grouped, IfPresent("error", grouped)) == RenderedGroup(grouped, "error")
  {
    RenderGroupsStep(grouped, [], "error");
    assert [] + IfPresent("error", grouped) == IfPresent("error", grouped);
  }

  lemma RenderedFirstTwo(grouped: map<string, seq<Warning>>)
    ensures forall k :: 0 <= k < |IfPresent("error", grouped) + IfPresent("warning", grouped)| ==>
              (IfPresent("error", grouped) + IfPresent("warning", grouped))[k] in grouped
    ensures RenderGroups(grouped, IfPresent("error", grouped) + IfPresent("warning", grouped))
            == RenderedGroup(grouped, "error") + RenderedGroup(grouped, "warning")
  {
    var p1 := IfPresent("error", grouped);
    var p2 := p1 + IfPresent("warning", grouped);
    forall k | 0 <= k < |p2| ensures p2[k] in grouped && Displayable(p2[k]) {
      if k < |p1| {
        assert p2[k] == p1[k];
      } else {
        assert p2[k] == IfPresent("warning", grouped)[k - |p1|];
      }
    }
    RenderedFirst(grouped);
    RenderGroupsStep(grouped, p1, "warning");
  }

  lemma RenderedInOrder(grouped: map<string, seq<Warning>>)
    ensures RenderGroups(grouped, PresentSeverities(DisplayOrder, grouped))
            == RenderedGroup(grouped, "error") + RenderedGroup(grouped, "warning") + RenderedGroup(grouped, "info")
  {
    var p2 := IfPresent("error", grouped) + IfPresent("warning", grouped);
    RenderedFirstTwo(grouped);
    forall k | 0 <= k < |p2| ensures Displayable(p2[k]) {
      assert p2[k] == "error" || p2[k] == "warning";
    }
    PresentInDisplayOrder(grouped);
    RenderGroupsStep(grouped, p2, "info");
  }

  lemma CardsOfDisplayed(ws: seq<Warning>)
    ensures forall k :: 0 <= k < |Displayed(ws)| ==> Displayable(Displayed(ws)[k].severity)
    ensures CardsOf(Displayed(ws))
            == CardsOf(WithSeverity(ws, "error")) + CardsOf(WithSeverity(ws, "warning")) + CardsOf(WithSeverity(ws, "info"))
  {
    DisplayedIsDisplayable(ws);
    var e := WithSeverity(ws, "error");
    var w := WithSeverity(ws, "warning");
    CardsOfAppend(e, w);
    CardsOfAppend(e + w, WithSeverity(ws, "info"));
  }

  /** The rendered groups are the cards of the displayed warnings. */
  lemma RenderedIsDisplayed(ws: seq<Warning>, grouped: map<string, seq<Warning>>)
    requires forall t :: t in grouped <==> exists k :: 0 <= k < |ws| && ws[k].severity == t
    requires forall t :: t in grouped ==> grouped[t] == WithSeverity(ws, t)
    ensures forall k :: 0 <= k < |Displayed(ws)| ==> Displayable(Displayed(ws)[k].severity)
    ensures RenderGroups(grouped, PresentSeverities(DisplayOrder, grouped)) == CardsOf(Displayed(ws))
  {
    CardsOfDisplayed(ws);
    RenderedInOrder(grouped);
    GroupRendered(ws, grouped, "error");
    GroupRendered(ws, grouped, "warning");
    GroupRendered(ws, grouped, "info");
  }

  /** `WarningsPanel`: the all-clear view for no warnings, else the cards group by group. */
  method ShowWarnings(ws: seq<Warning>) returns (view: PanelView)
    ensures ws == [] ==> view == AllClear
    ensures ws != [] ==> forall k :: 0 <= k < |Displayed(ws)| ==> Displayable(Displayed(ws)[k].severity)
    ensures ws != [] ==> view == Cards(CardsOf(Displayed(ws)))
  {
    if |ws| == 0 {
      return AllClear;
    }
    var grouped := GroupBySeverity(ws);
    var severities := PresentSeverities(DisplayOrder, grouped);
    PresentRenderable(grouped);
    RenderedIsDisplayed(ws, grouped);
    view := Cards(RenderGroups(grouped, severities));
  }

  // ---------------------------------------------------------------------
  // What the panel shows
  // ---------------------------------------------------------------------

  /** The warnings whose severity the panel can display, in input order. */
  function Known(ws: seq<Warning>): seq<Warning> {
    if ws == [] then []
    else Known(ws[..|ws| - 1]) + (if Displayable(ws[|ws| - 1].severity) then [ws[|ws| - 1]] else [])
  }

  lemma {:induction false} KnownCounts(ws: seq<Warning>, w: Warning)
    ensures multiset(Known(ws))[w] == if Displayable(w.severity) then multiset(ws)[w] else 0
  {
    if ws != [] {
      var init := ws[..|ws| - 1];
      KnownCounts(init, w);
      assert ws == init + [ws[|ws| - 1]];
    }
  }

  /**
   * The panel shows every warning of severity error, warning or info exactly
   * as often as it occurs, and no other warning.
   */
  lemma DisplayedIsKnownPermutation(ws: seq<Warning>)
    ensures multiset(Displayed(ws)) == multiset(Known(ws))
  {
    forall w ensures multiset(Displayed(ws))[w] == multiset(Known(ws))[w] {
      DisplayedCount(ws, w);
    }
  }

  lemma DisplayedCount(ws: seq<Warning>, w: Warning)
    ensures multiset(Displayed(ws))[w] == multiset(Known(ws))[w]
  {
    var e, wa, i := WithSeverity(ws, "error"), WithSeverity(ws, "warning"), WithSeverity(ws, "info");
    assert multiset(Displayed(ws)) == multiset(e) + multiset(wa) + multiset(i);
    WithSeverityCounts(ws, "error", w);
    WithSeverityCounts(ws, "warning", w);
    WithSeverityCounts(ws, "info", w);
    KnownCounts(ws, w);
  }

  /** When every severity is known, nothing is dropped. */
  lemma {:induction false} KnownAll(ws: seq<Warning>)
    requires forall k :: 0 <= k < |ws| ==> Displayable(ws[k].severity)
    ensures Known(ws) == ws
  {
    if ws != [] {
      KnownAll(ws[..|ws| - 1]);
    }
  }

  /** When every severity is known, the panel shows every warning exactly once. */
  lemma DisplayedAllWhenKnown(ws: seq<Warning>)
    requires forall k :: 0 <= k < |ws| ==> Displayable(ws[k].severity)
    ensures multiset(Displayed(ws)) == multiset(ws)
    ensures |Displayed(ws)| == |ws|
  {
    DisplayedIsKnownPermutation(ws);
    KnownAll(ws);
    assert |multiset(Displayed(ws))| == |multiset(ws)|;
  }

  /** A group of warnings that all share the severity is its own group. */
  lemma {:induction false} WithSeverityAll(ws: seq<Warning>, s: string)
    requires forall k :: 0 <= k < |ws| ==> ws[k].severity == s
    ensures WithSeverity(ws, s) == ws
  {
    if ws != [] {
      WithSeverityAll(ws[..|ws| - 1], s);
    }
  }

  lemma WithSeverityNone(ws: seq<Warning>, s: string, t: string)
    requires s != t
    requires forall k :: 0 <= k < |ws| ==> ws[k].severity == t
    ensures WithSeverity(ws, s) == []
  {
    WithSeverityEmpty(ws, s);
  }

  lemma WithSeverityAppend3(a: seq<Warning>, b: seq<Warning>, c: seq<Warning>, s: string)
    ensures WithSeverity(a + b + c, s) == WithSeverity(a, s) + WithSeverity(b, s) + WithSeverity(c, s)
  {
    WithSeverityAppend(a + b, c, s);
    WithSeverityAppend(a, b, s);
  }

  /** Regrouping the shown warnings by a displayed severity gives that severity's group back. */
  lemma RegroupDisplayed(ws: seq<Warning>, s: string)
    requires Displayable(s)
    ensures WithSeverity(Displayed(ws), s) == WithSeverity(ws, s)
  {
    WithSeverityAppend3(WithSeverity(ws, "error"), WithSeverity(ws, "warning"), WithSeverity(ws, "info"), s);
    if s == "error" {
      RegroupErrors(ws);
    } else if s == "warning" {
      RegroupWarnings(ws);
    } else {
      RegroupInfos(ws);
    }
  }

  lemma RegroupErrors(ws: seq<Warning>)
    ensures WithSeverity(WithSeverity(ws, "error"), "error") + WithSeverity(WithSeverity(ws, "warning"), "error")
            + WithSeverity(WithSeverity(ws, "info"), "error") == WithSeverity(ws, "error")
  {
    var e, w, i := WithSeverity(ws, "error"), WithSeverity(ws, "warning"), WithSeverity(ws, "info");
    WithSeverityAll(e, "error");
    WithSeverityNone(w, "error", "warning");
    WithSeverityNone(i, "error", "info");
    assert e + [] + [] == e;
  }

  lemma RegroupWarnings(ws: seq<Warning>)
    ensures WithSeverity(WithSeverity(ws, "error"), "warning") + WithSeverity(WithSeverity(ws, "warning"), "warning")
            + WithSeverity(WithSeverity(ws, "info"), "warning") == WithSeverity(ws, "warning")
  {
    var e, w, i := WithSeverity(ws, "error"), WithSeverity(ws, "warning"), WithSeverity(ws, "info");
    WithSeverityNone(e, "warning", "error");
    WithSeverityAll(w, "warning");
    WithSeverityNone(i, "warning", "info");
    assert [] + w + [] == w;
  }

  lemma RegroupInfos(ws: seq<Warning>)
    ensures WithSeverity(WithSeverity(ws, "error"), "info") + WithSeverity(WithSeverity(ws, "warning"), "info")
            + WithSeverity(WithSeverity(ws, "info"), "info") == WithSeverity(ws, "info")
  {
    var e, w, i := WithSeverity(ws, "error"), WithSeverity(ws, "warning"), WithSeverity(ws, "info");
    WithSeverityNone(e, "info", "error");
    WithSeverityNone(w, "info", "warning");
    WithSeverityAll(i, "info");
    assert [] + [] + i == i;
  }

  /** Grouping what the panel shows changes nothing: the display is already grouped. */
  lemma DisplayedIdempotent(ws: seq<Warning>)
    ensures Displayed(Displayed(ws)) == Displayed(ws)
  {
    RegroupDisplayed(ws, "error");
    RegroupDisplayed(ws, "warning");
    RegroupDisplayed(ws, "info");
  }

  // ---------------------------------------------------------------------
  // Recommendations
  // ---------------------------------------------------------------------

  /** The keywords of `getDefaultRecommendation`, in the order `Object.keys` lists them. */
  const RecommendationKeys: seq<string> := ["security", "compliance", "cost", "performance"]

  function CannedRecommendation(key: string): (r: string)
    ensures |r| > 0
  {
    if key == "security" then
      "This could expose your infrastructure " + "to unauthorized access. " + "Review and restrict permissions."
    else if key == "compliance" then
      "This may violate regulatory requirements. " + "Ensure your infrastructure meets " + "compliance standards."
    else if key == "cost" then
      "This configuration may lead to " + "unexpected costs. Consider optimizing " + "resource allocation."
    else
      "This may impact application performance. " + "Consider reviewing resource sizing."
  }

  const GenericRecommendation := "Review this finding and take " + "appropriate action to maintain " + "infrastructure best practices."

  /** The first key, in order, that occurs in the text. */
  function FindKey(keys: seq<string>, text: string): (r: Option<string>)
    ensures r.Some? ==> r.value in keys && Contains(text, r.value)
  {
    if keys == [] then None
    else if Contains(text, keys[0]) then Some(keys[0])
    else FindKey(keys[1..], text)
  }

  /** With distinct keys, `find` returns a key exactly when it is contained and no earlier key is. */
  lemma {:induction false} FindKeyIsFirst(keys: seq<string>, text: string, i: int)
    requires 0 <= i < |keys|
    requires forall a, b :: 0 <= a < b < |keys| ==> keys[a] != keys[b]
    ensures FindKey(keys, text) == Some(keys[i])
            <==> Contains(text, keys[i]) && forall j :: 0 <= j < i ==> !Contains(text, keys[j])
  {
    if !Contains(text, keys[0]) {
      var rest := keys[1..];
      assert forall j :: 0 <= j < |rest| ==> rest[j] == keys[j + 1];
      if i > 0 {
        FindKeyIsFirst(rest, text, i - 1);
      } else {
        assert keys[0] !in rest;
      }
    }
  }

  /** `find` returns nothing exactly when no key is contained. */
  lemma {:induction false} FindKeyNone(keys: seq<string>, text: string)
    ensures FindKey(keys, text).None? <==> forall j :: 0 <= j < |keys| ==> !Contains(text, keys[j])
  {
    if keys != [] && !Contains(text, keys[0]) {
      var rest := keys[1..];
      FindKeyNone(rest, text);
      assert forall j :: 0 <= j < |rest| ==> rest[j] == keys[j + 1];
    }
  }

  /** `getDefaultRecommendation`: the canned text of a key the lower-cased message contains, or the generic note. */
  function DefaultRecommendation(message: string): (r: string)
    ensures |r| > 0
    ensures r == GenericRecommendation
            || exists i :: 0 <= i < |RecommendationKeys| && Contains(ToLower(message), RecommendationKeys[i])
                           && r == CannedRecommendation(RecommendationKeys[i])
  {
    match FindKey(RecommendationKeys, ToLower(message))
    case Some(key) => CannedRecommendation(key)
    case None => GenericRecommendation
  }

  /** `warning.recommendation || getDefaultRecommendation(warning)`: an empty recommendation counts as none. */
  function ShownRecommendation(w: Warning): (r: string)
    ensures |r| > 0
    ensures w.recommendation.Some? && w.recommendation.value != "" ==> r == w.recommendation.value
    ensures (w.recommendation.Some? && r == w.recommendation.value) || r == DefaultRecommendation(w.message)
  {
    if w.recommendation.Some? && w.recommendation.value != "" then w.recommendation.value
    else DefaultRecommendation(w.message)
  }

  /** The canned texts differ from each other and from the generic note. */
  lemma RecommendationsDistinct()
    ensures forall i, j :: 0 <= i < j < |RecommendationKeys|
              ==> CannedRecommendation(RecommendationKeys[i]) != CannedRecommendation(RecommendationKeys[j])
    ensures forall i :: 0 <= i < |RecommendationKeys| ==> CannedRecommendation(RecommendationKeys[i]) != GenericRecommendation
  {
    assert |CannedRecommendation("security")| == 94;
    assert |CannedRecommendation("compliance")| == 96;
    assert |CannedRecommendation("cost")| == 89;
    assert |CannedRecommendation("performance")| == 76;
    assert |GenericRecommendation| == 90;
  }

  lemma RecommendationKeysDistinct()
    ensures forall a, b :: 0 <= a < b < |RecommendationKeys| ==> RecommendationKeys[a] != RecommendationKeys[b]
  {
    var keys := RecommendationKeys;
    assert |keys[0]| == 8 && |keys[1]| == 10 && |keys[2]| == 4 && |keys[3]| == 11;
  }

  /** The panel shows a keyword's canned text exactly when `find` picks that keyword. */
  lemma DefaultIsCanned(message: string, i: int)
    requires 0 <= i < |RecommendationKeys|
    ensures DefaultRecommendation(message) == CannedRecommendation(RecommendationKeys[i])
            <==> FindKey(RecommendationKeys, ToLower(message)) == Some(RecommendationKeys[i])
  {
    RecommendationsDistinct();
    var r := FindKey(RecommendationKeys, ToLower(message));
    if r.Some? {
      var k :| 0 <= k < |RecommendationKeys| && RecommendationKeys[k] == r.value;
      assert DefaultRecommendation(message) == CannedRecommendation(RecommendationKeys[k]);
    }
  }

  /**
   * The canned text of the first keyword, in the order security, compliance,
   * cost, performance, that the lower-cased message contains.
   */
  lemma DefaultRecommendationFirstKeyword(message: string, i: int)
    requires 0 <= i < |RecommendationKeys|
    ensures DefaultRecommendation(message) == CannedRecommendation(RecommendationKeys[i])
            <==> Contains(ToLower(message), RecommendationKeys[i])
                 && forall j :: 0 <= j < i ==> !Contains(ToLower(message), RecommendationKeys[j])
  {
    RecommendationKeysDistinct();
    FindKeyIsFirst(RecommendationKeys, ToLower(message), i);
    DefaultIsCanned(message, i);
  }

  /** The generic note is shown exactly when the lower-cased message contains no keyword. */
  lemma DefaultRecommendationGeneric(message: string)
    ensures DefaultRecommendation(message) == GenericRecommendation
            <==> forall j :: 0 <= j < |RecommendationKeys| ==> !Contains(ToLower(message), RecommendationKeys[j])
  {
    RecommendationsDistinct();
    FindKeyNone(RecommendationKeys, ToLower(message));
    var r := FindKey(RecommendationKeys, ToLower(message));
    if r.Some? {
      var k :| 0 <= k < |RecommendationKeys| && RecommendationKeys[k] == r.value;
      assert DefaultRecommendation(message) == CannedRecommendation(RecommendationKeys[k]);
    }
  }

  /** Lower-casing twice is lower-casing once. */
  lemma ToLowerIdempotent(s: string)
    ensures ToLower(ToLower(s)) == ToLower(s)
  {
    assert forall k :: 0 <= k < |s| ==> LowerChar(LowerChar(s[k])) == LowerChar(s[k]);
  }

  /** The choice ignores the case of the message. */
  lemma DefaultRecommendationIgnoresCase(message: string)
    ensures DefaultRecommendation(ToLower(message)) == DefaultRecommendation(message)
  {
    ToLowerIdempotent(message);
  }

  /** A warning's own non-empty recommendation wins; otherwise the default applies, and neither is empty. */
  lemma ShownRecommendationNonEmpty(w: Warning)
    ensures |ShownRecommendation(w)| > 0
    ensures w.recommendation.Some? && w.recommendation.value != "" ==> ShownRecommendation(w) == w.recommendation.value
    ensures ShownRecommendation(w) == DefaultRecommendation(w.message)
            <== w.recommendation.None? || w.recommendation.value == ""
  {
  }
}
