// Team-colour class names and the one-time injection of their style
// element. The document head is a list of style elements (only the ones
// this function adds are modelled); the CSS text of an element is kept as
// its two colours.

module StyleUtils {
  import opened JsCore

  /** `color || '#333'`: undefined and the empty string fall back. */
  function ColorOrDefault(color: Option<string>): (r: string)
    ensures color.Some? && color.value != "" ==> r == color.value
    ensures color.None? || color.value == "" ==> r == "#333"
  {
    if color.Some? && color.value != "" then color.value else "#333"
  }

  /** `s.replace('#', '')`: a string pattern replaces only its first
      occurrence. */
  function RemoveFirstHash(s: string): (r: string)
    ensures '#' !in s ==> r == s
    ensures '#' in s ==> |r| == |s| - 1
    decreases |s|
  {
    if s == [] then []
    else if s[0] == '#' then s[1..]
    else [s[0]] + RemoveFirstHash(s[1..])
  }

  /** Removing the first '#' keeps what precedes it and what follows it. */
  lemma {:induction false} RemoveFirstHashSplit(s: string, i: nat)
    requires i < |s| && s[i] == '#' && forall j :: 0 <= j < i ==> s[j] != '#'
    ensures RemoveFirstHash(s) == s[..i] + s[i + 1..]
    decreases i
  {
    if i > 0 {
      RemoveFirstHashSplit(s[1..], i - 1);
      assert s[1..][..i - 1] == s[1..i] && s[1..][i..] == s[i + 1..];
      assert s[..i] == [s[0]] + s[1..i];
    }
  }

  /** The class name for a pair of team colours. */
  function ClassName(home: Option<string>, away: Option<string>): (r: string)
    ensures "team-colors-" <= r
    ensures var h, a := ColorOrDefault(home), ColorOrDefault(away);
            |r| == |"team-colors-"| + |h| + 1 + |a| - (if '#' in h then 1 else 0) - (if '#' in a then 1 else 0)
  {
    var r := "team-colors-" + RemoveFirstHash(ColorOrDefault(home)) + "-" + RemoveFirstHash(ColorOrDefault(away));
    assert r == "team-colors-" + (RemoveFirstHash(ColorOrDefault(home)) + "-" + RemoveFirstHash(ColorOrDefault(away)));
    r
  }

  /** Both defaults, and a pair of hex colours. */
  lemma ClassNameExamples()
    ensures ClassName(None, None) == "team-colors-" + "333" + "-" + "333"
    ensures ClassName(Some("#ABCDEF"), None) == "team-colors-" + "ABCDEF" + "-" + "333"
  {
    assert RemoveFirstHash("#333") == "333";
    assert RemoveFirstHash("#ABCDEF") == "ABCDEF";
  }

  /** A colour written as '#' and then characters other than '#' and '-'. */
  predicate HashColor(c: string)
  {
    |c| >= 1 && c[0] == '#' && forall i :: 1 <= i < |c| ==> c[i] != '#' && c[i] != '-'
  }

  /** Hash colours give different class names to different pairs, so one
      injected element never stands for two different pairs. */
  lemma ClassNameInjective(h1: string, a1: string, h2: string, a2: string)
    requires HashColor(h1) && HashColor(a1) && HashColor(h2) && HashColor(a2)
    requires ClassName(Some(h1), Some(a1)) == ClassName(Some(h2), Some(a2))
    ensures h1 == h2 && a1 == a2
  {
    HashColorStripped(h1);
    HashColorStripped(a1);
    HashColorStripped(h2);
    HashColorStripped(a2);
    var x, y, u, v := h1[1..], a1[1..], h2[1..], a2[1..];
    var p := "team-colors-";
    assert (p + x + "-" + y)[|p|..] == x + "-" + y;
    assert (p + u + "-" + v)[|p|..] == u + "-" + v;
    DashSplit(x, y, u, v);
    assert h1 == [h1[0]] + x && h2 == [h2[0]] + u;
    assert a1 == [a1[0]] + y && a2 == [a2[0]] + v;
  }

  lemma HashColorStripped(c: string)
    requires HashColor(c)
    ensures RemoveFirstHash(c) == c[1..] && '-' !in c[1..]
    ensures ColorOrDefault(Some(c)) == c
  {
    assert forall k :: 0 <= k < |c[1..]| ==> c[1..][k] == c[k + 1];
  }

  /** Two dash-joined pairs without dashes are equal only part by part. */
  lemma DashSplit(x: string, y: string, u: string, v: string)
    requires '-' !in x && '-' !in u
    requires x + "-" + y == u + "-" + v
    ensures x == u && y == v
  {
    var s := x + "-" + y;
    assert forall k :: 0 <= k < |x| ==> s[k] == x[k];
    assert forall k :: 0 <= k < |u| ==> s[k] == u[k];
    assert s[|x|] == '-' && s[|u|] == '-';
    assert |x| == |u|;
    assert x == s[..|x|] && u == s[..|u|];
    assert y == s[|x| + 1..] && v == s[|u| + 1..];
  }

  /** An injected style element: its id and the colours its rules use. */
  datatype StyleElement = StyleElement(id: string, homeColor: string, awayColor: string)

  predicate HasId(styles: seq<StyleElement>, id: string)
  {
    exists i :: 0 <= i < |styles| && styles[i].id == id
  }

  /** The document's head, or no document at all (server rendering). */
  class DocumentHead {
    var styles: seq<StyleElement>
    const present: bool

    /** `document.getElementById` finds at most one element per id. */
    predicate Valid()
      reads this
    {
      forall i, j :: 0 <= i < j < |styles| ==> styles[i].id != styles[j].id
    }

    constructor (present: bool)
      ensures Valid() && styles == [] && this.present == present
    {
      styles := [];
      this.present := present;
    }

    /** `createTeamColorStyles`: add the pair's style element unless there
        is no document or an element with its id exists; return the class
        name either way. */
    method CreateTeamColorStyles(home: Option<string>, away: Option<string>) returns (className: string)
      requires Valid()
      modifies this`styles
      ensures Valid()
      ensures className == ClassName(home, away)
      ensures present && !HasId(old(styles), className) ==>
                styles == old(styles) + [StyleElement(className, ColorOrDefault(home), ColorOrDefault(away))]
      ensures !present || HasId(old(styles), className) ==> styles == old(styles)
      ensures present ==> HasId(styles, className)
    {
      var homeColor := ColorOrDefault(home);
      var awayColor := ColorOrDefault(away);
      className := "team-colors-" + RemoveFirstHash(homeColor) + "-" + RemoveFirstHash(awayColor);
      if present && !HasId(styles, className) {
        styles := styles + [StyleElement(className, homeColor, awayColor)];
        assert styles[|styles| - 1].id == className;
      }
    }
  }

  /** Two calls with the same colours add the element at most once. */
  method CreateTwice(head: DocumentHead, home: Option<string>, away: Option<string>) returns (first: string, second: string)
    requires head.Valid()
    modifies head`styles
    ensures head.Valid()
    ensures first == second == ClassName(home, away)
    ensures head.styles == old(head.styles) || (head.present && head.styles == old(head.styles) + [StyleElement(first, ColorOrDefault(home), ColorOrDefault(away))])
    ensures head.present ==> exists i :: 0 <= i < |head.styles| && head.styles[i].id == first &&
                                         forall j :: 0 <= j < |head.styles| && head.styles[j].id == first ==> j == i
  {
    first := head.CreateTeamColorStyles(home, away);
    second := head.CreateTeamColorStyles(home, away);
    if head.present {
      var i :| 0 <= i < |head.styles| && head.styles[i].id == first;
      assert forall j :: 0 <= j < |head.styles| && head.styles[j].id == first ==> j == i;
    }
  }
}
